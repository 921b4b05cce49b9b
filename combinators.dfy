/**
  The boolean combinators of `query.py`: `And`/`Or` gather filter records and
  nested combinator results into one `{operation: {operator, operands}}` node,
  wrapping each filter record (recognised by its `left` key) as
  `{expression: record}` and passing nested nodes through unchanged.
 */
module Combinators {
  import opened JsonValues
  import opened Columns

  datatype Operator = AndOp | OrOp

  function OperatorName(op: Operator): string
  {
    match op
    case AndOp => "and"
    case OrOp => "or"
  }

  /** `'left' in expr`: how an operand is recognised as a filter record; every record passes. */
  predicate IsLeaf(e: Json)
    ensures ParseFilter(e).Some? ==> IsLeaf(e)
    ensures IsLeaf(e) ==> e.JObject?
  {
    e.JObject? && "left" in e.fields
  }

  /** The one-key envelope a filter record is wrapped in. */
  function Envelope(e: Json): Json
  {
    JObject(map["expression" := e])
  }

  /** What one loop step appends for an operand. */
  function Wrap(e: Json): Json
  {
    if IsLeaf(e) then Envelope(e) else e
  }

  /**
    The operand list `And`/`Or` build: one entry per expression, in order, each
    filter record enveloped and every other expression kept as it is.
   */
  function Operands(expressions: seq<Json>): (operands: seq<Json>)
    ensures |operands| == |expressions|
    ensures forall i :: 0 <= i < |expressions| ==>
              operands[i] == (if IsLeaf(expressions[i]) then Envelope(expressions[i]) else expressions[i])
  {
    if expressions == [] then [] else [Wrap(expressions[0])] + Operands(expressions[1..])
  }

  /** The node `{operation: {operator, operands}}`. */
  function NodeJson(op: Operator, operands: seq<Json>): Json
  {
    JObject(map["operation" := JObject(map["operator" := JStr(OperatorName(op)), "operands" := JList(operands)])])
  }

  /**
    `_impl_and_or_chaining`: a single-key node whose operator is the one asked
    for and whose operands correspond one to one, in order, to the expressions.
   */
  method Chain(expressions: seq<Json>, operator: Operator) returns (r: Json)
    ensures r == NodeJson(operator, Operands(expressions))
    ensures r.JObject? && r.fields.Keys == {"operation"}
    ensures r.fields["operation"].JObject? && r.fields["operation"].fields.Keys == {"operator", "operands"}
  {
    var lst: seq<Json> := [];
    for k := 0 to |expressions|
      invariant |lst| == k
      invariant forall i :: 0 <= i < k ==> lst[i] == Wrap(expressions[i])
    {
      var expr := expressions[k];
      if IsLeaf(expr) {
        lst := lst + [Envelope(expr)];
      } else {
        lst := lst + [expr];
      }
    }
    assert lst == Operands(expressions);
    r := NodeJson(operator, lst);
    assert r.fields.Keys == {"operation"};
    assert r.fields["operation"].fields.Keys == {"operator", "operands"};
  }

  /** `And(*expressions)` */
  method And(expressions: seq<Json>) returns (r: Json)
    ensures r == NodeJson(AndOp, Operands(expressions))
  {
    r := Chain(expressions, AndOp);
  }

  /** `Or(*expressions)` */
  method Or(expressions: seq<Json>) returns (r: Json)
    ensures r == NodeJson(OrOp, Operands(expressions))
  {
    r := Chain(expressions, OrOp);
  }

  /** Reads an operand back: an envelope gives its record, anything else is itself. */
  function Unwrap(operand: Json): Json
  {
    if operand.JObject? && operand.fields.Keys == {"expression"} then operand.fields["expression"] else operand
  }

  /**
    Wrapping loses nothing: every operand that is not itself a bare envelope
    (filter records and nested nodes never are) is recovered by `Unwrap`.
   */
  lemma UnwrapWrap(e: Json)
    requires !(e.JObject? && e.fields.Keys == {"expression"})
    ensures Unwrap(Wrap(e)) == e
    ensures Wrap(e) != e <==> IsLeaf(e)
  {
    if IsLeaf(e) {
      assert Envelope(e).fields.Keys == {"expression"};
      assert Envelope(e) != e;
    }
  }

  /**
    The tagged form of a boolean filter tree: a leaf is a filter record, an
    inner node an operator over ordered children. No shape inspection needed.
   */
  datatype Expr = Leaf(filter: Filter) | Node(op: Operator, children: seq<Expr>)

  /** The dictionary the caller passes in for a tree: a filter record or an And/Or result. */
  function Compile(e: Expr): Json
  {
    match e
    case Leaf(f) => FilterJson(f)
    case Node(op, cs) => NodeJson(op, CompileChildren(cs))
  }

  /** The operands of a compiled node: leaves enveloped, inner nodes compiled. */
  function CompileChildren(cs: seq<Expr>): seq<Json>
  {
    if cs == [] then []
    else [if cs[0].Leaf? then Envelope(FilterJson(cs[0].filter)) else Compile(cs[0])] + CompileChildren(cs[1..])
  }

  /** The children as the caller hands them to `And`/`Or`: each compiled on its own. */
  function CompileEach(cs: seq<Expr>): seq<Json>
  {
    if cs == [] then [] else [Compile(cs[0])] + CompileEach(cs[1..])
  }

  /** The `left` test tells a compiled leaf from a compiled node without fail. */
  lemma LeafTestIsExact(e: Expr)
    ensures IsLeaf(Compile(e)) <==> e.Leaf?
  {
    match e
    case Leaf(f) =>
    case Node(op, cs) =>
      assert Compile(e).fields.Keys == {"operation"};
  }

  /** Enveloping the compiled children by the `left` test gives the compiled operands. */
  lemma {:induction false} OperandsOfCompiled(cs: seq<Expr>)
    ensures Operands(CompileEach(cs)) == CompileChildren(cs)
  {
    if cs != [] {
      LeafTestIsExact(cs[0]);
      OperandsOfCompiled(cs[1..]);
      assert CompileEach(cs)[1..] == CompileEach(cs[1..]);
    }
  }

  /**
    The duck-typed combinator agrees with the tagged tree: applying And/Or to the
    compiled children gives the compiled node, so nesting is kept, never flattened.
   */
  lemma ChainCompiles(op: Operator, cs: seq<Expr>)
    ensures NodeJson(op, Operands(CompileEach(cs))) == Compile(Node(op, cs))
  {
    OperandsOfCompiled(cs);
  }

  /** `And(p1, Or(p2, p3))` keeps the inner `or` as a nested operand. */
  method NestedExample(p1: Filter, p2: Filter, p3: Filter) returns (r: Json)
    ensures r == NodeJson(AndOp, [Envelope(FilterJson(p1)),
                                  NodeJson(OrOp, [Envelope(FilterJson(p2)), Envelope(FilterJson(p3))])])
  {
    LeafTestIsExact(Leaf(p1));
    LeafTestIsExact(Leaf(p2));
    LeafTestIsExact(Leaf(p3));
    var leaves := [FilterJson(p2), FilterJson(p3)];
    var inner := Or(leaves);
    assert Operands(leaves) == [Envelope(FilterJson(p2)), Envelope(FilterJson(p3))];
    assert !IsLeaf(inner) by {
      assert inner.fields.Keys == {"operation"};
    }
    assert Operands([FilterJson(p1), inner]) == [Envelope(FilterJson(p1)), inner];
    r := And([FilterJson(p1), inner]);
  }
}
