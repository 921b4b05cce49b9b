/**
  The predicate DSL of `column.py`: a `Column` holds a field name, and each of
  its operators turns that name and an operand into a filter record
  `{left, operation, right}` for the scanner's `filter` list.
 */
module Columns {
  import opened Wrappers
  import opened JsonValues

  /** The operation codes a filter record may carry. */
  datatype Operation =
    | Greater | EGreater | Less | ELess | Equal | NEqual
    | InRange | NotInRange | Match
    | Crosses | CrossesAbove | CrossesBelow
    | AbovePct | BelowPct | InRangePct | NotInRangePct
    | Has | HasNoneOf

  /** The wire spelling of an operation; `Decode` reads it back. */
  function Code(op: Operation): (code: string)
    ensures Decode(code) == Some(op)
  {
    match op
    case Greater => "greater"
    case EGreater => "egreater"
    case Less => "less"
    case ELess => "eless"
    case Equal => "equal"
    case NEqual => "nequal"
    case InRange => "in_range"
    case NotInRange => "not_in_range"
    case Match => "match"
    case Crosses => "crosses"
    case CrossesAbove => "crosses_above"
    case CrossesBelow => "crosses_below"
    case AbovePct => "above%"
    case BelowPct => "below%"
    case InRangePct => "in_range%"
    case NotInRangePct => "not_in_range%"
    case Has => "has"
    case HasNoneOf => "has_none_of"
  }

  /** The operation a wire code names, if any. */
  function Decode(code: string): Option<Operation>
  {
    if code == "greater" then Some(Greater)
    else if code == "egreater" then Some(EGreater)
    else if code == "less" then Some(Less)
    else if code == "eless" then Some(ELess)
    else if code == "equal" then Some(Equal)
    else if code == "nequal" then Some(NEqual)
    else if code == "in_range" then Some(InRange)
    else if code == "not_in_range" then Some(NotInRange)
    else if code == "match" then Some(Match)
    else if code == "crosses" then Some(Crosses)
    else if code == "crosses_above" then Some(CrossesAbove)
    else if code == "crosses_below" then Some(CrossesBelow)
    else if code == "above%" then Some(AbovePct)
    else if code == "below%" then Some(BelowPct)
    else if code == "in_range%" then Some(InRangePct)
    else if code == "not_in_range%" then Some(NotInRangePct)
    else if code == "has" then Some(Has)
    else if code == "has_none_of" then Some(HasNoneOf)
    else None
  }

  /** A code that decodes is the spelling of the operation it decodes to. */
  lemma DecodeInverse(code: string)
    ensures Decode(code).Some? ==> Code(Decode(code).value) == code
  {
  }

  /** Distinct operations never share a wire code. */
  lemma CodeInjective(a: Operation, b: Operation)
    ensures Code(a) == Code(b) ==> a == b
  {
  }

  /** The content of one filter record. */
  datatype Filter = Filter(left: string, operation: Operation, right: Json)

  /** The three-key dictionary a filter record is sent as. */
  function FilterJson(f: Filter): (j: Json)
    ensures ParseFilter(j) == Some(f)
  {
    var fields := map["left" := JStr(f.left), "operation" := JStr(Code(f.operation)), "right" := f.right];
    assert fields.Keys == {"left", "operation", "right"};
    JObject(fields)
  }

  /**
    Reads a dictionary back as a filter record: exactly the keys `left`,
    `operation` and `right`, a string on the left and a known operation code.
   */
  function ParseFilter(j: Json): (f: Option<Filter>)
    ensures f.Some? ==> j.JObject? && "left" in j.fields
  {
    if j.JObject? && j.fields.Keys == {"left", "operation", "right"}
       && j.fields["left"].JStr? && j.fields["operation"].JStr?
       && Decode(j.fields["operation"].s).Some?
    then Some(Filter(j.fields["left"].s, Decode(j.fields["operation"].s).value, j.fields["right"]))
    else None
  }

  /** Every dictionary that reads as a filter record is the one `FilterJson` writes for it. */
  lemma ParseFilterInverse(j: Json)
    requires ParseFilter(j).Some?
    ensures FilterJson(ParseFilter(j).value) == j
  {
    var f := ParseFilter(j).value;
    DecodeInverse(j.fields["operation"].s);
    assert FilterJson(f).fields.Keys == j.fields.Keys;
  }

  /** What a Column method accepts as an operand: another `Column`, or any plain value. */
  datatype Operand = Col(column: Column) | Val(value: Json)

  /** A named field of the screener; the constructor keeps the name exactly as given. */
  datatype Column = Column(name: string)
  {
    /** `_extract_name`: a Column stands for its name, anything else for itself. */
    static function ExtractName(obj: Operand): (r: Json)
      ensures obj.Col? ==> r == JStr(obj.column.name)
      ensures obj.Val? ==> r == obj.value
    {
      match obj
      case Col(c) => JStr(c.name)
      case Val(v) => v
    }

    /** The record for this column, an operation and its right-hand side. */
    function Emit(op: Operation, right: Json): (r: Json)
      ensures ParseFilter(r) == Some(Filter(name, op, right))
    {
      FilterJson(Filter(name, op, right))
    }

    /** `self > other` */
    function Gt(other: Operand): (r: Json)
      ensures ParseFilter(r) == Some(Filter(name, Greater, ExtractName(other)))
    {
      Emit(Greater, ExtractName(other))
    }

    /** `self >= other` */
    function Ge(other: Operand): (r: Json)
      ensures ParseFilter(r) == Some(Filter(name, EGreater, ExtractName(other)))
    {
      Emit(EGreater, ExtractName(other))
    }

    /** `self < other` */
    function Lt(other: Operand): (r: Json)
      ensures ParseFilter(r) == Some(Filter(name, Less, ExtractName(other)))
    {
      Emit(Less, ExtractName(other))
    }

    /** `self <= other` */
    function Le(other: Operand): (r: Json)
      ensures ParseFilter(r) == Some(Filter(name, ELess, ExtractName(other)))
    {
      Emit(ELess, ExtractName(other))
    }

    /** `self == other`: builds a record, it does not compare. */
    function Eq(other: Operand): (r: Json)
      ensures ParseFilter(r) == Some(Filter(name, Equal, ExtractName(other)))
    {
      Emit(Equal, ExtractName(other))
    }

    /** `self != other`: builds a record, it does not compare. */
    function Ne(other: Operand): (r: Json)
      ensures ParseFilter(r) == Some(Filter(name, NEqual, ExtractName(other)))
    {
      Emit(NEqual, ExtractName(other))
    }

    function Crosses(other: Operand): (r: Json)
      ensures ParseFilter(r) == Some(Filter(name, Operation.Crosses, ExtractName(other)))
    {
      Emit(Operation.Crosses, ExtractName(other))
    }

    function CrossesAbove(other: Operand): (r: Json)
      ensures ParseFilter(r) == Some(Filter(name, Operation.CrossesAbove, ExtractName(other)))
    {
      Emit(Operation.CrossesAbove, ExtractName(other))
    }

    function CrossesBelow(other: Operand): (r: Json)
      ensures ParseFilter(r) == Some(Filter(name, Operation.CrossesBelow, ExtractName(other)))
    {
      Emit(Operation.CrossesBelow, ExtractName(other))
    }

    /** Bounds are kept in the order the caller gave them; nothing is sorted. */
    function Between(lo: Operand, hi: Operand): (r: Json)
      ensures ParseFilter(r) == Some(Filter(name, InRange, JList([ExtractName(lo), ExtractName(hi)])))
    {
      Emit(InRange, JList([ExtractName(lo), ExtractName(hi)]))
    }

    function NotBetween(lo: Operand, hi: Operand): (r: Json)
      ensures ParseFilter(r) == Some(Filter(name, NotInRange, JList([ExtractName(lo), ExtractName(hi)])))
    {
      Emit(NotInRange, JList([ExtractName(lo), ExtractName(hi)]))
    }

    /** The values go into the record as a list, in order and untouched. */
    function IsIn(values: seq<Json>): (r: Json)
      ensures ParseFilter(r) == Some(Filter(name, InRange, JList(values)))
    {
      Emit(InRange, JList(values))
    }

    function NotIn(values: seq<Json>): (r: Json)
      ensures ParseFilter(r) == Some(Filter(name, NotInRange, JList(values)))
    {
      Emit(NotInRange, JList(values))
    }

    /** The field (a set) contains one of the values. */
    function Has(values: seq<Json>): (r: Json)
      ensures ParseFilter(r) == Some(Filter(name, Operation.Has, JList(values)))
    {
      Emit(Operation.Has, JList(values))
    }

    /** The field (a set) contains none of the values. */
    function HasNoneOf(values: seq<Json>): (r: Json)
      ensures ParseFilter(r) == Some(Filter(name, Operation.HasNoneOf, JList(values)))
    {
      Emit(Operation.HasNoneOf, JList(values))
    }

    /** One threshold only: `[column, pct]`. */
    function AbovePct(column: Operand, pct: real): (r: Json)
      ensures ParseFilter(r) == Some(Filter(name, Operation.AbovePct, JList([ExtractName(column), JNum(pct)])))
    {
      Emit(Operation.AbovePct, JList([ExtractName(column), JNum(pct)]))
    }

    function BelowPct(column: Operand, pct: real): (r: Json)
      ensures ParseFilter(r) == Some(Filter(name, Operation.BelowPct, JList([ExtractName(column), JNum(pct)])))
    {
      Emit(Operation.BelowPct, JList([ExtractName(column), JNum(pct)]))
    }

    /** `[column, pct1, pct2]` in the caller's order; an omitted `pct2` is sent as null. */
    function BetweenPct(column: Operand, pct1: real, pct2: Option<real> := None): (r: Json)
      ensures ParseFilter(r) == Some(Filter(name, InRangePct, JList([ExtractName(column), JNum(pct1), NumOrNull(pct2)])))
    {
      Emit(InRangePct, JList([ExtractName(column), JNum(pct1), NumOrNull(pct2)]))
    }

    function NotBetweenPct(column: Operand, pct1: real, pct2: Option<real> := None): (r: Json)
      ensures ParseFilter(r) == Some(Filter(name, NotInRangePct, JList([ExtractName(column), JNum(pct1), NumOrNull(pct2)])))
    {
      Emit(NotInRangePct, JList([ExtractName(column), JNum(pct1), NumOrNull(pct2)]))
    }

    /** Case-insensitive substring match, evaluated by the server. */
    function Like(other: Operand): (r: Json)
      ensures ParseFilter(r) == Some(Filter(name, Match, ExtractName(other)))
    {
      Emit(Match, ExtractName(other))
    }
  }

  /** Python's `Optional[float]` as it lands in JSON: a number, or null when omitted. */
  function NumOrNull(x: Option<real>): (j: Json)
    ensures j == JNull <==> x.None?
    ensures x.Some? ==> j == JNum(x.value)
  {
    match x
    case Some(v) => JNum(v)
    case None => JNull
  }

  /** `between` is `isin` on the two extracted bounds, and `not_between` is `not_in` on them. */
  lemma BetweenIsPairMembership(c: Column, lo: Operand, hi: Operand)
    ensures c.Between(lo, hi) == c.IsIn([Column.ExtractName(lo), Column.ExtractName(hi)])
    ensures c.NotBetween(lo, hi) == c.NotIn([Column.ExtractName(lo), Column.ExtractName(hi)])
  {
  }

  /** `between_pct(column, pct)` and `not_between_pct(column, pct)` send the omitted second threshold as null. */
  lemma OmittedSecondThreshold(c: Column, col: Operand, p: real)
    ensures ParseFilter(c.BetweenPct(col, p)) == Some(Filter(c.name, InRangePct, JList([Column.ExtractName(col), JNum(p), JNull])))
    ensures ParseFilter(c.NotBetweenPct(col, p)) == Some(Filter(c.name, NotInRangePct, JList([Column.ExtractName(col), JNum(p), JNull])))
  {
  }

  /** Swapping the bounds of `between_pct` changes the record whenever the bounds differ. */
  lemma BetweenPctKeepsCallerOrder(c: Column, col: Operand, p1: real, p2: real)
    requires p1 != p2
    ensures c.BetweenPct(col, p1, Some(p2)) != c.BetweenPct(col, p2, Some(p1))
  {
    var r1 := c.BetweenPct(col, p1, Some(p2));
    var r2 := c.BetweenPct(col, p2, Some(p1));
    assert ParseFilter(r1).value.right.items[1] == JNum(p1);
    assert ParseFilter(r2).value.right.items[1] == JNum(p2);
  }
}
