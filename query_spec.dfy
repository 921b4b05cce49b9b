/**
  What each `Query` builder method does to the builder's state, as functions
  from the state before to the state after: the request dictionary `query` and
  the endpoint `url`. The class in `Queries` is proved to follow these, and the
  lemmas below state the builder's rules in terms of them.
 */
module QuerySpec {
  import opened Wrappers
  import opened JsonValues
  import opened Columns
  import Combinators

  /**
    `URL.format(market=m)`, the template read off the builder's default
    endpoint; the market can be read back from its place in the endpoint.
   */
  function Url(market: string): (u: string)
    ensures |u| == |market| + 37
    ensures u[32..32 + |market|] == market
  {
    "https://scanner.tradingview.com/" + market + "/scan"
  }

  /** Different markets are served by different endpoints. */
  lemma {:induction false} UrlInjective(a: string, b: string)
    ensures Url(a) == Url(b) ==> a == b
  {
    if Url(a) == Url(b) {
      assert |a| == |b|;
      assert Url(a)[32..32 + |a|] == a;
    }
  }

  /** The builder's state: the request body being accumulated and the endpoint. */
  datatype State = State(query: map<string, Json>, url: string)

  /** The Python exception a builder method raises part-way. */
  datatype Raised = TypeError | KeyError | IndexError

  /** The state a method leaves behind, and the exception it raised, if any. */
  datatype Step = Step(after: State, raised: Option<Raised>)

  /** `DEFAULT_RANGE`: offset 0, limit 50. */
  function DefaultRange(): (r: Json)
    ensures r.JList? && |r.items| == 2
    ensures r.items[0] == Int(0) && r.items[1] == Int(50)
  {
    JList([Int(0), Int(50)])
  }

  /** The request dictionary of a fresh builder: six keys, with the default range. */
  function DefaultQuery(): (q: map<string, Json>)
    ensures q.Keys == {"markets", "symbols", "options", "columns", "sort", "range"}
    ensures q["range"] == DefaultRange()
  {
    map[
      "markets" := JList([JStr("america")]),
      "symbols" := JObject(map["query" := JObject(map["types" := JList([])]), "tickers" := JList([])]),
      "options" := JObject(map["lang" := JStr("en")]),
      "columns" := JList(Strings(["name", "close", "volume", "market_cap_basic"])),
      "sort" := JObject(map["sortBy" := JStr("Value.Traded"), "sortOrder" := JStr("desc")]),
      "range" := DefaultRange()
    ]
  }

  /** `Query()`: the default dictionary, on the endpoint of its one market. */
  function Init(): (s: State)
    ensures s.query == DefaultQuery()
    ensures Routed(s)
  {
    State(DefaultQuery(), Url("america"))
  }

  /**
    The endpoint agrees with the market selection: either the shared global
    endpoint, or the endpoint of the single market the request names.
   */
  ghost predicate Routed(s: State)
  {
    || s.url == Url("global")
    || exists m :: s.url == Url(m) && "markets" in s.query && s.query["markets"] == JList([JStr(m)])
  }

  /** The query differs from `before` at most at `key`, which it holds, and the endpoint is the same. */
  ghost predicate OnlyKeyChanged(before: State, after: State, key: string)
  {
    && after.url == before.url
    && after.query.Keys == before.query.Keys + {key}
    && forall k :: k in before.query && k != key ==> after.query[k] == before.query[k]
  }

  /** The keys of `symbols` before a scope change; a missing entry counts as empty. */
  function SymbolsFields(q: map<string, Json>): map<string, Json>
  {
    if "symbols" in q && q["symbols"].JObject? then q["symbols"].fields else map[]
  }

  /** `query.setdefault('symbols', {})[key] = value` fails on a `symbols` that is not a dictionary. */
  predicate SymbolsBlocked(q: map<string, Json>)
  {
    "symbols" in q && !q["symbols"].JObject?
  }

  /** `set_markets(*markets)` */
  function SetMarkets(s: State, markets: seq<string>): State
  {
    if |markets| == 1 then State(s.query["markets" := JList([JStr(markets[0])])], Url(markets[0]))
    else State(s.query["markets" := JList(Strings(markets))], Url("global"))
  }

  /** `set_tickers(*tickers)`: drops `markets` before it can fail on `symbols`. */
  function SetTickers(s: State, tickers: seq<string>): Step
  {
    var q := s.query - {"markets"};
    if SymbolsBlocked(q) then Step(State(q, s.url), Some(TypeError))
    else Step(State(q["symbols" := JObject(SymbolsFields(q)["tickers" := JList(Strings(tickers))])], Url("global")), None)
  }

  /** `set_property(key, value)` */
  function SetProperty(s: State, key: string, value: Json): State
  {
    State(s.query[key := value], s.url)
  }

  /** `set_index(*indexes)`: drops `markets` and defaults `preset` before it can fail on `symbols`. */
  function SetIndex(s: State, indexes: seq<string>): Step
  {
    var q0 := s.query - {"markets"};
    var q := if "preset" in q0 then q0 else q0["preset" := JStr("index_components_market_pages")];
    if SymbolsBlocked(q) then Step(State(q, s.url), Some(TypeError))
    else Step(State(q["symbols" := JObject(SymbolsFields(q)["symbolset" := JList(Strings(indexes))])], Url("global")), None)
  }

  /** The names of the selected columns, in order. */
  function ColumnNames(columns: seq<Operand>): (names: seq<Json>)
  {
    seq(|columns|, i requires 0 <= i < |columns| => Column.ExtractName(columns[i]))
  }

  /** `select(*columns)` */
  function Select(s: State, columns: seq<Operand>): State
  {
    State(s.query["columns" := JList(ColumnNames(columns))], s.url)
  }

  /** `where(*expressions)` */
  function Where(s: State, expressions: seq<Json>): State
  {
    State(s.query["filter" := JList(expressions)], s.url)
  }

  /** `where2(operation)`: `operation['operation']` must be there to be read. */
  function Where2(s: State, operation: Json): Step
  {
    if !operation.JObject? then Step(s, Some(TypeError))
    else if "operation" !in operation.fields then Step(s, Some(KeyError))
    else Step(State(s.query["filter2" := operation.fields["operation"]], s.url), None)
  }

  /** The `sort` entry `order_by` writes. */
  function SortJson(column: Operand, ascending: bool, nullsFirst: bool): Json
  {
    JObject(map[
      "sortBy" := Column.ExtractName(column),
      "sortOrder" := JStr(if ascending then "asc" else "desc"),
      "nullsFirst" := JBool(nullsFirst)])
  }

  /** `order_by(column, ascending=True, nulls_first=False)` */
  function OrderBy(s: State, column: Operand, ascending: bool := true, nullsFirst: bool := false): State
  {
    State(s.query["sort" := SortJson(column, ascending, nullsFirst)], s.url)
  }

  /** The key a dictionary-valued `range` receives for a slot (see README). */
  function SlotKey(slot: nat): string
  {
    if slot == 0 then "0" else "1"
  }

  /** `query.setdefault('range', DEFAULT_RANGE.copy())[slot] = value` */
  function SetRangeSlot(s: State, slot: nat, value: int): Step
    requires slot < 2
  {
    if "range" !in s.query then
      Step(State(s.query["range" := JList(DefaultRange().items[slot := Int(value)])], s.url), None)
    else match s.query["range"]
      case JList(items) =>
        if slot < |items| then Step(State(s.query["range" := JList(items[slot := Int(value)])], s.url), None)
        else Step(s, Some(IndexError))
      case JObject(fields) =>
        Step(State(s.query["range" := JObject(fields[SlotKey(slot) := Int(value)])], s.url), None)
      case _ => Step(s, Some(TypeError))
  }

  /** `offset(n)` */
  function Offset(s: State, n: int): Step
  {
    SetRangeSlot(s, 0, n)
  }

  /** `limit(n)` */
  function Limit(s: State, n: int): Step
  {
    SetRangeSlot(s, 1, n)
  }

  /** `copy()`: a fresh builder whose dictionary is a top-level copy of this one. */
  function Copy(s: State): State
  {
    State(s.query, Url("america"))
  }

  /** The range a request carries: the stored list, or `[0, 50]` when none is stored. */
  function EffectiveRange(s: State): (r: Option<seq<Json>>)
    ensures "range" !in s.query ==> r == Some([Int(0), Int(50)])
    ensures r.Some? <==> "range" !in s.query || s.query["range"].JList?
  {
    if "range" !in s.query then Some(DefaultRange().items)
    else if s.query["range"].JList? then Some(s.query["range"].items)
    else None
  }

  // ---------------------------------------------------------------------------
  // The builder's rules

  /** A fresh builder's defaults. */
  lemma InitDefaults()
    ensures Init().url == Url("america") && Routed(Init())
    ensures Init().query.Keys == {"markets", "symbols", "options", "columns", "sort", "range"}
    ensures Init().query["markets"] == JList([JStr("america")])
    ensures Init().query["columns"] == JList([JStr("name"), JStr("close"), JStr("volume"), JStr("market_cap_basic")])
    ensures Init().query["sort"].fields["sortBy"] == JStr("Value.Traded")
    ensures Init().query["sort"].fields["sortOrder"] == JStr("desc")
    ensures EffectiveRange(Init()) == Some([Int(0), Int(50)])
  {
    assert Strings(["name", "close", "volume", "market_cap_basic"]) == [JStr("name"), JStr("close"), JStr("volume"), JStr("market_cap_basic")];
  }

  /** One market routes to its own endpoint; none or several route to the global one. */
  lemma SetMarketsRoutes(s: State, markets: seq<string>)
    ensures SetMarkets(s, markets).query == s.query["markets" := JList(Strings(markets))]
    ensures |markets| == 1 ==> SetMarkets(s, markets).url == Url(markets[0])
    ensures |markets| != 1 ==> SetMarkets(s, markets).url == Url("global")
    ensures Routed(SetMarkets(s, markets))
  {
    if |markets| == 1 {
      assert Strings(markets) == [JStr(markets[0])];
    }
  }

  /**
    Choosing tickers clears the market selection, keeps the other `symbols`
    entries, and routes globally; it fails only on a non-dictionary `symbols`,
    and then the market selection is gone already.
   */
  lemma SetTickersScope(s: State, tickers: seq<string>)
    ensures var t := SetTickers(s, tickers);
      && "markets" !in t.after.query
      && (t.raised.Some? <==> SymbolsBlocked(s.query))
      && (t.raised.None? ==>
            && t.after.url == Url("global")
            && Routed(t.after)
            && t.after.query["symbols"] == JObject(SymbolsFields(s.query)["tickers" := JList(Strings(tickers))])
            && t.after.query.Keys == s.query.Keys - {"markets"} + {"symbols"})
      && (t.raised.Some? ==> t.after == State(s.query - {"markets"}, s.url))
      && forall k :: k in s.query && k != "markets" && k != "symbols" ==> t.after.query[k] == s.query[k]
  {
  }

  /**
    Choosing an index clears the market selection, sets the index-components
    preset only when no preset is there, records the indexes and routes globally.
   */
  lemma SetIndexScope(s: State, indexes: seq<string>)
    ensures var t := SetIndex(s, indexes);
      && "markets" !in t.after.query
      && t.after.query["preset"] == (if "preset" in s.query then s.query["preset"] else JStr("index_components_market_pages"))
      && (t.raised.Some? <==> SymbolsBlocked(s.query))
      && (t.raised.None? ==>
            && t.after.url == Url("global")
            && Routed(t.after)
            && t.after.query["symbols"] == JObject(SymbolsFields(s.query)["symbolset" := JList(Strings(indexes))])
            && t.after.query.Keys == s.query.Keys - {"markets"} + {"preset", "symbols"})
      && (t.raised.Some? ==>
            && t.after.url == s.url
            && t.after.query.Keys == s.query.Keys - {"markets"} + {"preset"}
            && t.after.query["symbols"] == s.query["symbols"])
      && forall k :: k in s.query && k !in {"markets", "symbols", "preset"} ==> t.after.query[k] == s.query[k]
  {
    var q0 := s.query - {"markets"};
    assert SymbolsFields(q0) == SymbolsFields(s.query);
    var q := if "preset" in q0 then q0 else q0["preset" := JStr("index_components_market_pages")];
    assert SymbolsFields(q) == SymbolsFields(s.query);
    assert SymbolsBlocked(q) == SymbolsBlocked(s.query);
  }

  /** `set_property(key, value)` writes `key` and nothing else. */
  lemma SetPropertyWritesOneKey(s: State, key: string, value: Json)
    ensures OnlyKeyChanged(s, SetProperty(s, key, value), key)
    ensures SetProperty(s, key, value).query[key] == value
  {
  }

  /** `select`, `where` and `order_by` each write their own key and nothing else. */
  lemma SelectWhereSortWriteOneKey(s: State, columns: seq<Operand>, expressions: seq<Json>,
                                   column: Operand, ascending: bool, nullsFirst: bool)
    ensures OnlyKeyChanged(s, Select(s, columns), "columns")
    ensures OnlyKeyChanged(s, Where(s, expressions), "filter")
    ensures OnlyKeyChanged(s, OrderBy(s, column, ascending, nullsFirst), "sort")
  {
  }

  /**
    `where2` writes `filter2` and nothing else, or changes nothing when it
    raises; so `where` and `where2` never disturb each other's slot.
   */
  lemma Where2WritesOneKey(s: State, operation: Json)
    ensures Where2(s, operation).raised.None? ==> OnlyKeyChanged(s, Where2(s, operation).after, "filter2")
    ensures Where2(s, operation).raised.Some? ==> Where2(s, operation).after == s
  {
  }

  /** `offset` and `limit` write `range` and nothing else, or change nothing when they raise. */
  lemma PaginationWritesOneKey(s: State, n: int)
    ensures Offset(s, n).raised.None? ==> OnlyKeyChanged(s, Offset(s, n).after, "range")
    ensures Limit(s, n).raised.None? ==> OnlyKeyChanged(s, Limit(s, n).after, "range")
    ensures Offset(s, n).raised.Some? ==> Offset(s, n).after == s
    ensures Limit(s, n).raised.Some? ==> Limit(s, n).after == s
  {
  }

  /** `where(es)` stores the expressions as given; `where2(op)` stores the inner node. */
  lemma FilterSlots(s: State, expressions: seq<Json>, operation: Json)
    ensures Where(s, expressions).query["filter"] == JList(expressions)
    ensures Where2(s, operation).raised.None? <==> operation.JObject? && "operation" in operation.fields
    ensures Where2(s, operation).raised == Some(KeyError) <==> operation.JObject? && "operation" !in operation.fields
    ensures Where2(s, operation).raised.None? ==> Where2(s, operation).after.query["filter2"] == operation.fields["operation"]
  {
  }

  /** `where2(And(...))` stores the `{operator, operands}` node itself. */
  lemma Where2StoresNode(s: State, op: Combinators.Operator, operands: seq<Json>)
    ensures Where2(s, Combinators.NodeJson(op, operands)).raised.None?
    ensures Where2(s, Combinators.NodeJson(op, operands)).after.query["filter2"]
            == JObject(map["operator" := JStr(Combinators.OperatorName(op)), "operands" := JList(operands)])
  {
  }

  /** `select` keeps the columns' names one for one and in order; `order_by` writes the sort record. */
  lemma SelectAndSort(s: State, columns: seq<Operand>, column: Operand, ascending: bool, nullsFirst: bool)
    ensures var c := Select(s, columns).query["columns"];
      && c.JList? && |c.items| == |columns|
      && forall i :: 0 <= i < |columns| ==> c.items[i] == Column.ExtractName(columns[i])
    ensures var o := OrderBy(s, column, ascending, nullsFirst).query["sort"];
      && o.JObject? && o.fields.Keys == {"sortBy", "sortOrder", "nullsFirst"}
      && o.fields["sortBy"] == Column.ExtractName(column)
      && o.fields["sortOrder"] == JStr(if ascending then "asc" else "desc")
      && o.fields["nullsFirst"] == JBool(nullsFirst)
  {
    var o := SortJson(column, ascending, nullsFirst);
    assert o.fields.Keys == {"sortBy", "sortOrder", "nullsFirst"};
  }

  /** `order_by(column)` sorts ascending with nulls last. */
  lemma OrderByDefaults(s: State, column: Operand)
    ensures var o := OrderBy(s, column).query["sort"];
      && o.JObject? && o.fields.Keys == {"sortBy", "sortOrder", "nullsFirst"}
      && o.fields["sortOrder"] == JStr("asc") && o.fields["nullsFirst"] == JBool(false)
  {
    SelectAndSort(s, [], column, true, false);
  }

  /**
    On a range that holds at least two entries (or none, which means `[0, 50]`),
    `offset` replaces only the first entry and `limit` only the second.
   */
  lemma OffsetLimitSlots(s: State, n: int)
    requires EffectiveRange(s).Some? && |EffectiveRange(s).value| >= 2
    ensures Offset(s, n).raised.None? && Limit(s, n).raised.None?
    ensures EffectiveRange(Offset(s, n).after) == Some(EffectiveRange(s).value[0 := Int(n)])
    ensures EffectiveRange(Limit(s, n).after) == Some(EffectiveRange(s).value[1 := Int(n)])
  {
  }

  /** Whatever the state, `offset` and `limit` touch different slots, so their order does not matter. */
  lemma OffsetLimitCommute(s: State, a: int, b: int)
    ensures Limit(Offset(s, a).after, b).after == Offset(Limit(s, b).after, a).after
  {
    if "range" !in s.query {
      var d := DefaultRange().items;
      assert d[0 := Int(a)][1 := Int(b)] == d[1 := Int(b)][0 := Int(a)];
    } else {
      match s.query["range"]
      case JList(items) =>
        if |items| >= 2 {
          assert items[0 := Int(a)][1 := Int(b)] == items[1 := Int(b)][0 := Int(a)];
        }
      case JObject(fields) =>
        assert fields[SlotKey(0) := Int(a)][SlotKey(1) := Int(b)] == fields[SlotKey(1) := Int(b)][SlotKey(0) := Int(a)];
      case _ =>
    }
  }

  /** `Query().offset(5).limit(15)` asks for `[5, 15]`; `Query().limit(15)` for `[0, 15]`. */
  lemma FreshPagination()
    ensures EffectiveRange(Limit(Offset(Init(), 5).after, 15).after) == Some([Int(5), Int(15)])
    ensures EffectiveRange(Limit(Init(), 15).after) == Some([Int(0), Int(15)])
  {
    var d := [Int(0), Int(50)];
    OffsetLimitSlots(Init(), 5);
    assert d[0 := Int(5)] == [Int(5), Int(50)];
    OffsetLimitSlots(Offset(Init(), 5).after, 15);
    assert [Int(5), Int(50)][1 := Int(15)] == [Int(5), Int(15)];
    OffsetLimitSlots(Init(), 15);
    assert d[1 := Int(15)] == [Int(0), Int(15)];
  }

  /** The steps that do not choose a scope keep the endpoint in agreement with the markets. */
  lemma RoutingKept(s: State, columns: seq<Operand>, expressions: seq<Json>, operation: Json,
                    column: Operand, ascending: bool, nullsFirst: bool, n: int)
    requires Routed(s)
    ensures Routed(Select(s, columns))
    ensures Routed(Where(s, expressions))
    ensures Routed(Where2(s, operation).after)
    ensures Routed(OrderBy(s, column, ascending, nullsFirst))
    ensures Routed(Offset(s, n).after) && Routed(Limit(s, n).after)
  {
    if s.url != Url("global") {
      var m :| s.url == Url(m) && "markets" in s.query && s.query["markets"] == JList([JStr(m)]);
      assert Select(s, columns).url == Url(m);
      assert Where(s, expressions).url == Url(m);
      assert Where2(s, operation).after.url == Url(m);
      assert OrderBy(s, column, ascending, nullsFirst).url == Url(m);
      assert Offset(s, n).after.url == Url(m);
      assert Limit(s, n).after.url == Url(m);
    }
  }

  /**
    `copy()` keeps the request dictionary but not the endpoint: the copy equals
    the original exactly when the original was on the america endpoint.
   */
  lemma CopyResetsUrl(s: State)
    ensures Copy(s).query == s.query
    ensures Copy(s).url == Url("america")
    ensures Copy(s) == s <==> s.url == Url("america")
  {
  }

  /**
    After `set_markets('italy')` the copy is not equal to the original, and it
    would send the italy-only request to the america endpoint.
   */
  lemma CopyOfItalyQuery()
    ensures var q := SetMarkets(Init(), ["italy"]);
      Routed(q) && Copy(q) != q && !Routed(Copy(q))
  {
    var q := SetMarkets(Init(), ["italy"]);
    SetMarketsRoutes(Init(), ["italy"]);
    UrlInjective("america", "italy");
    UrlInjective("america", "global");
    forall m | Url("america") == Url(m)
      ensures m == "america"
    {
      UrlInjective("america", m);
    }
    assert Copy(q).query["markets"] == JList([JStr("italy")]);
  }
}
