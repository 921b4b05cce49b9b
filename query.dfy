/**
  The `Query` builder of `query.py`: one request dictionary and one endpoint,
  both edited in place by every builder method. Each method is proved to leave
  exactly the state the matching function of `QuerySpec` describes, and to
  report the exception Python would raise part-way, if any.
 */
module Queries {
  import opened Wrappers
  import opened JsonValues
  import opened Columns
  import Combinators
  import S = QuerySpec

  class Query {
    var query: map<string, Json>
    var url: string

    /** The builder's state as a value. */
    function State(): S.State
      reads this
    {
      S.State(query, url)
    }

    /** `Query()`: the defaults, on the america endpoint. */
    constructor ()
      ensures State() == S.Init()
    {
      query := S.DefaultQuery();
      url := S.Url("america");
    }

    /** `dict.setdefault(key, default)` on the request dictionary. */
    method SetDefault(key: string, default: Json) returns (value: Json)
      modifies this
      ensures key in old(query) ==> value == old(query)[key] && query == old(query)
      ensures key !in old(query) ==> value == default && query == old(query)[key := default]
      ensures url == old(url)
    {
      if key !in query {
        query := query[key := default];
      }
      value := query[key];
    }

    method SetMarkets(markets: seq<string>)
      modifies this
      ensures State() == S.SetMarkets(old(State()), markets)
    {
      if |markets| == 1 {
        var market := markets[0];
        url := S.Url(market);
        query := query["markets" := JList([JStr(market)])];
      } else {
        url := S.Url("global");
        query := query["markets" := JList(Strings(markets))];
      }
    }

    method SetTickers(tickers: seq<string>) returns (raised: Option<S.Raised>)
      modifies this
      ensures State() == S.SetTickers(old(State()), tickers).after
      ensures raised == S.SetTickers(old(State()), tickers).raised
    {
      query := query - {"markets"};
      var symbols := SetDefault("symbols", JObject(map[]));
      if !symbols.JObject? {
        return Some(S.TypeError);
      }
      query := query["symbols" := JObject(symbols.fields["tickers" := JList(Strings(tickers))])];
      url := S.Url("global");
      raised := None;
    }

    method SetProperty(key: string, value: Json)
      modifies this
      ensures State() == S.SetProperty(old(State()), key, value)
    {
      query := query[key := value];
    }

    method SetIndex(indexes: seq<string>) returns (raised: Option<S.Raised>)
      modifies this
      ensures State() == S.SetIndex(old(State()), indexes).after
      ensures raised == S.SetIndex(old(State()), indexes).raised
    {
      query := query - {"markets"};
      var _ := SetDefault("preset", JStr("index_components_market_pages"));
      var symbols := SetDefault("symbols", JObject(map[]));
      if !symbols.JObject? {
        return Some(S.TypeError);
      }
      query := query["symbols" := JObject(symbols.fields["symbolset" := JList(Strings(indexes))])];
      url := S.Url("global");
      raised := None;
    }

    method Select(columns: seq<Operand>)
      modifies this
      ensures State() == S.Select(old(State()), columns)
    {
      query := query["columns" := JList(seq(|columns|, i requires 0 <= i < |columns| => Column.ExtractName(columns[i])))];
    }

    method Where(expressions: seq<Json>)
      modifies this
      ensures State() == S.Where(old(State()), expressions)
    {
      query := query["filter" := JList(expressions)];
    }

    method Where2(operation: Json) returns (raised: Option<S.Raised>)
      modifies this
      ensures State() == S.Where2(old(State()), operation).after
      ensures raised == S.Where2(old(State()), operation).raised
    {
      match operation
      case JObject(fields) =>
        if "operation" in fields {
          query := query["filter2" := fields["operation"]];
          raised := None;
        } else {
          raised := Some(S.KeyError);
        }
      case _ =>
        raised := Some(S.TypeError);
    }

    method OrderBy(column: Operand, ascending: bool := true, nullsFirst: bool := false)
      modifies this
      ensures State() == S.OrderBy(old(State()), column, ascending, nullsFirst)
    {
      var sort := map[
        "sortBy" := Column.ExtractName(column),
        "sortOrder" := JStr(if ascending then "asc" else "desc"),
        "nullsFirst" := JBool(nullsFirst)];
      query := query["sort" := JObject(sort)];
    }

    /** `self.query.setdefault('range', DEFAULT_RANGE.copy())[slot] = value` */
    method SetRangeSlot(slot: nat, value: int) returns (raised: Option<S.Raised>)
      requires slot < 2
      modifies this
      ensures State() == S.SetRangeSlot(old(State()), slot, value).after
      ensures raised == S.SetRangeSlot(old(State()), slot, value).raised
    {
      var range := SetDefault("range", S.DefaultRange());
      match range
      case JList(items) =>
        if slot < |items| {
          query := query["range" := JList(items[slot := Int(value)])];
          raised := None;
        } else {
          raised := Some(S.IndexError);
        }
      case JObject(fields) =>
        query := query["range" := JObject(fields[S.SlotKey(slot) := Int(value)])];
        raised := None;
      case _ =>
        raised := Some(S.TypeError);
    }

    method Offset(offset: int) returns (raised: Option<S.Raised>)
      modifies this
      ensures State() == S.Offset(old(State()), offset).after
      ensures raised == S.Offset(old(State()), offset).raised
    {
      raised := SetRangeSlot(0, offset);
    }

    method Limit(limit: int) returns (raised: Option<S.Raised>)
      modifies this
      ensures State() == S.Limit(old(State()), limit).after
      ensures raised == S.Limit(old(State()), limit).raised
    {
      raised := SetRangeSlot(1, limit);
    }

    /** A new builder holding this builder's dictionary; its endpoint is the default one. */
    method Copy() returns (copy: Query)
      ensures fresh(copy)
      ensures copy.State() == S.Copy(State())
    {
      copy := new Query();
      copy.query := query;
    }

    /** `__eq__`: another builder with the same dictionary and the same endpoint. */
    predicate Equals(other: object?)
      reads this, other
      ensures Equals(other) <==> other is Query && (other as Query).State() == State()
    {
      other is Query && (other as Query).query == query && (other as Query).url == url
    }
  }

  /** `Query().offset(5).limit(15)` requests rows 5 to 15. */
  method PaginationExample() returns (range: Json)
    ensures range == JList([Int(5), Int(15)])
  {
    var q := new Query();
    var e1 := q.Offset(5);
    var e2 := q.Limit(15);
    S.FreshPagination();
    range := q.query["range"];
  }

  /** `Query().limit(15)` keeps the default offset. */
  method LimitOnlyExample() returns (range: Json)
    ensures range == JList([Int(0), Int(15)])
  {
    var q := new Query();
    var e := q.Limit(15);
    S.FreshPagination();
    range := q.query["range"];
  }

  /** `set_tickers` after `set_markets` drops the markets and routes globally. */
  method TickersAfterMarketsExample() returns (hasMarkets: bool, endpoint: string)
    ensures !hasMarkets && endpoint == S.Url("global")
  {
    var q := new Query();
    q.SetMarkets(["italy", "america"]);
    var e := q.SetTickers(["NASDAQ:TSLA"]);
    hasMarkets := "markets" in q.query;
    endpoint := q.url;
  }

  /** A copy of an italy-only builder is not equal to it. */
  method CopyExample() returns (same: bool)
    ensures !same
  {
    var q := new Query();
    q.SetMarkets(["italy"]);
    var c := q.Copy();
    S.CopyOfItalyQuery();
    same := c.Equals(q);
  }

  /** A builder whose `where2` is given `And(...)` of filter records stores the combined node. */
  method TreeFilterExample(a: Filter, b: Filter) returns (filter2: Json)
    ensures filter2 == JObject(map["operator" := JStr("and"),
                                   "operands" := JList([Combinators.Envelope(FilterJson(a)), Combinators.Envelope(FilterJson(b))])])
  {
    var q := new Query();
    var node := Combinators.And([FilterJson(a), FilterJson(b)]);
    assert Combinators.Operands([FilterJson(a), FilterJson(b)])
        == [Combinators.Envelope(FilterJson(a)), Combinators.Envelope(FilterJson(b))];
    var e := q.Where2(node);
    filter2 := q.query["filter2"];
  }
}
