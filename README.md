# TradingView screener query builder — a verified Dafny model

This project models the request-building core of the `tradingview_screener`
Python package, the client for TradingView's stock-screener scan API.

- **The predicate DSL** (`column.py`). A `Column` holds a field name. It is a
  datatype here: the constructor keeps the name exactly as given, with no alias
  lookup. Each comparison operator and each method returns a filter record
  `{left, operation, right}`. `left` is always the column's name. `right` is
  `_extract_name` of the operand: a `Column` stands for its name, any other
  value stands for itself. Between/range forms put their bounds in a list.
  `isin`, `not_in`, `has` and `has_none_of` put the values in a list as they
  are. Records are `Json` objects. `Columns.ParseFilter` reads a record back;
  it is proved to be the exact inverse of `Columns.FilterJson`.
- **The boolean combinators** (`And`, `Or` and `_impl_and_or_chaining` in
  `query.py`). The loop that builds the operand list is the method
  `Combinators.Chain`, proved against `Combinators.Operands`. A tagged tree
  `Combinators.Expr` (leaf = filter record, node = operator over children) is
  an independent reference. `LeafTestIsExact` proves that the `'left'`-key
  test always tells leaves from nested nodes. Building on it, `ChainCompiles`
  proves that `And`/`Or` over compiled children give the compiled tree, so
  nested nodes are never flattened.
- **The `Query` builder** (`query.py`). `Queries.Query` is a class with the two
  fields the source mutates in place: the request dictionary `query` and the
  endpoint `url`. Every builder method is proved to leave exactly the state
  given by the matching function of `QuerySpec`. Where Python would raise
  part-way through, the method also returns that exception. The builder's
  rules are lemmas about those functions:
  - endpoint routing by market count;
  - `markets` is dropped when tickers or an index are chosen;
  - `preset` and `symbols` are initialised with setdefault;
  - each of `filter`, `filter2`, `columns`, `sort` and `range` is written alone;
  - `offset` and `limit` commute;
  - `copy()` resets the endpoint.

`URL.format(market=m)` is `QuerySpec.Url(m)`. Its template is read off the
default endpoint literal at `query.py:291`. The `constants` module that
defines `URL`, `MARKETS` and `HEADERS` is not part of this model.

Behaviour of the code worth noting:

- `Column(name)` does not resolve aliases.
- `above_pct`/`below_pct` take a single threshold.
- `between_pct`/`not_between_pct` keep their thresholds in caller order and do
  not sort them (`BetweenPctKeepsCallerOrder`).
- `copy()` does not keep the original's endpoint (`CopyOfItalyQuery`). The
  copy of a `set_markets('italy')` builder therefore sends its italy-only
  request to the america endpoint.
- `offset`/`limit` accept any integer; nothing checks for a negative value.
- `order_by` defaults to ascending with nulls last, and `between_pct`/
  `not_between_pct` default `pct2` to `None`; the model keeps these defaults
  as Dafny default parameter values.

The operation literal list in the type declarations at `query.py:18-36` omits
`not_in_range%`, although `not_between_pct` emits it. `Columns.Operation`
includes it.

## Model

| member | source | states |
|---|---|---|
| Columns.Code | src/tradingview_screener/query.py:18-36 | each operation code reads back as the operation it spells |
| Columns.DecodeInverse | src/tradingview_screener/query.py:18-36 | a code that reads back as an operation is that operation's spelling |
| Columns.CodeInjective | src/tradingview_screener/query.py:18-36 | no two operations share a wire code |
| Columns.FilterJson | src/tradingview_screener/query.py:16-37 | a filter record is sent as a three-key dictionary that reads back as the same record |
| Columns.ParseFilter | src/tradingview_screener/query.py:16-37 | a dictionary reads as a filter record only if it is a dictionary with a `left` key (so every record passes the `'left' in expr` test) |
| Columns.ParseFilterInverse | src/tradingview_screener/query.py:16-37 | every dictionary that reads as a filter record is exactly the one written for it (both directions of the round trip) |
| Columns.Column.ExtractName | src/tradingview_screener/column.py:33-37 | a Column operand gives its name; any other operand is returned unchanged |
| Columns.Column.Gt | src/tradingview_screener/column.py:39-40 | `>` gives a record with left = the column's name, operation `greater`, right = the extracted operand |
| Columns.Column.Ge | src/tradingview_screener/column.py:42-43 | `>=` gives left = name, `egreater`, right = extracted operand |
| Columns.Column.Lt | src/tradingview_screener/column.py:45-46 | `<` gives left = name, `less`, right = extracted operand |
| Columns.Column.Le | src/tradingview_screener/column.py:48-49 | `<=` gives left = name, `eless`, right = extracted operand |
| Columns.Column.Eq | src/tradingview_screener/column.py:51-52 | `==` builds a record (left = name, `equal`, right = extracted operand) rather than comparing |
| Columns.Column.Ne | src/tradingview_screener/column.py:54-55 | `!=` builds a record (left = name, `nequal`, right = extracted operand) |
| Columns.Column.Crosses | src/tradingview_screener/column.py:57-58 | left = name, `crosses`, right = extracted operand |
| Columns.Column.CrossesAbove | src/tradingview_screener/column.py:60-61 | left = name, `crosses_above`, right = extracted operand |
| Columns.Column.CrossesBelow | src/tradingview_screener/column.py:63-64 | left = name, `crosses_below`, right = extracted operand |
| Columns.Column.Between | src/tradingview_screener/column.py:66-71 | `in_range` with right = [lower, upper] extracted, in caller order, not sorted |
| Columns.Column.NotBetween | src/tradingview_screener/column.py:73-78 | `not_in_range` with right = [lower, upper] extracted, in caller order |
| Columns.Column.IsIn | src/tradingview_screener/column.py:80-81 | `in_range` with right = the values as a list, same order, elements untouched |
| Columns.Column.NotIn | src/tradingview_screener/column.py:83-84 | `not_in_range` with right = the values as a list, same order, untouched |
| Columns.Column.Has | src/tradingview_screener/column.py:86-92 | `has` with right = the values as a list, same order, untouched |
| Columns.Column.HasNoneOf | src/tradingview_screener/column.py:94-100 | `has_none_of` with right = the values as a list, same order, untouched |
| Columns.Column.AbovePct | src/tradingview_screener/column.py:102-116 | `above%` with the two-element right = [extracted column, pct] |
| Columns.Column.BelowPct | src/tradingview_screener/column.py:118-129 | `below%` with the two-element right = [extracted column, pct] |
| Columns.Column.BetweenPct | src/tradingview_screener/column.py:131-144 | `in_range%` with right = [extracted column, pct1, pct2] in caller order; an omitted pct2 is null |
| Columns.Column.NotBetweenPct | src/tradingview_screener/column.py:146-159 | `not_in_range%` with right = [extracted column, pct1, pct2] in caller order; an omitted pct2 is null |
| Columns.Column.Like | src/tradingview_screener/column.py:161-162 | `match` with right = extracted operand |
| Columns.NumOrNull | src/tradingview_screener/column.py:131-159 | an omitted `pct2` (`None`) is sent as null, and only an omitted one; a given one is sent as its number |
| Columns.OmittedSecondThreshold | src/tradingview_screener/column.py:131-159 | `between_pct(c, p)` and `not_between_pct(c, p)` (default `pct2=None`) send `[extracted column, p, null]` |
| Columns.BetweenIsPairMembership | src/tradingview_screener/column.py:66-84 | `between(a, b)` equals `isin([a, b])` on the extracted bounds, and `not_between` equals `not_in` likewise |
| Columns.BetweenPctKeepsCallerOrder | src/tradingview_screener/column.py:131-144 | swapping two different thresholds gives a different record: nothing is sorted |
| Combinators.IsLeaf | src/tradingview_screener/query.py:90 | the `'left' in expr` test: every filter record passes it, and only dictionaries can |
| Combinators.Operands | src/tradingview_screener/query.py:88-93 | one operand per expression, in order; a record (has `left`) becomes `{expression: record}`, anything else is kept unchanged |
| Combinators.Chain | src/tradingview_screener/query.py:82-94 | the loop builds `{operation: {operator, operands}}` with exactly those two inner keys and the operand list above |
| Combinators.And | src/tradingview_screener/query.py:97-98 | `And` is the chain with operator `and` |
| Combinators.Or | src/tradingview_screener/query.py:101-102 | `Or` is the chain with operator `or` |
| Combinators.UnwrapWrap | src/tradingview_screener/query.py:88-93 | wrapping is undone by unwrapping for every operand that is not itself a bare envelope, and an operand is changed by wrapping exactly when it has a `left` key |
| Combinators.LeafTestIsExact | src/tradingview_screener/query.py:85-90 | on compiled trees, the `left`-key test holds exactly for leaves |
| Combinators.OperandsOfCompiled | src/tradingview_screener/query.py:88-94 | the operand list built from compiled children equals the tree's compiled operand list |
| Combinators.ChainCompiles | src/tradingview_screener/query.py:82-102 | And/Or over compiled children give the compiled node: the duck-typed combinator agrees with the tagged tree and keeps nesting |
| Combinators.NestedExample | src/tradingview_screener/query.py:97-102 | `And(p1, Or(p2, p3))` is `and` over [{expression: p1}, the `or` node over two envelopes] |
| QuerySpec.Url | src/tradingview_screener/query.py:411-417 | `URL.format(market=m)`: the market can be read back from a fixed place in the endpoint |
| QuerySpec.UrlInjective | src/tradingview_screener/query.py:291 | different markets have different endpoints |
| QuerySpec.DefaultRange | src/tradingview_screener/query.py:79 | `DEFAULT_RANGE` is the two-entry list [0, 50]: offset 0, limit 50 |
| QuerySpec.DefaultQuery | src/tradingview_screener/query.py:282-290 | the default dictionary has exactly the six keys markets, symbols, options, columns, sort and range, and range is `DEFAULT_RANGE` |
| QuerySpec.Init | src/tradingview_screener/query.py:280-291 | `Query()` holds the default dictionary and its endpoint agrees with its one market |
| QuerySpec.InitDefaults | src/tradingview_screener/query.py:280-291 | a fresh builder has the six default keys: markets [america], the four default columns, sort Value.Traded desc, range [0, 50]; it is on the america endpoint and routed |
| QuerySpec.SetMarketsRoutes | src/tradingview_screener/query.py:411-419 | markets becomes the argument list; one market routes to its own endpoint, zero or several to the global one; routing is consistent afterwards |
| QuerySpec.SetTickersScope | src/tradingview_screener/query.py:444-449 | markets is removed; fails exactly when `symbols` is not a dictionary; on success symbols.tickers is set, other symbols keys are kept, the endpoint is global and no other key changes; on failure only markets was removed |
| QuerySpec.SetIndexScope | src/tradingview_screener/query.py:497-502 | markets is removed; preset is set only if absent; fails exactly when `symbols` is not a dictionary; on success symbols.symbolset is set, the endpoint is global and the key set gains only preset and symbols; on failure symbols and the endpoint are untouched and the key set gains only preset; no other key changes |
| QuerySpec.SetPropertyWritesOneKey | src/tradingview_screener/query.py:451-453 | `set_property(k, v)` stores v at k and changes no other key nor the endpoint |
| QuerySpec.SelectWhereSortWriteOneKey | src/tradingview_screener/query.py:504-535 | `select`, `where`, `order_by` each write only `columns`, `filter`, `sort` respectively |
| QuerySpec.Where2WritesOneKey | src/tradingview_screener/query.py:514-516 | `where2` writes only `filter2`, or changes nothing when it raises |
| QuerySpec.PaginationWritesOneKey | src/tradingview_screener/query.py:537-543 | `offset`/`limit` write only `range`, or change nothing when they raise |
| QuerySpec.FilterSlots | src/tradingview_screener/query.py:510-516 | `where` stores the expressions as given; `where2` succeeds iff given a dictionary with an `operation` key (KeyError iff the key is missing) and stores its value |
| QuerySpec.Where2StoresNode | src/tradingview_screener/query.py:514-516 | `where2(And(...))` never raises and stores the inner `{operator, operands}` node |
| QuerySpec.SelectAndSort | src/tradingview_screener/query.py:504-535 | `select` stores the columns' names one for one in order; `order_by` stores exactly sortBy, sortOrder (asc/desc) and nullsFirst |
| QuerySpec.EffectiveRange | src/tradingview_screener/query.py:562 | the range a request carries: [0, 50] when none is stored (the `setdefault` before sending); defined exactly when the stored range is absent or a list |
| QuerySpec.OrderByDefaults | src/tradingview_screener/query.py:518-535 | `order_by(column)` stores a three-key sort record with sortOrder `asc` and nullsFirst false |
| QuerySpec.OffsetLimitSlots | src/tradingview_screener/query.py:537-543 | on an absent or at-least-two-entry range, `offset` replaces only entry 0 and `limit` only entry 1, and neither raises |
| QuerySpec.OffsetLimitCommute | src/tradingview_screener/query.py:537-543 | for every state, offset-then-limit and limit-then-offset leave the same state |
| QuerySpec.FreshPagination | src/tradingview_screener/query.py:537-543 | `Query().offset(5).limit(15)` sends range [5, 15]; `Query().limit(15)` sends [0, 15] |
| QuerySpec.RoutingKept | src/tradingview_screener/query.py:504-543 | select, where, where2, order_by, offset and limit keep the endpoint consistent with the markets |
| QuerySpec.CopyResetsUrl | src/tradingview_screener/query.py:583-592 | the copy has the same dictionary and the america endpoint; it equals the original exactly when the original is on that endpoint |
| QuerySpec.CopyOfItalyQuery | src/tradingview_screener/query.py:583-592 | after `set_markets('italy')` the copy differs from the original and its endpoint no longer matches its markets |
| Queries.Query.constructor | src/tradingview_screener/query.py:280-291 | a new builder holds the default dictionary and the america endpoint |
| Queries.Query.SetDefault | src/tradingview_screener/query.py:538-542 | `dict.setdefault`: returns the stored value and changes nothing, or stores and returns the default |
| Queries.Query.SetMarkets | src/tradingview_screener/query.py:411-419 | the in-place update leaves the state `QuerySpec.SetMarkets` describes |
| Queries.Query.SetTickers | src/tradingview_screener/query.py:444-449 | pops markets, then setdefaults symbols and assigns tickers, giving `QuerySpec.SetTickers`'s state and exception |
| Queries.Query.SetProperty | src/tradingview_screener/query.py:451-453 | leaves the state `QuerySpec.SetProperty` describes |
| Queries.Query.SetIndex | src/tradingview_screener/query.py:497-502 | pops markets, setdefaults preset and symbols, assigns symbolset, giving `QuerySpec.SetIndex`'s state and exception |
| Queries.Query.Select | src/tradingview_screener/query.py:504-508 | leaves the state `QuerySpec.Select` describes |
| Queries.Query.Where | src/tradingview_screener/query.py:510-512 | leaves the state `QuerySpec.Where` describes |
| Queries.Query.Where2 | src/tradingview_screener/query.py:514-516 | leaves `QuerySpec.Where2`'s state and reports its TypeError/KeyError |
| Queries.Query.OrderBy | src/tradingview_screener/query.py:518-535 | leaves the state `QuerySpec.OrderBy` describes, with the same defaults (ascending, nulls last) |
| Queries.Query.SetRangeSlot | src/tradingview_screener/query.py:537-543 | setdefaults range to [0, 50] and assigns one slot, giving `QuerySpec.SetRangeSlot`'s state and exception |
| Queries.Query.Offset | src/tradingview_screener/query.py:537-539 | leaves `QuerySpec.Offset`'s state and exception |
| Queries.Query.Limit | src/tradingview_screener/query.py:541-543 | leaves `QuerySpec.Limit`'s state and exception |
| Queries.Query.Copy | src/tradingview_screener/query.py:583-586 | returns a fresh builder in the state `QuerySpec.Copy` describes (same dictionary, default endpoint) |
| Queries.Query.Equals | src/tradingview_screener/query.py:591-592 | `__eq__` holds exactly for another builder with the same dictionary and endpoint |
| Queries.PaginationExample | src/tradingview_screener/query.py:537-543 | a fresh builder after `offset(5)` and `limit(15)` holds range [5, 15] |
| Queries.LimitOnlyExample | src/tradingview_screener/query.py:541-543 | a fresh builder after `limit(15)` holds range [0, 15] |
| Queries.TickersAfterMarketsExample | src/tradingview_screener/query.py:411-449 | `set_tickers` after `set_markets` leaves no markets key and the global endpoint |
| Queries.CopyExample | src/tradingview_screener/query.py:583-592 | the copy of an italy-only builder is not `==` to it |
| Queries.TreeFilterExample | src/tradingview_screener/query.py:514-516 | `where2(And(a, b))` stores `{operator: and, operands: [{expression: a}, {expression: b}]}` |

## Left out

- `Query.get_scanner_data` (`query.py:545-581`) is not modelled. It does an HTTP POST, rewrites the error reason and builds a pandas DataFrame. The model keeps only the range the request would carry (`QuerySpec.EffectiveRange`, which follows the `setdefault('range', [0, 50])` it performs).
- `__repr__` of `Column` and `Query` is not modelled; it is only formatting.
- The `constants` module is not part of this model. `Url` assumes `URL` is the template of the default endpoint literal at `query.py:291` (`https://scanner.tradingview.com/{market}/scan`); `UrlInjective`, `CopyOfItalyQuery` and `CopyExample` rest on that assumed template. `MARKETS` and `HEADERS` are not used.
- Fluent chaining is not modelled: builder methods return nothing, or the exception Python would raise, instead of `self`. Calls are sequenced instead.
- Exceptions are returned, not thrown. The model shows the state Python leaves behind when it raises, and a caller may carry on from there.
- A `range` holding a dictionary: Python assigns the integer key 0 or 1. The model stores the string key `"0"` or `"1"`, which is how the JSON encoder writes it.
- `copy()` aliasing is not modelled. In Python the copy shares nested lists and dictionaries with the original, so `copy().offset(n)` also changes the original's `range`. The model copies by value.
- Dictionary key order is not modelled. Numbers are one `JNum(real)`, so `1 == 1.0` as in Python, but Python's `True == 1` is not.
- `And`/`Or` operands outside their declared types are not modelled. Python's `'left' in expr` on a list or string tests membership or substring; the model treats every non-dictionary operand as a nested node.
- `isin`/`not_in`/`has`/`has_none_of` values that are `Column` objects are not modelled: values are JSON values here. The source stores such objects unconverted.
- `pct` thresholds are JSON numbers, stored and never computed with; floating point is not modelled.
