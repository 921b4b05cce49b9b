/**
  The JSON-like values that the builder puts into its request body: Python's
  dict, list, str, float/int, bool and None as they appear in the payload.
 */
module JsonValues {

  /** One JSON value; an object is a dictionary keyed by strings (key order is not modelled). */
  datatype Json =
    | JNull
    | JBool(b: bool)
    | JNum(n: real)
    | JStr(s: string)
    | JList(items: seq<Json>)
    | JObject(fields: map<string, Json>)

  /** `list(xs)` for a tuple of strings: one JSON string per element, in order. */
  function Strings(xs: seq<string>): (r: seq<Json>)
    ensures |r| == |xs|
    ensures forall i :: 0 <= i < |xs| ==> r[i] == JStr(xs[i])
  {
    seq(|xs|, i requires 0 <= i < |xs| => JStr(xs[i]))
  }

  /** A JSON number holding a Python `int`. */
  function Int(n: int): Json
  {
    JNum(n as real)
  }
}
