/**
 * Decoded JSON claim values and Python's `==` on them, where `bool` is a
 * subclass of `int` so that `True == 1` and `False == 0`.
 */
module Json {

  datatype Json =
    | JNull
    | JBool(b: bool)
    | JInt(i: int)
    | JStr(s: string)
    | JArray(items: seq<Json>)

  predicate Numeric(v: Json) {
    v.JBool? || v.JInt?
  }

  function NumValue(v: Json): int
    requires Numeric(v)
  {
    match v
    case JBool(b) => if b then 1 else 0
    case JInt(i) => i
  }

  /** Python's `==` on decoded JSON values. */
  function PyEq(a: Json, b: Json): bool
    decreases a
  {
    if Numeric(a) && Numeric(b) then NumValue(a) == NumValue(b)
    else match a
      case JNull => b.JNull?
      case JStr(x) => b.JStr? && b.s == x
      case JArray(xs) =>
        b.JArray? && |xs| == |b.items|
        && forall k :: 0 <= k < |xs| ==> PyEq(xs[k], b.items[k])
      case _ => false
  }
}
