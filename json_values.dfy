/**
 * The decoded JSON values the client inspects, with the two pieces of Python
 * semantics it relies on: truthiness and `dict.get` with a default.
 */
module JsonValues {

  /**
   * A decoded JSON document: `null` is `None`, numbers are reals, objects are
   * dictionaries from keys to values. Two distinctions Python keeps are not
   * represented: the insertion order of a dictionary's keys, and whether a
   * number was decoded as an `int` or a `float`.
   */
  datatype Json =
    | JNull
    | JBool(b: bool)
    | JNumber(n: real)
    | JString(s: string)
    | JArray(items: seq<Json>)
    | JObject(fields: map<string, Json>)

  /** The empty string value, the default of every `.get(key, "")`. */
  const EmptyString: Json := JString("")

  /** Python's truthiness of a decoded JSON value (`if value:`). */
  predicate Truthy(j: Json)
  {
    match j
    case JNull => false
    case JBool(b) => b
    case JNumber(n) => n != 0.0
    case JString(s) => |s| > 0
    case JArray(items) => |items| > 0
    case JObject(fields) => |fields| > 0
  }

  /** `d.get(key, default)` on a dictionary. */
  function Get(d: map<string, Json>, key: string, default: Json): (value: Json)
  {
    if key in d then d[key] else default
  }
}
