/** The documents that durable state is written to and read from. */
module Json {
  import opened Wrappers

  /** `JNum` is a finite float; `JNonFinite` stands for NaN and the infinities. */
  datatype Json =
    | JNull
    | JBool(flag: bool)
    | JInt(integer: int)
    | JNum(num: real)
    | JNonFinite
    | JStr(str: string)
    | JList(items: seq<Json>)
    | JObj(fields: map<string, Json>)

  type Object = map<string, Json>

  /** `dict.get(key, default)`. */
  function Get(o: Object, key: string, default: Json): Json {
    if key in o then o[key] else default
  }

  /** `dict.get(key)`. */
  function Lookup(o: Object, key: string): Json {
    Get(o, key, JNull)
  }

  /** Whether Python's `value == n` holds: booleans and floats compare as numbers. */
  predicate NumberEquals(value: Json, n: int) {
    match value
    case JBool(b) => n == if b then 1 else 0
    case JInt(i) => i == n
    case JNum(x) => x == n as real
    case _ => false
  }

  /** A finite number that is not a boolean, as a float. */
  function FiniteNumber(value: Json): Option<real> {
    match value
    case JInt(i) => Some(i as real)
    case JNum(x) => Some(x)
    case _ => None
  }
}
