/** Request bodies and payloads as JSON values, with JavaScript's truthiness. */
module Json {
  import opened Wrappers

  /** A parsed JSON value. Numbers are finite reals (JSON has no NaN or infinity). */
  datatype Json =
    | JNull
    | JBool(b: bool)
    | JNum(n: real)
    | JStr(s: string)
    | JArr(items: seq<Json>)
    | JObj(fields: map<string, Json>)

  /** The property `key` of an object body; `None` stands for `undefined`. */
  function Field(body: Json, key: string): (r: Option<Json>)
    ensures r.Some? <==> body.JObj? && key in body.fields
    ensures r.Some? ==> r.value == body.fields[key]
  {
    if body.JObj? && key in body.fields then Some(body.fields[key]) else None
  }

  /** JavaScript truthiness of a JSON value. */
  predicate Truthy(v: Json) {
    match v
    case JNull => false
    case JBool(b) => b
    case JNum(n) => n != 0.0
    case JStr(s) => s != ""
    case JArr(_) => true
    case JObj(_) => true
  }

  /** JavaScript truthiness of a possibly-missing string. */
  predicate TruthyStr(s: Option<string>) {
    s.Some? && s.value != ""
  }

  /** A number that `Number.isInteger` accepts. */
  predicate IsInteger(n: real) {
    n.Floor as real == n
  }

  /** `Number.MAX_SAFE_INTEGER`, 2^53 - 1. */
  const MaxSafeInteger: real := 9007199254740991.0

  /** A number that `Number.isSafeInteger` accepts. */
  predicate IsSafeInteger(n: real) {
    IsInteger(n) && -MaxSafeInteger <= n <= MaxSafeInteger
  }
}
