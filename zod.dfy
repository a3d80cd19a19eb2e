/**
 * The parts of zod's parsing behaviour the request schemas rely on: type checks, string
 * length checks evaluated on the raw input, integer and lower-bound checks on numbers,
 * and the shared `urlSchema`. Every rule yields the value it accepts or the message of
 * its first issue, which is what handlers report as `issues[0].message`.
 */
module Zod {
  import opened Wrappers
  import opened Json
  import opened Text

  /** The validators zod and the URL parser supply, taken as given: `z.cuid()`,
      `z.email()`, `z.url()` and `new URL(...)` succeeding. */
  datatype Validators = Validators(
    isCuid: string -> bool, isEmail: string -> bool, isUrl: string -> bool,
    parsesUrl: string -> bool)

  /** The type name zod's messages report for a received value. */
  function Received(v: Option<Json>): string {
    match v
    case None => "undefined"
    case Some(JNull) => "null"
    case Some(JBool(_)) => "boolean"
    case Some(JNum(_)) => "number"
    case Some(JStr(_)) => "string"
    case Some(JArr(_)) => "array"
    case Some(JObj(_)) => "object"
  }

  /** The `invalid_type` message. */
  function Expected(kind: string, v: Option<Json>): string {
    "Invalid input: expected " + kind + ", received " + Received(v)
  }

  /** The message of an `invalid_union` issue (a union or discriminated union with no
      matching option). */
  const InvalidInput := "Invalid input"

  /** `issues[0]?.message || "Invalid input"`: what a handler reports for a rejected body. */
  function StatusText(message: string): (r: string)
    ensures r != ""
    ensures message != "" ==> r == message
    ensures message == "" ==> r == InvalidInput
  {
    if message != "" then message else InvalidInput
  }

  /** The default message of a failed `.max(n)` on a string; `n` is written out. */
  function TooBig(n: string): string {
    "Too big: expected string to have <=" + n + " characters"
  }

  /** The string a body field holds, if it holds one. */
  function RawString(v: Option<Json>): (r: Option<string>)
    ensures r.Some? <==> v.Some? && v.value.JStr?
    ensures r.Some? ==> v.value == JStr(r.value)
  {
    if v.Some? && v.value.JStr? then Some(v.value.s) else None
  }

  /** `z.string()`. */
  function AsString(v: Option<Json>): (r: Result<string, string>)
    ensures r.Ok? <==> RawString(v).Some?
    ensures r.Ok? ==> r.value == RawString(v).value
    ensures r.Err? ==> r.error == Expected("string", v)
  {
    if v.Some? && v.value.JStr? then Ok(v.value.s) else Err(Expected("string", v))
  }

  /** `z.string().optional()`: an absent field is accepted as absent. */
  function OptionalString(v: Option<Json>): (r: Result<Option<string>, string>)
    ensures r.Ok? <==> v.None? || RawString(v).Some?
    ensures r.Ok? ==> r.value == RawString(v)
  {
    if v.None? then Ok(None)
    else
      var s :- AsString(v);
      Ok(Some(s))
  }

  /** `z.string().min(lo, loMessage).max(hi)`: both bounds are checked on the string as
      received, before any trimming that follows them. */
  function Bounded(v: Option<Json>, lo: nat, loMessage: string, hi: nat, hiText: string): (r: Result<string, string>)
    ensures r.Ok? <==> RawString(v).Some? && lo <= |RawString(v).value| <= hi
    ensures r.Ok? ==> r.value == RawString(v).value
    ensures RawString(v).Some? && |RawString(v).value| < lo ==> r == Err(loMessage)
  {
    var s :- AsString(v);
    if |s| < lo then Err(loMessage)
    else if |s| > hi then Err(TooBig(hiText))
    else Ok(s)
  }

  /** `z.cuid(message)`. */
  function Cuid(v: Option<Json>, isCuid: string -> bool, message: string): (r: Result<string, string>)
    ensures r.Ok? <==> RawString(v).Some? && isCuid(RawString(v).value)
    ensures r.Ok? ==> r.value == RawString(v).value
    ensures RawString(v).Some? && !isCuid(RawString(v).value) ==> r == Err(message)
  {
    var s :- AsString(v);
    if isCuid(s) then Ok(s) else Err(message)
  }

  /** The default message of `z.cuid()`. */
  const InvalidCuid := "Invalid cuid"

  /** `z.number().int(intMessage).min(0, minMessage)`: in Zod 4 `.int()` admits the safe
      integers only, and reports anything else with its own message. */
  function NonNegativeInt(v: Option<Json>, intMessage: string, minMessage: string): (r: Result<int, string>)
    ensures r.Ok? <==> v.Some? && v.value.JNum? && IsSafeInteger(v.value.n) && v.value.n >= 0.0
    ensures r.Ok? ==> r.value as real == v.value.n && 0 <= r.value <= 9007199254740991
    ensures v.Some? && v.value.JNum? && !IsSafeInteger(v.value.n) ==> r == Err(intMessage)
    ensures v.Some? && v.value.JNum? && IsSafeInteger(v.value.n) && v.value.n < 0.0 ==> r == Err(minMessage)
  {
    if !(v.Some? && v.value.JNum?) then Err(Expected("number", v))
    else if !IsSafeInteger(v.value.n) then Err(intMessage)
    else if v.value.n < 0.0 then Err(minMessage)
    else Ok(v.value.n.Floor)
  }

  /** `z.boolean().optional()`. */
  function OptionalBool(v: Option<Json>): (r: Result<Option<bool>, string>)
    ensures r.Ok? <==> v.None? || v.value.JBool?
    ensures r.Ok? && v.Some? ==> r.value == Some(v.value.b)
    ensures v.None? ==> r == Ok(None)
  {
    if v.None? then Ok(None)
    else if v.value.JBool? then Ok(Some(v.value.b))
    else Err(Expected("boolean", v))
  }

  /** `s.startsWith("http://") || s.startsWith("https://")`. */
  predicate HttpScheme(s: string) {
    StartsWith(s, "http://") || StartsWith(s, "https://")
  }

  const InvalidUrl := "Invalid URL"
  const SchemeRequired := "URL must start with http:// or https://"

  /** `urlSchema` (declared identically by the link and icon schemas):
      `z.url("Invalid URL")` refined by an http or https prefix. */
  function HttpUrl(v: Option<Json>, isUrl: string -> bool): (r: Result<string, string>)
    ensures r.Ok? <==> RawString(v).Some? && isUrl(RawString(v).value) && HttpScheme(RawString(v).value)
    ensures r.Ok? ==> r.value == RawString(v).value
    ensures RawString(v).Some? && !isUrl(RawString(v).value) ==> r == Err(InvalidUrl)
    ensures RawString(v).Some? && isUrl(RawString(v).value) && !HttpScheme(RawString(v).value)
      ==> r == Err(SchemeRequired)
  {
    var s :- AsString(v);
    if !isUrl(s) then Err(InvalidUrl)
    else if !HttpScheme(s) then Err(SchemeRequired)
    else Ok(s)
  }

  /** A body zod's `z.object` accepts as an object (not `null`, not an array). */
  function ObjectBody(body: Json): (r: Result<map<string, Json>, string>)
    ensures r.Ok? <==> body.JObj?
    ensures r.Ok? ==> r.value == body.fields
    ensures r.Err? ==> r.error == Expected("object", Some(body))
  {
    if body.JObj? then Ok(body.fields) else Err(Expected("object", Some(body)))
  }
}
