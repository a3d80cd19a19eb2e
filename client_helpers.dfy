/**
 * Client helpers (app/utils/helpers.ts): the error-message fallback chain and the
 * placeholder of the date formatter.
 */
module ClientHelpers {
  import opened Wrappers
  import opened Json
  import opened Text

  /** Optional chaining `v?.key`: `undefined` below `null` or `undefined`, and for a key
      the value does not have. */
  function Get(v: Option<Json>, key: string): (r: Option<Json>)
    ensures (v.None? || v == Some(JNull)) ==> r.None?
    ensures r.Some? ==> v.Some? && r == Field(v.value, key)
  {
    if v.Some? then Field(v.value, key) else None
  }

  /** JavaScript truthiness of a possibly-`undefined` value. */
  predicate TruthyOpt(v: Option<Json>) {
    v.Some? && Truthy(v.value)
  }

  /** The operands of the `||` chain, in order: `err.data.statusMessage`, `err.data.message`,
      `err.statusMessage`, `err.message`. */
  function ErrorCandidates(err: Option<Json>): seq<Option<Json>> {
    [Get(Get(err, "data"), "statusMessage"), Get(Get(err, "data"), "message"),
     Get(err, "statusMessage"), Get(err, "message")]
  }

  /** Operand `k` is the first truthy one. */
  predicate FirstTruthyAt(cands: seq<Option<Json>>, k: int) {
    0 <= k < |cands| && TruthyOpt(cands[k]) && forall j :: 0 <= j < k ==> !TruthyOpt(cands[j])
  }

  /** The first truthy operand from position `i` on, if any. */
  function FirstTruthy(cands: seq<Option<Json>>, i: nat): (r: Option<nat>)
    requires i <= |cands|
    ensures r.Some? ==> (i <= r.value < |cands| && TruthyOpt(cands[r.value])
      && forall j :: i <= j < r.value ==> !TruthyOpt(cands[j]))
    ensures r.None? ==> forall j :: i <= j < |cands| ==> !TruthyOpt(cands[j])
    decreases |cands| - i
  {
    if i == |cands| then None
    else if TruthyOpt(cands[i]) then Some(i)
    else FirstTruthy(cands, i + 1)
  }

  /** `getErrorMessage(err, fallback)`: the value of the first truthy operand of the chain
      (whatever its type), else the fallback. */
  function GetErrorMessage(err: Option<Json>, fallback: string): (r: Json)
    ensures forall k :: FirstTruthyAt(ErrorCandidates(err), k) ==> r == ErrorCandidates(err)[k].value
    ensures Truthy(r) || r == JStr(fallback)
    ensures (forall k :: 0 <= k < 4 ==> !TruthyOpt(ErrorCandidates(err)[k])) ==> r == JStr(fallback)
    ensures (err.None? || err == Some(JNull)) ==> r == JStr(fallback)
  {
    var cands := ErrorCandidates(err);
    match FirstTruthy(cands, 0)
    case Some(k) => cands[k].value
    case None => JStr(fallback)
  }

  /** An empty message never wins: a chain of empty strings yields the fallback. */
  lemma EmptyMessagesFallBack(statusMessage: string, message: string, fallback: string)
    requires statusMessage == "" && message == ""
    ensures GetErrorMessage(Some(JObj(map["data" := JObj(map["statusMessage" := JStr(statusMessage),
      "message" := JStr(message)]), "statusMessage" := JStr(statusMessage), "message" := JStr(message)])),
      fallback) == JStr(fallback)
  {
    var err := Some(JObj(map["data" := JObj(map["statusMessage" := JStr(statusMessage),
      "message" := JStr(message)]), "statusMessage" := JStr(statusMessage), "message" := JStr(message)]));
    assert Get(err, "data") == Some(JObj(map["statusMessage" := JStr(statusMessage), "message" := JStr(message)]));
    assert forall k :: 0 <= k < 4 ==> ErrorCandidates(err)[k] == Some(JStr(""));
  }

  /** The argument of `formatDate`: a date string or a `Date`. */
  datatype DateInput = DateString(s: string) | DateValue(epochMillis: int)

  /** `formatDate(date)`: "-" for `null`, `undefined` or ""; otherwise the locale rendering
      (`toLocaleDateString`, a parameter here) with its first character lower-cased. */
  function FormatDate(date: Option<DateInput>, render: DateInput -> string): (r: string)
    ensures (date.None? || date == Some(DateString(""))) ==> r == "-"
    ensures date.Some? && date != Some(DateString("")) ==> (|r| == |render(date.value)|
      && (r != [] ==> r[0] == LowerChar(render(date.value)[0]) && r[1..] == render(date.value)[1..]))
  {
    if date.None? || date == Some(DateString("")) then "-"
    else
      var formatted := render(date.value);
      if formatted == [] then [] else [LowerChar(formatted[0])] + formatted[1..]
  }
}
