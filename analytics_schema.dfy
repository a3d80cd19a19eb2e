/**
 * The analytics request schemas (shared/schemas/analytics-schema.ts): the referrer
 * normalisation, the event record discriminated by `type`, and the guestbook comment.
 */
module AnalyticsSchema {
  import opened Wrappers
  import opened Json
  import opened Text
  import opened Zod

  /** The transform of `referrerSchema`: no referrer for a missing or blank value; a
      trimmed value without "://" and "." as it is; any other trimmed value only if it
      parses as a URL. */
  function ReferrerTransform(val: Option<string>, parsesUrl: string -> bool): (r: Option<string>)
    ensures (val.None? || Blank(val.value)) ==> r.None?
    ensures (val.Some? && !Blank(val.value) && !Contains(Trim(val.value), "://")
      && !Contains(Trim(val.value), ".")) ==> r == Some(Trim(val.value))
    ensures (val.Some? && !Blank(val.value)
      && (Contains(Trim(val.value), "://") || Contains(Trim(val.value), ".")))
      ==> r == (if parsesUrl(Trim(val.value)) then Some(Trim(val.value)) else None)
  {
    if val.None? || val.value == "" || Trim(val.value) == "" then None
    else
      var normalized := Trim(val.value);
      if !Contains(normalized, "://") && !Contains(normalized, ".") then Some(normalized)
      else if parsesUrl(normalized) then Some(normalized)
      else None
  }

  /** A normalised referrer is trimmed and not blank, and normalising it again keeps it. */
  lemma ReferrerTransformIdempotent(val: Option<string>, parsesUrl: string -> bool)
    ensures var r := ReferrerTransform(val, parsesUrl);
      && (r.Some? ==> Trim(r.value) == r.value && r.value != "")
      && ReferrerTransform(r, parsesUrl) == r
  {
    if val.Some? && !Blank(val.value) {
      TrimIdempotent(val.value);
    }
  }

  /** `referrerSchema`: `z.string().nullable().optional()` followed by the transform. */
  function ParseReferrer(v: Option<Json>, parsesUrl: string -> bool): (r: Result<Option<string>, string>)
    ensures v.None? || v.value.JNull? ==> r == Ok(None)
    ensures RawString(v).Some? ==> r == Ok(ReferrerTransform(RawString(v), parsesUrl))
    ensures r.Err? <==> v.Some? && !v.value.JNull? && !v.value.JStr?
  {
    if v.None? || v.value.JNull? then Ok(None)
    else
      var s :- AsString(v);
      Ok(ReferrerTransform(Some(s), parsesUrl))
  }

  /** The discriminator of an analytics record. */
  datatype EventType = PageViewEvent | LinkEvent | IconEvent

  function TypeTag(t: EventType): string {
    match t
    case PageViewEvent => "pageView"
    case LinkEvent => "link"
    case IconEvent => "icon"
  }

  /** The option of the discriminated union that a `type` value selects, if any. */
  function EventTypeOf(v: Option<Json>): (r: Option<EventType>)
    ensures r.Some? ==> v == Some(JStr(TypeTag(r.value)))
    ensures r.None? ==> forall t :: v != Some(JStr(TypeTag(t)))
  {
    if v == Some(JStr("pageView")) then Some(PageViewEvent)
    else if v == Some(JStr("link")) then Some(LinkEvent)
    else if v == Some(JStr("icon")) then Some(IconEvent)
    else None
  }

  /** A parsed analytics record; unknown keys of the body are dropped. */
  datatype AnalyticsEvent = AnalyticsEvent(
    kind: EventType, userId: string, referrer: Option<string>, createdAt: Option<string>,
    id: Option<string>)

  /** `analyticsRecordSchema.safeParse(body)`: the record, or the message of the first issue.
      The discriminator is checked first, then the fields in the order userId, referrer,
      createdAt, id; `id` is required for link and icon records only. */
  function ParseRecord(body: Json, vals: Validators): (r: Result<AnalyticsEvent, string>)
    ensures !body.JObj? ==> r == Err(Expected("object", Some(body)))
    ensures body.JObj? && EventTypeOf(Field(body, "type")).None? ==> r == Err(InvalidInput)
    ensures r.Ok? ==> var e := r.value;
      && Field(body, "type") == Some(JStr(TypeTag(e.kind)))
      && Field(body, "userId") == Some(JStr(e.userId)) && vals.isCuid(e.userId)
      && e.referrer == ReferrerTransform(RawString(Field(body, "referrer")), vals.parsesUrl)
      && e.createdAt == RawString(Field(body, "createdAt"))
      && (e.kind != PageViewEvent ==> e.id.Some?)
      && (e.id.Some? ==> Field(body, "id") == Some(JStr(e.id.value)) && vals.isCuid(e.id.value))
  {
    var fields :- ObjectBody(body);
    match EventTypeOf(Field(body, "type"))
    case None => Err(InvalidInput)
    case Some(kind) =>
      var userId :- Cuid(Field(body, "userId"), vals.isCuid, InvalidCuid);
      var referrer :- ParseReferrer(Field(body, "referrer"), vals.parsesUrl);
      var createdAt :- OptionalString(Field(body, "createdAt"));
      var id :- if kind == PageViewEvent && Field(body, "id").None? then Ok(None)
        else
          var i :- Cuid(Field(body, "id"), vals.isCuid, InvalidCuid);
          Ok(Some(i));
      Ok(AnalyticsEvent(kind, userId, referrer, createdAt, id))
  }

  /** A body field holding a string, when there is one. */
  function OptField(key: string, value: Option<string>): map<string, Json> {
    if value.Some? then map[key := JStr(value.value)] else map[]
  }

  /** The request body a client sends for an event. */
  function EventBody(e: AnalyticsEvent): Json {
    JObj(map["type" := JStr(TypeTag(e.kind)), "userId" := JStr(e.userId)]
      + OptField("referrer", e.referrer) + OptField("createdAt", e.createdAt) + OptField("id", e.id))
  }

  /** An event the schema can produce: cuid ids, an id for link and icon records, and a
      referrer that is already normalised. */
  predicate Parseable(e: AnalyticsEvent, vals: Validators) {
    && vals.isCuid(e.userId)
    && (e.kind != PageViewEvent ==> e.id.Some?)
    && (e.id.Some? ==> vals.isCuid(e.id.value))
    && ReferrerTransform(e.referrer, vals.parsesUrl) == e.referrer
  }

  /** Parsing the body of an event gives the event back. */
  lemma ParseRecordRoundTrip(e: AnalyticsEvent, vals: Validators)
    requires Parseable(e, vals)
    ensures ParseRecord(EventBody(e), vals) == Ok(e)
  {
    var body := EventBody(e);
    EventBodyFields(e);
    assert EventTypeOf(Field(body, "type")) == Some(e.kind);
    assert Cuid(Field(body, "userId"), vals.isCuid, InvalidCuid) == Ok(e.userId);
    assert ParseReferrer(Field(body, "referrer"), vals.parsesUrl) == Ok(e.referrer);
    assert OptionalString(Field(body, "createdAt")) == Ok(e.createdAt);
  }

  /** The fields of an event's body. */
  lemma EventBodyFields(e: AnalyticsEvent)
    ensures Field(EventBody(e), "type") == Some(JStr(TypeTag(e.kind)))
    ensures Field(EventBody(e), "userId") == Some(JStr(e.userId))
    ensures RawString(Field(EventBody(e), "referrer")) == e.referrer
    ensures Field(EventBody(e), "referrer").Some? <==> e.referrer.Some?
    ensures RawString(Field(EventBody(e), "createdAt")) == e.createdAt
    ensures Field(EventBody(e), "createdAt").Some? <==> e.createdAt.Some?
    ensures RawString(Field(EventBody(e), "id")) == e.id
    ensures Field(EventBody(e), "id").Some? <==> e.id.Some?
  {
  }

  /** A parsed guestbook comment; an empty email has become absent. */
  datatype CommentInput = CommentInput(userId: string, name: string, email: Option<string>, message: string)

  const InvalidUserId := "Invalid user ID"
  const NameRequired := "Name is required"
  const MessageRequired := "Message is required"

  const InvalidEmail := "Invalid email address"

  /** `z.email(...).max(100).or(z.literal("")).transform(val => val || undefined)`: a valid
      email of at most 100 characters, or "" which becomes absent. When both options fail,
      a Zod 4 union reports the issues of its one option that did not abort, if there is
      exactly one: a string other than "" aborts the literal but fails the email option
      only by its checks, whose first issue (the format, then the length) is reported. A
      value that is not a string aborts both, and the issue is the union's own. */
  function ParseEmail(v: Option<Json>, isEmail: string -> bool): (r: Result<Option<string>, string>)
    ensures r.Ok? <==> (RawString(v).Some?
      && ((isEmail(RawString(v).value) && |RawString(v).value| <= 100) || RawString(v).value == ""))
    ensures r.Ok? ==> r.value == if RawString(v).value == "" then None else RawString(v)
    ensures RawString(v).None? ==> r == Err(InvalidInput)
    ensures RawString(v).Some? && RawString(v).value != "" && !isEmail(RawString(v).value) ==> r == Err(InvalidEmail)
    ensures RawString(v).Some? && isEmail(RawString(v).value) && |RawString(v).value| > 100 ==> r == Err(TooBig("100"))
  {
    match RawString(v)
    case None => Err(InvalidInput)
    case Some(s) =>
      if s == "" then Ok(None)
      else if !isEmail(s) then Err(InvalidEmail)
      else if |s| > 100 then Err(TooBig("100"))
      else Ok(Some(s))
  }

  /** `createCommentSchema.safeParse(body)`: fields in the order userId, name, email,
      message; name and message are length-checked as received and then trimmed. */
  function ParseComment(body: Json, vals: Validators): (r: Result<CommentInput, string>)
    ensures !body.JObj? ==> r.Err?
    ensures r.Ok? ==> var c := r.value;
      && Field(body, "userId") == Some(JStr(c.userId)) && vals.isCuid(c.userId)
      && RawString(Field(body, "name")).Some?
      && 1 <= |RawString(Field(body, "name")).value| <= 100
      && c.name == Trim(RawString(Field(body, "name")).value)
      && RawString(Field(body, "message")).Some?
      && 1 <= |RawString(Field(body, "message")).value| <= 500
      && c.message == Trim(RawString(Field(body, "message")).value)
      && (c.email.Some? ==> c.email.value != "" && vals.isEmail(c.email.value) && |c.email.value| <= 100)
      && ParseEmail(Field(body, "email"), vals.isEmail) == Ok(c.email)
  {
    var fields :- ObjectBody(body);
    var userId :- Cuid(Field(body, "userId"), vals.isCuid, InvalidUserId);
    var name :- Bounded(Field(body, "name"), 1, NameRequired, 100, "100");
    var email :- ParseEmail(Field(body, "email"), vals.isEmail);
    var message :- Bounded(Field(body, "message"), 1, MessageRequired, 500, "500");
    Ok(CommentInput(userId, Trim(name), email, Trim(message)))
  }

  /** The request body a client sends for a comment; no email is sent as "". */
  function CommentBody(c: CommentInput): Json {
    JObj(map["userId" := JStr(c.userId), "name" := JStr(c.name),
      "email" := JStr(c.email.GetOr("")), "message" := JStr(c.message)])
  }

  /** A comment the schema can produce from itself: a cuid user id, trimmed non-empty name
      and message within their bounds, and a valid non-empty email if any. */
  predicate Storable(c: CommentInput, vals: Validators) {
    && vals.isCuid(c.userId)
    && 1 <= |c.name| <= 100 && Trim(c.name) == c.name
    && 1 <= |c.message| <= 500 && Trim(c.message) == c.message
    && (c.email.Some? ==> c.email.value != "" && vals.isEmail(c.email.value) && |c.email.value| <= 100)
  }

  /** Parsing the body of a storable comment gives the comment back. */
  lemma ParseCommentRoundTrip(c: CommentInput, vals: Validators)
    requires Storable(c, vals)
    ensures ParseComment(CommentBody(c), vals) == Ok(c)
  {
    var body := CommentBody(c);
    CommentBodyFields(c);
    assert Cuid(Field(body, "userId"), vals.isCuid, InvalidUserId) == Ok(c.userId);
    assert Bounded(Field(body, "name"), 1, NameRequired, 100, "100") == Ok(c.name);
    assert ParseEmail(Field(body, "email"), vals.isEmail) == Ok(c.email);
    assert Bounded(Field(body, "message"), 1, MessageRequired, 500, "500") == Ok(c.message);
  }

  /** The fields of a comment's body. */
  lemma CommentBodyFields(c: CommentInput)
    ensures Field(CommentBody(c), "userId") == Some(JStr(c.userId))
    ensures Field(CommentBody(c), "name") == Some(JStr(c.name))
    ensures Field(CommentBody(c), "email") == Some(JStr(c.email.GetOr("")))
    ensures Field(CommentBody(c), "message") == Some(JStr(c.message))
  {
  }

  /** The length checks precede trimming: a name of white space only passes "Name is
      required" and is stored empty. */
  lemma BlankNameStoredEmpty(body: Json, vals: Validators, name: string)
    requires ParseComment(body, vals).Ok?
    requires Field(body, "name") == Some(JStr(name)) && Blank(name)
    ensures |name| >= 1 && ParseComment(body, vals).value.name == ""
  {
  }
}
