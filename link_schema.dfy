/**
 * The link request schemas (shared/schemas/link-schema.ts): an http(s) URL and a title of
 * 1 to 100 characters, both trimmed after they are checked; on update every field is
 * optional and an order must be a non-negative integer.
 */
module LinkSchema {
  import opened Wrappers
  import opened Json
  import opened Text
  import opened Zod

  /** The output of `createUserLinkSchema`. */
  datatype LinkInput = LinkInput(url: string, title: string)

  /** The output of `updateUserLinkSchema`: the fields present in the body. */
  datatype LinkUpdate = LinkUpdate(url: Option<string>, title: Option<string>, order: Option<int>)

  const TitleRequired := "Title is required"
  const OrderInteger := "Order must be an integer"
  const OrderNonNegative := "Order must be non-negative"

  /** Trimming keeps a prefix that neither starts nor ends with white space. */
  lemma TrimKeepsPrefix(s: string, p: string)
    requires StartsWith(s, p) && p != [] && !IsSpace(p[0]) && !IsSpace(p[|p| - 1])
    ensures StartsWith(Trim(s), p)
  {
    assert s[0] == p[0] && s[|p| - 1] == p[|p| - 1];
    assert TrimStart(s) == s;
    var r := TrimEnd(s);
    assert |r| >= |p|;
    assert r[..|p|] == s[..|p|];
  }

  /** Trimming a string that starts with a scheme prefix keeps the prefix. */
  lemma TrimKeepsScheme(s: string)
    requires HttpScheme(s)
    ensures HttpScheme(Trim(s))
  {
    if StartsWith(s, "https://") {
      TrimKeepsPrefix(s, "https://");
    } else {
      TrimKeepsPrefix(s, "http://");
    }
  }

  /** The `url` rule: `urlSchema.transform(val => val.trim())`. */
  function LinkUrl(v: Option<Json>, isUrl: string -> bool): (r: Result<string, string>)
    ensures r.Ok? <==> HttpUrl(v, isUrl).Ok?
    ensures r.Ok? ==> r.value == Trim(HttpUrl(v, isUrl).value)
    ensures r.Ok? ==> HttpScheme(r.value) && Trim(r.value) == r.value
    ensures r.Err? ==> r == HttpUrl(v, isUrl)
  {
    var u :- HttpUrl(v, isUrl);
    TrimKeepsScheme(u);
    TrimIdempotent(u);
    Ok(Trim(u))
  }

  /** The `title` rule: `z.string().min(1, ...).max(100).transform(val => val.trim())`. */
  function LinkTitle(v: Option<Json>): (r: Result<string, string>)
    ensures r.Ok? <==> RawString(v).Some? && 1 <= |RawString(v).value| <= 100
    ensures r.Ok? ==> r.value == Trim(RawString(v).value) && Trim(r.value) == r.value
    ensures RawString(v) == Some("") ==> r == Err(TitleRequired)
  {
    var t :- Bounded(v, 1, TitleRequired, 100, "100");
    TrimIdempotent(t);
    Ok(Trim(t))
  }

  /** `createUserLinkSchema.safeParse(body)`: url, then title. */
  function ParseCreateLink(body: Json, isUrl: string -> bool): (r: Result<LinkInput, string>)
    ensures !body.JObj? ==> r.Err?
    ensures body.JObj? && LinkUrl(Field(body, "url"), isUrl).Err? ==> r == Err(LinkUrl(Field(body, "url"), isUrl).error)
    ensures r.Ok? <==> body.JObj? && LinkUrl(Field(body, "url"), isUrl).Ok? && LinkTitle(Field(body, "title")).Ok?
    ensures r.Ok? ==> r.value == LinkInput(LinkUrl(Field(body, "url"), isUrl).value, LinkTitle(Field(body, "title")).value)
  {
    var fields :- ObjectBody(body);
    var url :- LinkUrl(Field(body, "url"), isUrl);
    var title :- LinkTitle(Field(body, "title"));
    Ok(LinkInput(url, title))
  }

  /** `updateUserLinkSchema.safeParse(body)`: url, title and order, each optional. */
  function ParseUpdateLink(body: Json, isUrl: string -> bool): (r: Result<LinkUpdate, string>)
    ensures !body.JObj? ==> r.Err?
    ensures r.Ok? ==> ((r.value.url.Some? <==> Field(body, "url").Some?)
      && (r.value.title.Some? <==> Field(body, "title").Some?)
      && (r.value.order.Some? <==> Field(body, "order").Some?))
    ensures r.Ok? && Field(body, "url").Some? ==> (LinkUrl(Field(body, "url"), isUrl).Ok?
      && r.value.url == Some(LinkUrl(Field(body, "url"), isUrl).value))
    ensures r.Ok? && Field(body, "title").Some? ==> (LinkTitle(Field(body, "title")).Ok?
      && r.value.title == Some(LinkTitle(Field(body, "title")).value))
    ensures r.Ok? && r.value.order.Some? ==>
      r.value.order.value >= 0 && Field(body, "order") == Some(JNum(r.value.order.value as real))
    ensures body.JObj? && Field(body, "url").None? && Field(body, "title").None? && Field(body, "order").None?
      ==> r == Ok(LinkUpdate(None, None, None))
  {
    var fields :- ObjectBody(body);
    var url :- if Field(body, "url").None? then Ok(None)
      else var u :- LinkUrl(Field(body, "url"), isUrl); Ok(Some(u));
    var title :- if Field(body, "title").None? then Ok(None)
      else var t :- LinkTitle(Field(body, "title")); Ok(Some(t));
    var order :- if Field(body, "order").None? then Ok(None)
      else var n :- NonNegativeInt(Field(body, "order"), OrderInteger, OrderNonNegative); Ok(Some(n));
    Ok(LinkUpdate(url, title, order))
  }

  /** The request body a client sends to create a link. */
  function LinkBody(l: LinkInput): Json {
    JObj(map["url" := JStr(l.url), "title" := JStr(l.title)])
  }

  /** Every created link has an http(s) URL and trimmed fields, and parsing the body of such
      a link (with a title of 1 to 100 characters) gives the link back. */
  lemma CreateLinkRoundTrip(l: LinkInput, isUrl: string -> bool)
    requires isUrl(l.url) && HttpScheme(l.url) && Trim(l.url) == l.url
    requires 1 <= |l.title| <= 100 && Trim(l.title) == l.title
    ensures ParseCreateLink(LinkBody(l), isUrl) == Ok(l)
  {
    LinkBodyFields(l);
    TrimmedUrlAccepted(l.url, isUrl);
    TrimmedTitleAccepted(l.title);
  }

  /** The body of a link holds its url and title as strings. */
  lemma LinkBodyFields(l: LinkInput)
    ensures LinkBody(l).JObj?
    ensures Field(LinkBody(l), "url") == Some(JStr(l.url))
    ensures Field(LinkBody(l), "title") == Some(JStr(l.title))
  {
  }

  /** A valid http(s) URL without surrounding white space passes the `url` rule unchanged. */
  lemma TrimmedUrlAccepted(u: string, isUrl: string -> bool)
    requires isUrl(u) && HttpScheme(u) && Trim(u) == u
    ensures LinkUrl(Some(JStr(u)), isUrl) == Ok(u)
  {
    assert HttpUrl(Some(JStr(u)), isUrl) == Ok(u);
  }

  /** A trimmed title of 1 to 100 characters passes the `title` rule unchanged. */
  lemma TrimmedTitleAccepted(t: string)
    requires 1 <= |t| <= 100 && Trim(t) == t
    ensures LinkTitle(Some(JStr(t))) == Ok(t)
  {
    assert Bounded(Some(JStr(t)), 1, TitleRequired, 100, "100") == Ok(t);
  }

  /** The length checks precede trimming: a title of white space only passes "Title is
      required" and is stored empty. */
  lemma BlankTitleStoredEmpty(url: string, title: string, isUrl: string -> bool)
    requires isUrl(url) && HttpScheme(url)
    requires 1 <= |title| <= 100 && Blank(title)
    ensures ParseCreateLink(JObj(map["url" := JStr(url), "title" := JStr(title)]), isUrl)
      == Ok(LinkInput(Trim(url), ""))
  {
    var body := JObj(map["url" := JStr(url), "title" := JStr(title)]);
    assert Field(body, "url") == Some(JStr(url));
    assert Field(body, "title") == Some(JStr(title));
    assert LinkUrl(Field(body, "url"), isUrl) == Ok(Trim(url));
    assert LinkTitle(Field(body, "title")) == Ok("");
  }
}
