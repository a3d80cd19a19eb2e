/**
 * The client's analytics store: the fetched analytics and referrer statistics, a loading
 * flag, the request bodies of the recording actions, and the request path of
 * `deleteAnalytics` with its query string.
 */
module AnalyticsStore {
  import opened Wrappers
  import opened Json
  import opened Seqs
  import opened Model
  import opened Fetch
  import opened AnalyticsSchema
  import opened AnalyticsArchive

  const BasePath := "/api/analytics"

  // ---------------------------------------------------------------------------------------
  // The query string of `deleteAnalytics` (lines 119-130)

  /** The parameters appended in the order type, dateFrom, dateTo, each only when present
      and non-empty; `None` stands for calling without options. */
  function QueryParams(options: Option<ArchiveQuery>): (r: seq<(string, string)>)
    ensures |r| <= 3
    ensures options.None? ==> r == []
    ensures r == [] <==> (options.None? || (!TruthyStr(options.value.kind)
      && !TruthyStr(options.value.dateFrom) && !TruthyStr(options.value.dateTo)))
    ensures forall p :: p in r ==> p.0 in ["type", "dateFrom", "dateTo"] && p.1 != ""
    ensures forall i, j :: 0 <= i < j < |r| ==> Rank(r[i].0) < Rank(r[j].0)
  {
    if options.None? then []
    else
      var o := options.value;
      (if TruthyStr(o.kind) then [("type", o.kind.value)] else [])
      + (if TruthyStr(o.dateFrom) then [("dateFrom", o.dateFrom.value)] else [])
      + (if TruthyStr(o.dateTo) then [("dateTo", o.dateTo.value)] else [])
  }

  /** The position of a parameter name in the order of appending. */
  function Rank(name: string): nat {
    if name == "type" then 0 else if name == "dateFrom" then 1 else 2
  }

  /** `sep`-separated concatenation. */
  function Join(parts: seq<string>, sep: char): (r: string)
    ensures parts != [] ==> |r| >= |parts[0]|
  {
    if parts == [] then ""
    else if |parts| == 1 then parts[0]
    else parts[0] + [sep] + Join(parts[1..], sep)
  }

  /** `params.toString()`: `name=value` pairs joined by `&`; `encode` is the
      form-urlencoded serialisation of a value (the names need none). */
  function Serialize(params: seq<(string, string)>, encode: string -> string): (r: string)
    ensures params == [] <==> r == ""
  {
    var parts := Map(params, (p: (string, string)) => p.0 + "=" + encode(p.1));
    if parts == [] then ""
    else
      assert parts[0] == params[0].0 + "=" + encode(params[0].1);
      Join(parts, '&')
  }

  /** The path `deleteAnalytics` requests: the bare endpoint without parameters, else the
      endpoint, `?` and the query string. */
  function RequestPath(options: Option<ArchiveQuery>, encode: string -> string): (r: string)
    ensures QueryParams(options) == [] ==> r == BasePath
    ensures QueryParams(options) != [] ==> r == BasePath + "?" + Serialize(QueryParams(options), encode)
  {
    var query := Serialize(QueryParams(options), encode);
    if query != "" then BasePath + "?" + query else BasePath
  }

  // ---------------------------------------------------------------------------------------
  // Reading the query back, as the server's `getQuery` does

  /** The position of the first `c` in `s`. */
  function IndexOf(s: string, c: char): (i: nat)
    requires c in s
    ensures i < |s| && s[i] == c && c !in s[..i]
  {
    if s[0] == c then 0
    else
      var i := IndexOf(s[1..], c);
      assert s[1..][..i] == s[1..i + 1];
      assert s[..i + 1] == [s[0]] + s[1..][..i];
      i + 1
  }

  /** `s` cut at every `sep`. */
  function Split(s: string, sep: char): (r: seq<string>)
    ensures |r| >= 1
    decreases |s|
  {
    if sep !in s then [s]
    else
      var i := IndexOf(s, sep);
      [s[..i]] + Split(s[i + 1..], sep)
  }

  /** The first `sep` of `p + [sep] + q` is the one after `p` when `p` has none. */
  lemma IndexAfter(p: string, q: string, sep: char)
    requires sep !in p
    ensures IndexOf(p + [sep] + q, sep) == |p|
  {
    var s := p + [sep] + q;
    assert s[..|p|] == p;
    assert s[|p|] == sep;
  }

  /** Splitting undoes joining when no part holds the separator. */
  lemma {:induction false} SplitJoin(parts: seq<string>, sep: char)
    requires |parts| >= 1 && forall p :: p in parts ==> sep !in p
    ensures Split(Join(parts, sep), sep) == parts
    decreases |parts|
  {
    if |parts| > 1 {
      var p := parts[0];
      var rest := Join(parts[1..], sep);
      var s := p + [sep] + rest;
      assert Join(parts, sep) == s;
      IndexAfter(p, rest, sep);
      assert s[..|p|] == p;
      assert s[|p| + 1..] == rest;
      SplitJoin(parts[1..], sep);
      assert parts == [p] + parts[1..];
    }
  }

  /** One `name=value` pair, cut at its first `=`, with the value decoded. */
  function ParsePair(part: string, decode: string -> string): (string, string) {
    if '=' in part then
      var i := IndexOf(part, '=');
      (part[..i], decode(part[i + 1..]))
    else (part, "")
  }

  /** The pairs of a query string. */
  function ParseQuery(query: string, decode: string -> string): seq<(string, string)> {
    if query == "" then [] else Map(Split(query, '&'), (part: string) => ParsePair(part, decode))
  }

  /** The value of the first pair named `name`. */
  function Lookup(pairs: seq<(string, string)>, name: string): (r: Option<string>)
    ensures r.None? <==> forall p :: p in pairs ==> p.0 != name
  {
    if pairs == [] then None
    else if pairs[0].0 == name then Some(pairs[0].1)
    else Lookup(pairs[1..], name)
  }

  /** The query the server reads from a query string. */
  function ReadQuery(query: string, decode: string -> string): ArchiveQuery {
    var pairs := ParseQuery(query, decode);
    ArchiveQuery(Lookup(pairs, "type"), Lookup(pairs, "dateFrom"), Lookup(pairs, "dateTo"))
  }

  /** Blank parameters are dropped: what the server sees when options are `None`. */
  function Sent(options: Option<ArchiveQuery>): ArchiveQuery {
    if options.None? then ArchiveQuery(None, None, None)
    else
      var o := options.value;
      ArchiveQuery(if TruthyStr(o.kind) then o.kind else None,
        if TruthyStr(o.dateFrom) then o.dateFrom else None,
        if TruthyStr(o.dateTo) then o.dateTo else None)
  }

  /** The server reads back exactly the non-empty options the client sent, provided the
      encoding escapes `&` and `=` and decoding inverts it. Empty options are absent on
      both sides, which the archival handler treats alike. */
  lemma QueryRoundTrip(options: Option<ArchiveQuery>, encode: string -> string, decode: string -> string)
    requires forall v :: '&' !in encode(v) && '=' !in encode(v) && decode(encode(v)) == v
    ensures ReadQuery(Serialize(QueryParams(options), encode), decode) == Sent(options)
  {
    var params := QueryParams(options);
    if params != [] {
      ParamsParse(params, encode, decode);
    }
    LookupParams(options);
  }

  /** Parsing a serialized, non-empty list of parameters with plain names gives it back. */
  lemma ParamsParse(params: seq<(string, string)>, encode: string -> string, decode: string -> string)
    requires params != [] && forall p :: p in params ==> p.0 in ["type", "dateFrom", "dateTo"]
    requires forall v :: '&' !in encode(v) && '=' !in encode(v) && decode(encode(v)) == v
    ensures ParseQuery(Serialize(params, encode), decode) == params
  {
    var parts := Map(params, (p: (string, string)) => p.0 + "=" + encode(p.1));
    forall k | 0 <= k < |parts| ensures '&' !in parts[k] && ParsePair(parts[k], decode) == params[k] {
      assert params[k] in params;
      PairParse(params[k].0, params[k].1, encode, decode);
    }
    SplitJoin(parts, '&');
  }

  /** One serialized pair parses back to its name and value. */
  lemma PairParse(name: string, value: string, encode: string -> string, decode: string -> string)
    requires name in ["type", "dateFrom", "dateTo"]
    requires forall v :: '&' !in encode(v) && '=' !in encode(v) && decode(encode(v)) == v
    ensures var part := name + "=" + encode(value);
      '&' !in part && ParsePair(part, decode) == (name, value)
  {
    var part := name + "=" + encode(value);
    assert '&' !in name && '=' !in name;
    assert part == name + ['='] + encode(value);
    IndexAfter(name, encode(value), '=');
    assert part[..|name|] == name;
    assert part[|name| + 1..] == encode(value);
  }

  /** A lookup in a concatenation tries the first part first. */
  lemma {:induction false} LookupAppend(a: seq<(string, string)>, b: seq<(string, string)>, name: string)
    ensures Lookup(a + b, name) == if Lookup(a, name).Some? then Lookup(a, name) else Lookup(b, name)
    decreases |a|
  {
    if a != [] {
      assert (a + b)[1..] == a[1..] + b;
      LookupAppend(a[1..], b, name);
    } else {
      assert a + b == b;
    }
  }

  /** Looking a name up among the parameters gives the value sent under it. */
  lemma LookupParams(options: Option<ArchiveQuery>)
    ensures Lookup(QueryParams(options), "type") == Sent(options).kind
    ensures Lookup(QueryParams(options), "dateFrom") == Sent(options).dateFrom
    ensures Lookup(QueryParams(options), "dateTo") == Sent(options).dateTo
  {
    if options.Some? {
      var o := options.value;
      var a := if TruthyStr(o.kind) then [("type", o.kind.value)] else [];
      var b := if TruthyStr(o.dateFrom) then [("dateFrom", o.dateFrom.value)] else [];
      var c := if TruthyStr(o.dateTo) then [("dateTo", o.dateTo.value)] else [];
      assert QueryParams(options) == a + (b + c);
      LookupAppend(a, b + c, "type");
      LookupAppend(a, b + c, "dateFrom");
      LookupAppend(a, b + c, "dateTo");
      LookupAppend(b, c, "type");
      LookupAppend(b, c, "dateFrom");
      LookupAppend(b, c, "dateTo");
    }
  }

  // ---------------------------------------------------------------------------------------
  // The store

  class AnalyticsStore {
    var analytics: Option<CacheValue>
    var referrerStats: Option<Json>
    var loading: bool

    constructor ()
      ensures analytics.None? && referrerStats.None? && !loading
    {
      analytics := None;
      referrerStats := None;
      loading := false;
    }

    /** `getAnalytics`: sets `analytics` and nothing else. */
    method GetAnalytics(response: Fetched<CacheValue>) returns (r: Result<CacheValue, Option<Json>>)
      modifies this
      ensures !loading && referrerStats == old(referrerStats)
      ensures response.Fetched? ==> r == Ok(response.value) && analytics == Some(response.value)
      ensures response.FetchFailed? ==> r == Err(response.error) && analytics == old(analytics)
    {
      loading := true;
      match response {
      case Fetched(res) =>
        analytics := Some(res);
        r := Ok(res);
      case FetchFailed(err) =>
        r := Err(err);
      }
      loading := false;
    }

    /** `getReferrerStats`: sets `referrerStats` and nothing else (the referrer statistics
        endpoint is not part of this model, so its body is any JSON). */
    method GetReferrerStats(response: Fetched<Json>) returns (r: Result<Json, Option<Json>>)
      modifies this
      ensures !loading && analytics == old(analytics)
      ensures response.Fetched? ==> r == Ok(response.value) && referrerStats == Some(response.value)
      ensures response.FetchFailed? ==> r == Err(response.error) && referrerStats == old(referrerStats)
    {
      loading := true;
      match response {
      case Fetched(res) =>
        referrerStats := Some(res);
        r := Ok(res);
      case FetchFailed(err) =>
        r := Err(err);
      }
      loading := false;
    }

    /** A recording action: sends `body`, changes no data, rethrows a failure. */
    method Send(response: Fetched<()>) returns (r: Result<(), Option<Json>>)
      modifies this`loading
      ensures !loading
      ensures response.Fetched? ==> r == Ok(())
      ensures response.FetchFailed? ==> r == Err(response.error)
    {
      loading := true;
      r := if response.Fetched? then Ok(()) else Err(response.error);
      loading := false;
    }

    /** `recordPageView(userId, referrer)`: the body of a page-view event (an `undefined`
        referrer is left out of the JSON). */
    method RecordPageView(userId: Id, referrer: Option<string>, response: Fetched<()>)
      returns (body: Json, r: Result<(), Option<Json>>)
      modifies this`loading
      ensures !loading
      ensures body == EventBody(AnalyticsEvent(PageViewEvent, userId, referrer, None, None))
      ensures response.Fetched? ==> r == Ok(())
      ensures response.FetchFailed? ==> r == Err(response.error)
    {
      body := EventBody(AnalyticsEvent(PageViewEvent, userId, referrer, None, None));
      r := Send(response);
    }

    /** `recordLinkClick(userId, linkId)`. */
    method RecordLinkClick(userId: Id, linkId: Id, response: Fetched<()>)
      returns (body: Json, r: Result<(), Option<Json>>)
      modifies this`loading
      ensures !loading
      ensures body == EventBody(AnalyticsEvent(LinkEvent, userId, None, None, Some(linkId)))
      ensures response.Fetched? ==> r == Ok(())
      ensures response.FetchFailed? ==> r == Err(response.error)
    {
      body := EventBody(AnalyticsEvent(LinkEvent, userId, None, None, Some(linkId)));
      r := Send(response);
    }

    /** `recordIconClick(userId, iconId)`. */
    method RecordIconClick(userId: Id, iconId: Id, response: Fetched<()>)
      returns (body: Json, r: Result<(), Option<Json>>)
      modifies this`loading
      ensures !loading
      ensures body == EventBody(AnalyticsEvent(IconEvent, userId, None, None, Some(iconId)))
      ensures response.Fetched? ==> r == Ok(())
      ensures response.FetchFailed? ==> r == Err(response.error)
    {
      body := EventBody(AnalyticsEvent(IconEvent, userId, None, None, Some(iconId)));
      r := Send(response);
    }

    /** `submitComment(data)`: the comment is sent as given. */
    method SubmitComment(data: CommentInput, response: Fetched<()>) returns (body: Json, r: Result<(), Option<Json>>)
      modifies this`loading
      ensures !loading
      ensures body == CommentBody(data)
      ensures response.Fetched? ==> r == Ok(())
      ensures response.FetchFailed? ==> r == Err(response.error)
    {
      body := CommentBody(data);
      r := Send(response);
    }

    /** `deleteAnalytics(options)`: the parameters are appended one at a time and the path
        is chosen by whether the query string is empty. */
    method DeleteAnalytics(options: Option<ArchiveQuery>, encode: string -> string, response: Fetched<()>)
      returns (path: string, r: Result<(), Option<Json>>)
      modifies this`loading
      ensures !loading
      ensures path == RequestPath(options, encode)
      ensures response.Fetched? ==> r == Ok(())
      ensures response.FetchFailed? ==> r == Err(response.error)
    {
      loading := true;
      var params: seq<(string, string)> := [];
      if options.Some? && TruthyStr(options.value.kind) {
        params := params + [("type", options.value.kind.value)];
      }
      if options.Some? && TruthyStr(options.value.dateFrom) {
        params := params + [("dateFrom", options.value.dateFrom.value)];
      }
      if options.Some? && TruthyStr(options.value.dateTo) {
        params := params + [("dateTo", options.value.dateTo.value)];
      }
      assert params == QueryParams(options);
      var query := Serialize(params, encode);
      path := if query != "" then BasePath + "?" + query else BasePath;
      r := if response.Fetched? then Ok(()) else Err(response.error);
      loading := false;
    }
  }
}
