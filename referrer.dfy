/**
 * Referrer classification and source labels (server/utils/helpers.ts): the persisted
 * `source` of a page view is the first entry of an ordered substring table that the
 * lower-cased, trimmed referrer matches.
 */
module Referrer {
  import opened Wrappers
  import opened Text

  /** The ordered classification table: (substring patterns, source name). */
  const Sources: seq<(seq<string>, string)> := [
    (["facebook.com", "fb.com", "fb.me", "fbcdn.net"], "facebook"),
    (["twitter.com", "x.com", "t.co"], "twitter"),
    (["instagram.com", "ig.me"], "instagram"),
    (["linkedin.com", "lnkd.in"], "linkedin"),
    (["reddit.com", "redd.it"], "reddit"),
    (["tiktok.com"], "tiktok"),
    (["pinterest.com", "pin.it"], "pinterest"),
    (["youtube.com", "youtu.be"], "youtube"),
    (["whatsapp.com", "wa.me"], "whatsapp"),
    (["telegram.org", "t.me"], "telegram"),
    (["discord.com", "discord.gg"], "discord"),
    (["mastodon"], "mastodon"),
    (["bluesky.social", "bsky.app"], "bluesky"),
    (["google."], "google"),
    (["bing.com", "bing."], "bing"),
    (["yahoo.com", "yahoo."], "yahoo"),
    (["duckduckgo.com"], "duckduckgo"),
    (["yandex.com", "yandex.ru", "yandex."], "yandex"),
    (["slack.com"], "slack"),
    (["teams.microsoft.com"], "teams"),
    (["github.com"], "github"),
    (["gitlab.com"], "gitlab"),
    (["medium.com"], "medium"),
    (["substack.com"], "substack")
  ]

  /** The source names of the table. */
  function SourceNames(): set<string> {
    set k | 0 <= k < |Sources| :: Sources[k].1
  }

  /** `patterns.some(pattern => norm.includes(pattern))`. */
  predicate AnyContained(norm: string, patterns: seq<string>) {
    exists p :: p in patterns && Contains(norm, p)
  }

  /** Entry `k` of the table matches the normalised referrer. */
  predicate EntryMatches(norm: string, k: int)
    requires 0 <= k < |Sources|
  {
    AnyContained(norm, Sources[k].0)
  }

  /** Entry `k` is the first entry that matches. */
  ghost predicate FirstMatch(norm: string, k: int) {
    0 <= k < |Sources| && EntryMatches(norm, k)
    && forall j :: 0 <= j < k ==> !EntryMatches(norm, j)
  }

  /** The loop over the table from entry `i` on: the first matching entry, if any. */
  function FindSource(norm: string, i: nat): (r: Option<nat>)
    requires i <= |Sources|
    ensures r.Some? ==> (i <= r.value < |Sources| && EntryMatches(norm, r.value)
      && forall j :: i <= j < r.value ==> !EntryMatches(norm, j))
    ensures r.None? ==> forall j :: i <= j < |Sources| ==> !EntryMatches(norm, j)
    decreases |Sources| - i
  {
    if i == |Sources| then None
    else if AnyContained(norm, Sources[i].0) then Some(i)
    else FindSource(norm, i + 1)
  }

  /** `referrer.toLowerCase().trim()`. */
  function Normalize(referrer: string): string {
    Trim(Lower(referrer))
  }

  /** `process.env.NUXT_PUBLIC_BASE_URL?.toLowerCase() || ""`: the service's own origin. */
  function Needle(baseUrl: Option<string>): string {
    if baseUrl.Some? then Lower(baseUrl.value) else ""
  }

  /** A referrer that is missing or white space only. */
  predicate NoReferrer(referrer: Option<string>) {
    referrer.None? || Trim(referrer.value) == ""
  }

  /** `categorizeReferrer`: "direct" for no referrer or a same-origin one, else the name of
      the first matching table entry (see `ClassifiedByFirstMatch`), else "unknown". */
  function CategorizeReferrer(referrer: Option<string>, baseUrl: Option<string>): (r: string)
    ensures r == "direct" || r == "unknown" || r in SourceNames()
    ensures NoReferrer(referrer) ==> r == "direct"
    ensures !NoReferrer(referrer) && Contains(Normalize(referrer.value), Needle(baseUrl)) ==> r == "direct"
    ensures !NoReferrer(referrer) && baseUrl.None? ==> r == "direct"
  {
    if NoReferrer(referrer) then "direct"
    else
      var norm := Normalize(referrer.value);
      ContainsEmpty(norm);
      if Contains(norm, Needle(baseUrl)) then "direct"
      else
        match FindSource(norm, 0)
        case Some(k) => Sources[k].1
        case None => "unknown"
  }

  /** At most one entry is the first match. */
  lemma FirstMatchUnique(norm: string, j: int, k: int)
    requires FirstMatch(norm, j) && FirstMatch(norm, k)
    ensures j == k
  {
  }

  /** The table search stops at the first matching entry. */
  lemma FindSourceFindsFirst(norm: string, k: int)
    requires FirstMatch(norm, k)
    ensures FindSource(norm, 0) == Some(k)
  {
    match FindSource(norm, 0)
    case Some(j) => FirstMatchUnique(norm, j, k);
    case None =>
  }

  /** A referrer from elsewhere is classified by the first table entry it matches:
      table order decides between entries that both match. */
  lemma ClassifiedByFirstMatch(referrer: string, baseUrl: Option<string>, k: int)
    requires !NoReferrer(Some(referrer)) && !Contains(Normalize(referrer), Needle(baseUrl))
    requires FirstMatch(Normalize(referrer), k)
    ensures CategorizeReferrer(Some(referrer), baseUrl) == Sources[k].1
  {
    FindSourceFindsFirst(Normalize(referrer), k);
  }

  /** A referrer from elsewhere is "unknown" exactly when no table entry matches it. */
  lemma UnknownIffNoEntryMatches(referrer: string, baseUrl: Option<string>)
    requires !NoReferrer(Some(referrer)) && !Contains(Normalize(referrer), Needle(baseUrl))
    ensures CategorizeReferrer(Some(referrer), baseUrl) == "unknown"
      <==> forall k :: 0 <= k < |Sources| ==> !EntryMatches(Normalize(referrer), k)
  {
    var norm := Normalize(referrer);
    match FindSource(norm, 0)
    case Some(k) =>
      assert Sources[k].1 != "unknown" by { SourceIsNamed(k); }
    case None =>
  }

  /** No table entry is named "direct" or "unknown". */
  lemma SourceIsNamed(k: int)
    requires 0 <= k < |Sources|
    ensures Sources[k].1 != "unknown" && Sources[k].1 != "direct"
  {
  }

  /** The human-readable label of each known source. */
  const Labels: map<string, string> := map[
    "direct" := "Direct", "facebook" := "Facebook", "twitter" := "Twitter/X",
    "instagram" := "Instagram", "linkedin" := "LinkedIn", "reddit" := "Reddit",
    "tiktok" := "TikTok", "youtube" := "YouTube", "pinterest" := "Pinterest",
    "whatsapp" := "WhatsApp", "telegram" := "Telegram", "discord" := "Discord",
    "mastodon" := "Mastodon", "bluesky" := "Bluesky", "google" := "Google",
    "bing" := "Bing", "yahoo" := "Yahoo", "duckduckgo" := "DuckDuckGo",
    "yandex" := "Yandex", "slack" := "Slack", "teams" := "Microsoft Teams",
    "github" := "GitHub", "gitlab" := "GitLab", "medium" := "Medium",
    "substack" := "Substack", "unknown" := "Unknown"
  ]

  /** `formatSourceLabel`: "Unknown" for no source, the table label of a known source,
      else the normalised source with its first character upper-cased. */
  function FormatSourceLabel(source: Option<string>): (r: string)
    ensures NoReferrer(source) ==> r == "Unknown"
    ensures !NoReferrer(source) && Normalize(source.value) in Labels ==> r == Labels[Normalize(source.value)]
    ensures !NoReferrer(source) && Normalize(source.value) !in Labels ==>
      var norm := Normalize(source.value);
      norm != [] && r == [UpperChar(norm[0])] + norm[1..]
  {
    if NoReferrer(source) then "Unknown"
    else
      var norm := Normalize(source.value);
      LowerKeepsBlank(source.value);
      if norm in Labels then Labels[norm] else [UpperChar(norm[0])] + norm[1..]
  }

  /** Lower-casing neither creates nor removes white space. */
  lemma LowerKeepsBlank(s: string)
    ensures Blank(Lower(s)) <==> Blank(s)
  {
    if Blank(Lower(s)) {
      forall i | 0 <= i < |s| ensures IsSpace(s[i]) {
        assert IsSpace(Lower(s)[i]);
      }
    }
  }
}
