/**
 * Slug generation (server/utils/helpers.ts): the base string is cleaned by a chain of
 * regular-expression replacements, then up to five random candidates are tried against
 * the users table before an unchecked random string is returned.
 */
module Slug {
  import opened Wrappers
  import opened Text
  import opened Seqs
  import opened Model

  /** A combining diacritical mark, U+0300 to U+036F. */
  predicate IsMark(c: char) { '\U{0300}' <= c <= '\U{036F}' }

  /** A character of the regular-expression class `\w` (without the `u` flag). */
  predicate IsWordChar(c: char) {
    ('a' <= c <= 'z') || ('A' <= c <= 'Z') || ('0' <= c <= '9') || c == '_'
  }

  function NotMark(c: char): bool { !IsMark(c) }

  function WordOrHyphen(c: char): bool { IsWordChar(c) || c == '-' }

  function NotHyphen(c: char): bool { c != '-' }

  /** No two adjacent hyphens. */
  predicate NoHyphenRun(s: string) {
    forall i :: 0 <= i < |s| - 1 ==> !(s[i] == '-' && s[i + 1] == '-')
  }

  /** `.replace(/[-\s]+/g, "-")` on a string that no longer holds white space:
      every run of hyphens becomes one hyphen. */
  function CollapseHyphens(s: string): (r: string)
    ensures |r| <= |s|
    ensures NoHyphenRun(r)
    ensures forall c :: c in r ==> c in s
    ensures r != [] ==> (r[0] == '-' <==> s[0] == '-')
    ensures s != [] ==> r != []
    decreases |s|
  {
    if |s| <= 1 then s
    else if s[0] == '-' && s[1] == '-' then CollapseHyphens(s[1..])
    else
      var rest := CollapseHyphens(s[1..]);
      assert forall c :: c in rest ==> c in s;
      [s[0]] + rest
  }

  /** Collapsing removes hyphens only: the other characters stay, in order. */
  lemma {:induction false} CollapseKeepsOthers(s: string)
    ensures Filter(CollapseHyphens(s), NotHyphen) == Filter(s, NotHyphen)
    decreases |s|
  {
    if |s| > 1 {
      CollapseKeepsOthers(s[1..]);
      assert s == [s[0]] + s[1..];
      FilterCons(s[0], s[1..], NotHyphen);
      if !(s[0] == '-' && s[1] == '-') {
        FilterCons(s[0], CollapseHyphens(s[1..]), NotHyphen);
      }
    }
  }

  /** `s` with its leading hyphens removed. */
  function DropLeadingHyphens(s: string): (r: string)
    ensures |r| <= |s| && r == s[|s| - |r|..]
    ensures forall i :: 0 <= i < |s| - |r| ==> s[i] == '-'
    ensures r != [] ==> r[0] != '-'
    decreases |s|
  {
    if s != [] && s[0] == '-' then DropLeadingHyphens(s[1..]) else s
  }

  /** `s` with its trailing hyphens removed. */
  function DropTrailingHyphens(s: string): (r: string)
    ensures |r| <= |s| && r == s[..|r|]
    ensures forall i :: |r| <= i < |s| ==> s[i] == '-'
    ensures r != [] ==> r[|r| - 1] != '-'
    decreases |s|
  {
    if s != [] && s[|s| - 1] == '-' then DropTrailingHyphens(s[..|s| - 1]) else s
  }

  /** `.replace(/^-+|-+$/g, "")`: a slice of `s` without hyphens at either end,
      obtained by dropping hyphens only. */
  function StripHyphens(s: string): (r: string)
    ensures exists i, j :: (0 <= i <= j <= |s| && r == s[i..j]
      && (forall k :: 0 <= k < i ==> s[k] == '-')
      && (forall k :: j <= k < |s| ==> s[k] == '-'))
    ensures r != [] ==> r[0] != '-' && r[|r| - 1] != '-'
  {
    var t := DropLeadingHyphens(s);
    var r := DropTrailingHyphens(t);
    var i := |s| - |t|;
    assert r == s[i..i + |r|];
    r
  }

  /** The cleaned base of a slug: combining marks removed, lower-cased, everything
      but word characters and hyphens removed, hyphen runs collapsed, and hyphens
      stripped from both ends. */
  function CleanBase(base: string): string {
    StripHyphens(CollapseHyphens(Filter(Lower(Filter(base, NotMark)), WordOrHyphen)))
  }

  /** A slice keeps the absence of hyphen runs. */
  lemma SliceNoHyphenRun(s: string, i: int, j: int)
    requires NoHyphenRun(s) && 0 <= i <= j <= |s|
    ensures NoHyphenRun(s[i..j])
  {
    assert forall k :: 0 <= k < j - i ==> s[i..j][k] == s[i + k];
  }

  /** A character a cleaned base may hold: a lower-case letter, a digit, `_` or `-`. */
  predicate SlugChar(c: char) {
    IsLower(c) || ('0' <= c <= '9') || c == '_' || c == '-'
  }

  /** After lower-casing, the characters kept by `.replace(/[^\w-]/g, "")` are slug characters. */
  lemma KeptAreSlugChars(s: string)
    ensures forall c :: c in Filter(Lower(s), WordOrHyphen) ==> SlugChar(c)
  {
    forall c | c in Filter(Lower(s), WordOrHyphen) ensures SlugChar(c) {
      var k :| 0 <= k < |Lower(s)| && Lower(s)[k] == c;
      assert !IsUpper(LowerChar(s[k]));
    }
  }

  /** The cleaned base consists of lower-case letters, digits, `_` and `-`, has no run of
      hyphens and neither starts nor ends with a hyphen. */
  lemma CleanBaseShape(base: string)
    ensures var r := CleanBase(base);
      && (forall c :: c in r ==> SlugChar(c))
      && NoHyphenRun(r)
      && (r != [] ==> r[0] != '-' && r[|r| - 1] != '-')
  {
    var kept := Filter(Lower(Filter(base, NotMark)), WordOrHyphen);
    KeptAreSlugChars(Filter(base, NotMark));
    var collapsed := CollapseHyphens(kept);
    assert forall c :: c in collapsed ==> SlugChar(c);
    StrippedShape(collapsed);
  }

  /** Stripping the outer hyphens keeps the characters and the absence of hyphen runs. */
  lemma StrippedShape(s: string)
    requires NoHyphenRun(s) && forall c :: c in s ==> SlugChar(c)
    ensures var r := StripHyphens(s);
      (forall c :: c in r ==> SlugChar(c)) && NoHyphenRun(r)
  {
    var r := StripHyphens(s);
    var i, j :| 0 <= i <= j <= |s| && r == s[i..j];
    SliceNoHyphenRun(s, i, j);
    assert forall c :: c in r ==> c in s;
  }

  /** A candidate slug: `${cleanedBase}-${randomString}`, or the random string alone when
      the cleaned base is empty. */
  function Candidate(cleaned: string, random: string): string {
    if cleaned != "" then cleaned + "-" + random else random
  }

  /** A slug no user holds (`findUnique({ where: { slug } })` finds nothing). */
  predicate Free(users: seq<User>, slug: string) {
    forall u :: u in users ==> u.slug != slug
  }

  /** The number of attempts before a free candidate: the index of the first free one
      among the five, or 5 when all are taken. */
  function FirstFree(cleaned: string, randoms: seq<string>, users: seq<User>, i: nat): (r: nat)
    requires |randoms| == 6 && i <= 5
    ensures i <= r <= 5
    ensures r < 5 ==> Free(users, Candidate(cleaned, randoms[r]))
    ensures forall k :: i <= k < r ==> !Free(users, Candidate(cleaned, randoms[k]))
    decreases 5 - i
  {
    if i == 5 then 5
    else if Free(users, Candidate(cleaned, randoms[i])) then i
    else
      var r := FirstFree(cleaned, randoms, users, i + 1);
      assert !Free(users, Candidate(cleaned, randoms[i]));
      r
  }

  /** `generateSlug(base)`. `randoms` are the six strings `Math.random()` would yield, in
      order; `lookups` is the number of slug lookups made. */
  method GenerateSlug(base: string, randoms: seq<string>, users: seq<User>)
    returns (slug: string, lookups: nat)
    requires |randoms| == 6
    ensures lookups <= 5
    ensures var n := FirstFree(CleanBase(base), randoms, users, 0);
      && (n < 5 ==> slug == Candidate(CleanBase(base), randoms[n]) && Free(users, slug) && lookups == n + 1)
      && (n == 5 ==> slug == randoms[5] && lookups == 5)
    ensures lookups < 5 ==> Free(users, slug)
  {
    var cleanedBase := CleanBase(base);
    var attempt := 0;
    lookups := 0;
    while attempt < 5
      invariant 0 <= attempt <= 5 && lookups == attempt
      invariant FirstFree(cleanedBase, randoms, users, 0) == FirstFree(cleanedBase, randoms, users, attempt)
    {
      var candidate := Candidate(cleanedBase, randoms[attempt]);
      var existingUser := FindUserBySlug(users, candidate);
      lookups := lookups + 1;
      if existingUser.None? {
        return candidate, lookups;
      }
      attempt := attempt + 1;
    }
    return randoms[5], lookups;
  }
}
