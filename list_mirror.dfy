/**
 * The updates the client stores make to their local copy of a server list: append the
 * created row, replace the first row with the updated row's id, drop every row with the
 * deleted id.
 */
module ListMirror {
  import opened Seqs

  /** `const index = list.findIndex(x => x.id === id); if (index !== -1) list[index] = x`. */
  function ReplaceFirst<T>(s: seq<T>, key: T -> string, id: string, x: T): (r: seq<T>)
    ensures |r| == |s|
    ensures (forall j :: 0 <= j < |s| ==> key(s[j]) != id) ==> r == s
    ensures forall k :: (0 <= k < |s| && key(s[k]) == id && forall j :: 0 <= j < k ==> key(s[j]) != id) ==> r == s[k := x]
  {
    var k := FindIndex(s, key, id);
    if k == -1 then s else s[k := x]
  }

  /** Only the first row with the id is replaced: a later duplicate keeps its old value. */
  lemma ReplaceFirstOnly<T>(s: seq<T>, key: T -> string, id: string, x: T, j: nat, k: nat)
    requires j < k < |s| && key(s[j]) == id && key(s[k]) == id
    ensures ReplaceFirst(s, key, id, x)[k] == s[k]
  {
    var first := FindIndex(s, key, id);
    assert first <= j;
  }

  function Other<T>(key: T -> string, id: string): T -> bool { (x: T) => key(x) != id }

  /** `list.filter(x => x.id !== id)`. */
  function Remove<T(!new)>(s: seq<T>, key: T -> string, id: string): (r: seq<T>)
    ensures forall x :: x in r <==> x in s && key(x) != id
    ensures |r| <= |s|
  {
    Filter(s, Other(key, id))
  }

  /** Removal works piecewise, so the surviving rows keep their relative order. */
  lemma RemoveKeepsOrder<T(!new)>(a: seq<T>, b: seq<T>, key: T -> string, id: string)
    ensures Remove(a + b, key, id) == Remove(a, key, id) + Remove(b, key, id)
  {
    FilterAppend(a, b, Other(key, id));
  }

  /** A single row survives exactly when its id differs. */
  lemma RemoveSingle<T(!new)>(x: T, key: T -> string, id: string)
    ensures Remove([x], key, id) == if key(x) != id then [x] else []
  {
    FilterCons(x, [], Other(key, id));
    assert [x] == [x] + [];
  }

  /** Removing an absent id changes nothing, and removing twice is removing once. */
  lemma {:induction false} RemoveAbsent<T(!new)>(s: seq<T>, key: T -> string, id: string)
    requires forall x :: x in s ==> key(x) != id
    ensures Remove(s, key, id) == s
    decreases |s|
  {
    if s != [] {
      RemoveAbsent(s[1..], key, id);
      FilterCons(s[0], s[1..], Other(key, id));
      assert s == [s[0]] + s[1..];
    }
  }

  lemma RemoveIdempotent<T(!new)>(s: seq<T>, key: T -> string, id: string)
    ensures Remove(Remove(s, key, id), key, id) == Remove(s, key, id)
  {
    RemoveAbsent(Remove(s, key, id), key, id);
  }
}
