/**
 * `PUT /api/user/preferences`: the signed-in user updates their preferences row with the
 * validated fields.
 */
module PreferencesUpdate {
  import opened Wrappers
  import opened Json
  import opened Seqs
  import opened Model
  import opened Zod

  /** The row after `update({ where: { userId }, data })`: the given columns overwritten,
      the others kept. */
  function Apply(p: Preferences, data: map<string, Json>): (r: Preferences)
    ensures r.userId == p.userId
    ensures forall k :: k in data ==> k in r.fields && r.fields[k] == data[k]
    ensures forall k :: k !in data && k in p.fields ==> k in r.fields && r.fields[k] == p.fields[k]
    ensures r.fields.Keys == p.fields.Keys + data.Keys
  {
    Preferences(p.userId, p.fields + data)
  }

  /** The guards and the update of lines 7-17; a user without a preferences row makes the
      update throw. `parsed` is the outcome of `updateUserPreferencesSchema.safeParse(body)`
      (the schema file is not part of this model). */
  function Plan(db: Tables, session: Option<Id>, parsed: Result<map<string, Json>, string>): (r: Result<Preferences, HttpError>)
    ensures SessionUser(session).Err? ==> r == Err(Unauthorized)
    ensures TruthyStr(session) && parsed.Err? ==> r == Err(HttpError(400, StatusText(parsed.error)))
    ensures TruthyStr(session) && parsed.Ok? ==>
      (r == Err(StoreFailure) <==> forall p :: p in db.preferences ==> p.userId != session.value)
    ensures r.Ok? ==> (TruthyStr(session) && parsed.Ok?
      && r.value == Apply(FindPreferences(db.preferences, session.value).value, parsed.value))
  {
    var userId :- SessionUser(session);
    var data :- match parsed
      case Err(message) => Err(HttpError(400, StatusText(message)))
      case Ok(d) => Ok(d);
    match FindPreferences(db.preferences, userId)
    case None => Err(StoreFailure)
    case Some(p) => Ok(Apply(p, data))
  }

  /** `preferences` with the row of `updated.userId` replaced. */
  function Replace(prefs: seq<Preferences>, updated: Preferences): (r: seq<Preferences>)
    ensures |r| == |prefs|
    ensures forall k :: 0 <= k < |prefs| ==> r[k] == if prefs[k].userId == updated.userId then updated else prefs[k]
  {
    seq(|prefs|, k requires 0 <= k < |prefs| => if prefs[k].userId == updated.userId then updated else prefs[k])
  }

  /** Only the acting user's row changes, and afterwards it is the updated row. */
  lemma ReplaceScope(db: Tables, updated: Preferences)
    requires WellFormed(db) && FindPreferences(db.preferences, updated.userId).Some?
    ensures WellFormed(db.(preferences := Replace(db.preferences, updated)))
    ensures FindPreferences(Replace(db.preferences, updated), updated.userId) == Some(updated)
    ensures forall p :: p in db.preferences && p.userId != updated.userId ==> p in Replace(db.preferences, updated)
    ensures forall p :: p in Replace(db.preferences, updated) && p.userId != updated.userId ==> p in db.preferences
  {
    var prefs := Replace(db.preferences, updated);
    ReplacedWellFormed(db, updated);
    ReplacedFound(db.preferences, updated);
    forall p | p in db.preferences && p.userId != updated.userId ensures p in prefs {
      var j :| 0 <= j < |db.preferences| && db.preferences[j] == p;
      assert prefs[j] == p;
    }
  }

  /** Replacing a row keeps the user ids of the rows, hence the store well formed. */
  lemma ReplacedWellFormed(db: Tables, updated: Preferences)
    requires WellFormed(db)
    ensures WellFormed(db.(preferences := Replace(db.preferences, updated)))
  {
    var prefs := Replace(db.preferences, updated);
    assert forall k :: 0 <= k < |prefs| ==> prefs[k].userId == db.preferences[k].userId;
    assert Distinct(prefs, PrefsKey);
  }

  /** The lookup after the replacement finds the new row. */
  lemma ReplacedFound(prefs: seq<Preferences>, updated: Preferences)
    requires Distinct(prefs, PrefsKey) && FindPreferences(prefs, updated.userId).Some?
    ensures FindPreferences(Replace(prefs, updated), updated.userId) == Some(updated)
  {
    var after := Replace(prefs, updated);
    assert forall k :: 0 <= k < |after| ==> after[k].userId == prefs[k].userId;
    assert Distinct(after, PrefsKey);
    var current := FindPreferences(prefs, updated.userId).value;
    var k :| 0 <= k < |prefs| && prefs[k] == current;
    assert after[k] == updated;
    DistinctSame(after, PrefsKey, FindPreferences(after, updated.userId).value, updated);
  }

  /** The cache keys the handler deletes: the user's data and the profile. */
  function UpdateKeys(db: Tables, userId: Id): set<CacheKey> {
    {UserDataKey(userId), UserProfileKey(ProfileSlug(db, userId))}
  }

  /** `userPreferences.update` and the invalidation of the two keys. */
  method StorePreferences(b: Backend, updated: Preferences)
    requires b.Valid() && FindPreferences(b.db.preferences, updated.userId).Some?
    modifies b
    ensures b.Valid() && b.storage == old(b.storage)
    ensures b.db == old(b.db).(preferences := Replace(old(b.db.preferences), updated))
    ensures b.cache == old(b.cache) - UpdateKeys(old(b.db), updated.userId)
  {
    var keys := UpdateKeys(b.db, updated.userId);
    var next := b.db.(preferences := Replace(b.db.preferences, updated));
    ReplacedWellFormed(b.db, updated);
    b.db := next;
    b.Invalidate(keys);
  }

  /** The handler; it returns the updated row. */
  method UpdatePreferences(b: Backend, session: Option<Id>, parsed: Result<map<string, Json>, string>)
    returns (r: Result<Preferences, HttpError>)
    requires b.Valid()
    modifies b
    ensures b.Valid() && b.storage == old(b.storage)
    ensures var p := Plan(old(b.db), session, parsed);
      && (p.Err? ==> r == Err(p.error) && b.db == old(b.db) && b.cache == old(b.cache))
      && (p.Ok? ==> (r == p
            && b.db == old(b.db).(preferences := Replace(old(b.db.preferences), p.value))
            && b.cache == old(b.cache) - UpdateKeys(old(b.db), p.value.userId)))
  {
    var userId :- SessionUser(session);
    if parsed.Err? {
      return Err(HttpError(400, StatusText(parsed.error)));
    }
    var current := FindPreferences(b.db.preferences, userId);
    if current.None? {
      return Err(StoreFailure);
    }
    var updated := Apply(current.value, parsed.value);
    assert Plan(b.db, session, parsed) == Ok(updated);
    StorePreferences(b, updated);
    return Ok(updated);
  }
}
