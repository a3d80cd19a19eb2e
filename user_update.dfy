/**
 * `PUT /api/user`: the signed-in user edits their name, slug and description. A slug
 * held by someone else is refused; the cached profile under both the old and the new
 * slug is dropped.
 */
module UserUpdate {
  import opened Wrappers
  import opened Json
  import opened Seqs
  import opened Model
  import opened Zod

  const SlugTaken := HttpError(409, "This username is already taken. Please choose a different one.")

  /** A body `updateUserSchema` accepted (the schema file is not part of this model, so its
      outcome is an input); an absent field is left unchanged by the update. */
  datatype UserChanges = UserChanges(name: Option<string>, slug: Option<string>, description: Option<string>)

  /** The row after `update({ data: { name, slug, description } })`. */
  function Apply(u: User, c: UserChanges): (r: User)
    ensures r.id == u.id && r.email == u.email && r.image == u.image && r.createdAt == u.createdAt
    ensures r.name == (if c.name.Some? then c.name else u.name)
    ensures r.slug == c.slug.GetOr(u.slug)
    ensures r.description == (if c.description.Some? then c.description else u.description)
  {
    User(u.id, u.email, if c.name.Some? then c.name else u.name, c.slug.GetOr(u.slug),
      if c.description.Some? then c.description else u.description, u.image, u.createdAt)
  }

  /** The slug uniqueness check runs only for a truthy slug that differs from the old one
      (line 21); the old slug of a missing user is `undefined`. */
  predicate ChecksSlug(previous: Option<User>, c: UserChanges) {
    TruthyStr(c.slug) && (previous.None? || c.slug.value != previous.value.slug)
  }

  /** Another user holds `slug`. */
  predicate HeldByOther(users: seq<User>, userId: Id, slug: string) {
    exists u :: u in users && u.id != userId && u.slug == slug
  }

  /** The guards and the update of lines 7-47. The update itself fails (a missing row, or
      the unique slug index refusing an empty slug another user holds) as a store error. */
  function Plan(db: Tables, session: Option<Id>, parsed: Result<UserChanges, string>): (r: Result<User, HttpError>)
    ensures SessionUser(session).Err? ==> r == Err(Unauthorized)
    ensures TruthyStr(session) && parsed.Err? ==> r == Err(HttpError(400, StatusText(parsed.error)))
    ensures (TruthyStr(session) && parsed.Ok? && ChecksSlug(FindUser(db.users, session.value), parsed.value)
      && FindUserBySlug(db.users, parsed.value.slug.value).Some?) ==> r == Err(SlugTaken)
    ensures r.Ok? ==> (TruthyStr(session) && parsed.Ok?
      && FindUser(db.users, session.value).Some?
      && r.value == Apply(FindUser(db.users, session.value).value, parsed.value)
      && !HeldByOther(db.users, session.value, r.value.slug))
  {
    var userId :- SessionUser(session);
    var changes :- match parsed
      case Err(message) => Err(HttpError(400, StatusText(message)))
      case Ok(c) => Ok(c);
    var previous := FindUser(db.users, userId);
    if ChecksSlug(previous, changes) && FindUserBySlug(db.users, changes.slug.value).Some? then Err(SlugTaken)
    else if previous.None? then Err(StoreFailure)
    else if HeldByOther(db.users, userId, Apply(previous.value, changes).slug) then Err(StoreFailure)
    else Ok(Apply(previous.value, changes))
  }

  /** A slug that is omitted, or equal to the current one, is never refused as taken. */
  lemma UnchangedSlugNotChecked(db: Tables, session: Option<Id>, c: UserChanges)
    requires WellFormed(db) && TruthyStr(session) && FindUser(db.users, session.value).Some?
    requires c.slug.None? || c.slug == Some(FindUser(db.users, session.value).value.slug)
    ensures Plan(db, session, Ok(c)) == Ok(Apply(FindUser(db.users, session.value).value, c))
  {
    var u := FindUser(db.users, session.value).value;
    if HeldByOther(db.users, session.value, Apply(u, c).slug) {
      var v :| v in db.users && v.id != session.value && v.slug == Apply(u, c).slug;
      DistinctSame(db.users, UserSlug, u, v);
    }
  }

  /** `users` with the row of `updated.id` replaced. */
  function Replace(users: seq<User>, updated: User): (r: seq<User>)
    ensures |r| == |users|
    ensures forall k :: 0 <= k < |users| ==> r[k] == if users[k].id == updated.id then updated else users[k]
  {
    seq(|users|, k requires 0 <= k < |users| => if users[k].id == updated.id then updated else users[k])
  }

  /** Replacing a user by a row with the same id and a slug no other user holds keeps ids
      and slugs unique, and changes no other user. */
  lemma ReplaceWellFormed(db: Tables, updated: User)
    requires WellFormed(db) && !HeldByOther(db.users, updated.id, updated.slug)
    ensures WellFormed(db.(users := Replace(db.users, updated)))
    ensures forall u :: u in db.users && u.id != updated.id ==> u in Replace(db.users, updated)
    ensures forall u :: u in Replace(db.users, updated) && u.id != updated.id ==> u in db.users
  {
    var users := Replace(db.users, updated);
    forall i, j | 0 <= i < j < |users| ensures users[i].id != users[j].id && users[i].slug != users[j].slug {
      assert db.users[i].id != db.users[j].id;
      assert db.users[i].slug != db.users[j].slug;
      if db.users[i].id == updated.id {
        assert db.users[j] in db.users;
      } else if db.users[j].id == updated.id {
        assert db.users[i] in db.users;
      }
    }
    forall u | u in db.users && u.id != updated.id ensures u in users {
      var k :| 0 <= k < |db.users| && db.users[k] == u;
      assert users[k] == u;
    }
  }

  /** The cache keys the handler deletes: the user's data and the profile under the old and
      the new slug. */
  function UpdateKeys(userId: Id, oldSlug: string, newSlug: string): set<CacheKey> {
    {UserDataKey(userId), UserProfileKey(oldSlug), UserProfileKey(newSlug)}
  }

  /** `user.update` and the invalidation of the three keys. */
  method StoreUser(b: Backend, updated: User, oldSlug: string)
    requires b.Valid() && !HeldByOther(b.db.users, updated.id, updated.slug)
    modifies b
    ensures b.Valid() && b.storage == old(b.storage)
    ensures b.db == old(b.db).(users := Replace(old(b.db.users), updated))
    ensures b.cache == old(b.cache) - UpdateKeys(updated.id, oldSlug, updated.slug)
  {
    ReplaceWellFormed(b.db, updated);
    b.db := b.db.(users := Replace(b.db.users, updated));
    b.Invalidate({UserDataKey(updated.id), UserProfileKey(oldSlug), UserProfileKey(updated.slug)});
  }

  /** The handler. `parsed` is the outcome of `updateUserSchema.safeParse(body)`. */
  method UpdateUser(b: Backend, session: Option<Id>, parsed: Result<UserChanges, string>) returns (r: Result<User, HttpError>)
    requires b.Valid()
    modifies b
    ensures b.Valid() && b.storage == old(b.storage)
    ensures var p := Plan(old(b.db), session, parsed);
      && (p.Err? ==> r == Err(p.error) && b.db == old(b.db) && b.cache == old(b.cache))
      && (p.Ok? ==> (r == p
            && b.db == old(b.db).(users := Replace(old(b.db.users), p.value))
            && b.cache == old(b.cache) - UpdateKeys(p.value.id, ProfileSlug(old(b.db), p.value.id), p.value.slug)))
  {
    var userId :- SessionUser(session);
    if parsed.Err? {
      return Err(HttpError(400, StatusText(parsed.error)));
    }
    var changes := parsed.value;
    var oldUser := FindUser(b.db.users, userId);
    if ChecksSlug(oldUser, changes) {
      var existingUser := FindUserBySlug(b.db.users, changes.slug.value);
      if existingUser.Some? {
        return Err(SlugTaken);
      }
    }
    if oldUser.None? {
      return Err(StoreFailure);
    }
    var updatedUser := Apply(oldUser.value, changes);
    if HeldByOther(b.db.users, userId, updatedUser.slug) {
      return Err(StoreFailure);
    }
    assert Plan(b.db, session, parsed) == Ok(updatedUser);
    StoreUser(b, updatedUser, oldUser.value.slug);
    return Ok(updatedUser);
  }
}
