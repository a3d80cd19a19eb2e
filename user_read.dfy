/**
 * `GET /api/user`: the signed-in user's record with its preferences, guestbook comments
 * and page views, read through the cache under the user's data key.
 */
module UserRead {
  import opened Wrappers
  import opened Seqs
  import opened Model

  const UserNotFound := HttpError(404, "User not found")

  function CommentOf(userId: Id): Comment -> bool { (c: Comment) => c.userId == userId }
  function ViewOfUser(userId: Id): PageView -> bool { (v: PageView) => v.userId == userId }

  /** `findUnique({ where: { id }, include: { preferences, comments, views } })` (lines 10-17):
      the user with exactly its own related rows, in table order, or nothing. */
  function UserDataOf(db: Tables, userId: Id): (r: Option<UserData>)
    ensures r.None? <==> forall u :: u in db.users ==> u.id != userId
    ensures r.Some? ==> r.value.user in db.users && r.value.user.id == userId
    ensures r.Some? ==> r.value.preferences == FindPreferences(db.preferences, userId)
    ensures r.Some? ==> forall c :: c in r.value.comments <==> c in db.comments && c.userId == userId
    ensures r.Some? ==> forall v :: v in r.value.views <==> v in db.pageViews && v.userId == userId
    ensures r.Some? ==> forall c :: multiset(r.value.comments)[c] == if c.userId == userId then multiset(db.comments)[c] else 0
    ensures r.Some? ==> forall v :: multiset(r.value.views)[v] == if v.userId == userId then multiset(db.pageViews)[v] else 0
  {
    match FindUser(db.users, userId)
    case None => None
    case Some(u) =>
      assert forall c :: multiset(Filter(db.comments, CommentOf(userId)))[c] == if c.userId == userId then multiset(db.comments)[c] else 0 by {
        forall c { FilterMultiplicity(db.comments, CommentOf(userId), c); }
      }
      assert forall v :: multiset(Filter(db.pageViews, ViewOfUser(userId)))[v] == if v.userId == userId then multiset(db.pageViews)[v] else 0 by {
        forall v { FilterMultiplicity(db.pageViews, ViewOfUser(userId), v); }
      }
      Some(UserData(u, FindPreferences(db.preferences, userId),
        Filter(db.comments, CommentOf(userId)), Filter(db.pageViews, ViewOfUser(userId))))
  }

  /** The handler: 401 without a session, the cached value on a hit, 404 on a miss for a
      user that no longer exists (nothing is cached then), and otherwise the record, stored
      with the short TTL. */
  method GetUser(b: Backend, session: Option<Id>) returns (r: Result<CacheValue, HttpError>)
    modifies b`cache
    ensures SessionUser(session).Err? ==> r == Err(Unauthorized) && b.cache == old(b.cache)
    ensures SessionUser(session).Ok? ==>
      var key := UserDataKey(session.value);
      var found := UserDataOf(b.db, session.value);
      if key in old(b.cache) then r == Ok(old(b.cache)[key].value) && b.cache == old(b.cache)
      else if found.None? then r == Err(UserNotFound) && b.cache == old(b.cache)
      else
        && r == Ok(UserDataValue(found.value))
        && b.cache == old(b.cache)[key := CacheEntry(UserDataValue(found.value), Short)]
  {
    var userId :- SessionUser(session);
    var cacheKey := UserDataKey(userId);
    if cacheKey in b.cache {
      return Ok(b.cache[cacheKey].value);
    }
    var userData := UserDataOf(b.db, userId);
    if userData.None? {
      return Err(UserNotFound);
    }
    b.cache := b.cache[cacheKey := CacheEntry(UserDataValue(userData.value), Short)];
    return Ok(UserDataValue(userData.value));
  }
}
