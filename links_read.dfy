/**
 * `GET /api/links`: the signed-in user's links in creation order, read through the cache
 * under the user's links key.
 */
module LinksRead {
  import opened Wrappers
  import opened Seqs
  import opened Model

  function LinkTime(l: Link): int { l.createdAt }

  /** The columns the query selects. */
  function ViewOf(l: Link): (v: LinkView)
    ensures v.id == l.id && v.userId == l.userId && v.url == l.url && v.title == l.title
    ensures v.clickCount == l.clickCount && v.createdAt == l.createdAt
  {
    LinkView(l.id, l.userId, l.url, l.title, l.clickCount, l.createdAt)
  }

  /** `findMany({ where: { userId }, orderBy: { createdAt: "asc" } })` (lines 10-22). */
  function LinksOf(links: seq<Link>, userId: Id): (r: seq<LinkView>)
    ensures |r| == Count(links, OwnedLink(userId))
    ensures forall v :: v in r <==> exists l :: l in links && l.userId == userId && v == ViewOf(l)
    ensures forall j, k :: 0 <= j < k < |r| ==> r[j].createdAt <= r[k].createdAt
  {
    var owned := Filter(links, OwnedLink(userId));
    var sorted := SortBy(owned, LinkTime);
    SortByMembers(owned, LinkTime);
    Map(sorted, ViewOf)
  }

  /** The handler: 401 without a session, the cached value on a hit, and on a miss the
      query's result, stored with the short TTL. */
  method GetLinks(b: Backend, session: Option<Id>) returns (r: Result<CacheValue, HttpError>)
    modifies b`cache
    ensures SessionUser(session).Err? ==> r == Err(Unauthorized) && b.cache == old(b.cache)
    ensures SessionUser(session).Ok? ==>
      var key := UserLinksKey(session.value);
      if key in old(b.cache) then r == Ok(old(b.cache)[key].value) && b.cache == old(b.cache)
      else
        && r == Ok(LinksValue(LinksOf(b.db.links, session.value)))
        && b.cache == old(b.cache)[key := CacheEntry(LinksValue(LinksOf(b.db.links, session.value)), Short)]
  {
    var userId :- SessionUser(session);
    var cacheKey := UserLinksKey(userId);
    if cacheKey in b.cache {
      return Ok(b.cache[cacheKey].value);
    }
    var links := LinksOf(b.db.links, userId);
    b.cache := b.cache[cacheKey := CacheEntry(LinksValue(links), Short)];
    return Ok(LinksValue(links));
  }
}
