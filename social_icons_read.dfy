/**
 * `GET /api/social-icons`: the signed-in user's icons in their display order, behind a
 * per-user rate limit and read through the cache under the user's icons key.
 */
module SocialIconsRead {
  import opened Wrappers
  import opened Seqs
  import opened Model

  /** The limiter's parameters (200 requests per hour per user); its counting is not modelled. */
  const RateLimit: nat := 200
  const RateWindowMs: nat := 60 * 60 * 1000

  function IconOrder(i: Icon): int { i.order }

  /** The columns this endpoint selects, `order` and `isVisible` included. */
  function OrderedView(i: Icon): (v: IconView)
    ensures v.id == i.id && v.userId == i.userId && v.url == i.url && v.platform == i.platform
    ensures v.logo == i.logo && v.clickCount == i.clickCount && v.createdAt == i.createdAt
    ensures v.order == Some(i.order) && v.isVisible == Some(i.isVisible)
  {
    IconView(i.id, i.userId, i.url, i.platform, i.logo, Some(i.order), i.clickCount, Some(i.isVisible), i.createdAt)
  }

  /** `findMany({ where: { userId }, orderBy: { order: "asc" } })` (lines 13-28): one view per
      icon of the user, none of anyone else's, in ascending `order`. */
  function IconsByOrder(icons: seq<Icon>, userId: Id): (r: seq<IconView>)
    ensures |r| == Count(icons, OwnedIcon(userId))
    ensures forall v :: v in r <==> exists i :: i in icons && i.userId == userId && v == OrderedView(i)
    ensures forall k :: 0 <= k < |r| ==> r[k].order.Some?
    ensures forall j, k :: 0 <= j < k < |r| ==> r[j].order.value <= r[k].order.value
  {
    var owned := Filter(icons, OwnedIcon(userId));
    var sorted := SortBy(owned, IconOrder);
    SortByMembers(owned, IconOrder);
    Map(sorted, OrderedView)
  }

  /** The handler: 401 without a session, 429 when the limiter refuses (before the cache is
      consulted), the cached value on a hit, and on a miss the query's result, stored with the
      short TTL. `allowed` is the limiter's verdict. */
  method GetSocialIcons(b: Backend, session: Option<Id>, allowed: bool) returns (r: Result<CacheValue, HttpError>)
    modifies b`cache
    ensures SessionUser(session).Err? ==> r == Err(Unauthorized) && b.cache == old(b.cache)
    ensures SessionUser(session).Ok? && !allowed ==> r == Err(TooManyRequests) && b.cache == old(b.cache)
    ensures SessionUser(session).Ok? && allowed ==>
      var key := UserIconsKey(session.value);
      if key in old(b.cache) then r == Ok(old(b.cache)[key].value) && b.cache == old(b.cache)
      else
        && r == Ok(IconsValue(IconsByOrder(b.db.icons, session.value)))
        && b.cache == old(b.cache)[key := CacheEntry(IconsValue(IconsByOrder(b.db.icons, session.value)), Short)]
  {
    var userId :- SessionUser(session);
    if !allowed {
      return Err(TooManyRequests);
    }
    var cacheKey := UserIconsKey(userId);
    if cacheKey in b.cache {
      return Ok(b.cache[cacheKey].value);
    }
    var icons := IconsByOrder(b.db.icons, userId);
    b.cache := b.cache[cacheKey := CacheEntry(IconsValue(icons), Short)];
    return Ok(IconsValue(icons));
  }
}
