/**
 * `GET /api/icons`: the signed-in user's icons in creation order, read through the cache
 * under the same key as `GET /api/social-icons` but with fewer columns.
 */
module IconsRead {
  import opened Wrappers
  import opened Seqs
  import opened Model
  import SocialIconsRead

  function IconTime(i: Icon): int { i.createdAt }

  /** The columns this endpoint selects: no `order` and no `isVisible`. */
  function CreationView(i: Icon): (v: IconView)
    ensures v.id == i.id && v.userId == i.userId && v.url == i.url && v.platform == i.platform
    ensures v.logo == i.logo && v.clickCount == i.clickCount && v.createdAt == i.createdAt
    ensures v.order == None && v.isVisible == None
  {
    IconView(i.id, i.userId, i.url, i.platform, i.logo, None, i.clickCount, None, i.createdAt)
  }

  /** `findMany({ where: { userId }, orderBy: { createdAt: "asc" } })` (lines 15-28). */
  function IconsByCreation(icons: seq<Icon>, userId: Id): (r: seq<IconView>)
    ensures |r| == Count(icons, OwnedIcon(userId))
    ensures forall v :: v in r <==> exists i :: i in icons && i.userId == userId && v == CreationView(i)
    ensures forall j, k :: 0 <= j < k < |r| ==> r[j].createdAt <= r[k].createdAt
  {
    var owned := Filter(icons, OwnedIcon(userId));
    var sorted := SortBy(owned, IconTime);
    SortByMembers(owned, IconTime);
    Map(sorted, CreationView)
  }

  /** The two projections stored under the one icons key list the same icons and differ
      only in `order` and `isVisible` (and in their order): a hit on either endpoint may
      return what the other one stored. */
  lemma SharedKeyProjections(icons: seq<Icon>, userId: Id)
    ensures |IconsByCreation(icons, userId)| == |SocialIconsRead.IconsByOrder(icons, userId)|
    ensures forall v :: v in SocialIconsRead.IconsByOrder(icons, userId) ==>
      v.(order := None, isVisible := None) in IconsByCreation(icons, userId)
    ensures forall v :: v in IconsByCreation(icons, userId) ==>
      exists w :: w in SocialIconsRead.IconsByOrder(icons, userId) && v == w.(order := None, isVisible := None)
  {
    var byOrder := SocialIconsRead.IconsByOrder(icons, userId);
    var byCreation := IconsByCreation(icons, userId);
    forall v | v in byOrder ensures v.(order := None, isVisible := None) in byCreation {
      var i :| i in icons && i.userId == userId && v == SocialIconsRead.OrderedView(i);
      assert v.(order := None, isVisible := None) == CreationView(i);
    }
    forall v | v in byCreation
      ensures exists w :: w in byOrder && v == w.(order := None, isVisible := None)
    {
      var i :| i in icons && i.userId == userId && v == CreationView(i);
      var w := SocialIconsRead.OrderedView(i);
      assert w in byOrder && v == w.(order := None, isVisible := None);
    }
  }

  /** The handler: 401 without a session, the cached value on a hit (whichever endpoint
      stored it), and on a miss the query's result, stored with the short TTL. */
  method GetIcons(b: Backend, session: Option<Id>) returns (r: Result<CacheValue, HttpError>)
    modifies b`cache
    ensures SessionUser(session).Err? ==> r == Err(Unauthorized) && b.cache == old(b.cache)
    ensures SessionUser(session).Ok? ==>
      var key := UserIconsKey(session.value);
      if key in old(b.cache) then r == Ok(old(b.cache)[key].value) && b.cache == old(b.cache)
      else
        && r == Ok(IconsValue(IconsByCreation(b.db.icons, session.value)))
        && b.cache == old(b.cache)[key := CacheEntry(IconsValue(IconsByCreation(b.db.icons, session.value)), Short)]
  {
    var userId :- SessionUser(session);
    var cacheKey := UserIconsKey(userId);
    if cacheKey in b.cache {
      return Ok(b.cache[cacheKey].value);
    }
    var icons := IconsByCreation(b.db.icons, userId);
    b.cache := b.cache[cacheKey := CacheEntry(IconsValue(icons), Short)];
    return Ok(IconsValue(icons));
  }
}
