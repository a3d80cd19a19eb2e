/**
 * `GET /api/analytics`: the signed-in user's page views, link clicks and icon clicks,
 * newest first, read through the cache under the user's analytics key.
 */
module AnalyticsRead {
  import opened Wrappers
  import opened Seqs
  import opened Model

  function OwnedPageView(userId: Id): PageView -> bool { (v: PageView) => v.userId == userId }

  function LinkRowTime(row: LinkClickRow): int { row.click.createdAt }
  function IconRowTime(row: IconClickRow): int { row.click.createdAt }

  /** `where: { userLink: { userId } }`: a click whose link belongs to the user. */
  function OnUserLink(links: seq<Link>, userId: Id): LinkClick -> bool {
    (c: LinkClick) => FindLink(links, c.userLinkId).Some? && FindLink(links, c.userLinkId).value.userId == userId
  }

  /** `r` lists the clicks on the user's links, each once and in table order, each with its link. */
  ghost predicate ExactLinkJoin(r: seq<LinkClickRow>, clicks: seq<LinkClick>, links: seq<Link>, userId: Id) {
    var owned := Filter(clicks, OnUserLink(links, userId));
    && |r| == |owned|
    && forall k :: 0 <= k < |r| ==> r[k].click == owned[k] && FindLink(links, r[k].click.userLinkId) == Some(r[k].link)
  }

  /** One step of the join keeps it exact. */
  lemma LinkJoinStep(c: LinkClick, tail: seq<LinkClick>, rest: seq<LinkClickRow>, links: seq<Link>, userId: Id)
    requires ExactLinkJoin(rest, tail, links, userId)
    ensures ExactLinkJoin(if OnUserLink(links, userId)(c) then [LinkClickRow(c, FindLink(links, c.userLinkId).value)] + rest else rest,
      [c] + tail, links, userId)
  {
    var owns := OnUserLink(links, userId);
    FilterCons(c, tail, owns);
    var owned := Filter(tail, owns);
    if owns(c) {
      var r := [LinkClickRow(c, FindLink(links, c.userLinkId).value)] + rest;
      assert Filter([c] + tail, owns) == [c] + owned;
      forall k | 0 <= k < |r| ensures r[k].click == ([c] + owned)[k] && FindLink(links, r[k].click.userLinkId) == Some(r[k].link) {
        if k > 0 {
          assert r[k] == rest[k - 1] && ([c] + owned)[k] == owned[k - 1];
        }
      }
    } else {
      assert Filter([c] + tail, owns) == owned;
    }
  }

  /** `where: { userIcon: { userId } }`: a click whose icon belongs to the user. */
  function OnUserIcon(icons: seq<Icon>, userId: Id): IconClick -> bool {
    (c: IconClick) => FindIcon(icons, c.userIconId).Some? && FindIcon(icons, c.userIconId).value.userId == userId
  }

  /** `r` lists the clicks on the user's icons, each once and in table order, each with its icon. */
  ghost predicate ExactIconJoin(r: seq<IconClickRow>, clicks: seq<IconClick>, icons: seq<Icon>, userId: Id) {
    var owned := Filter(clicks, OnUserIcon(icons, userId));
    && |r| == |owned|
    && forall k :: 0 <= k < |r| ==> r[k].click == owned[k] && FindIcon(icons, r[k].click.userIconId) == Some(r[k].icon)
  }

  /** One step of the join keeps it exact. */
  lemma IconJoinStep(c: IconClick, tail: seq<IconClick>, rest: seq<IconClickRow>, icons: seq<Icon>, userId: Id)
    requires ExactIconJoin(rest, tail, icons, userId)
    ensures ExactIconJoin(if OnUserIcon(icons, userId)(c) then [IconClickRow(c, FindIcon(icons, c.userIconId).value)] + rest else rest,
      [c] + tail, icons, userId)
  {
    var owns := OnUserIcon(icons, userId);
    FilterCons(c, tail, owns);
    var owned := Filter(tail, owns);
    if owns(c) {
      var r := [IconClickRow(c, FindIcon(icons, c.userIconId).value)] + rest;
      assert Filter([c] + tail, owns) == [c] + owned;
      forall k | 0 <= k < |r| ensures r[k].click == ([c] + owned)[k] && FindIcon(icons, r[k].click.userIconId) == Some(r[k].icon) {
        if k > 0 {
          assert r[k] == rest[k - 1] && ([c] + owned)[k] == owned[k - 1];
        }
      }
    } else {
      assert Filter([c] + tail, owns) == owned;
    }
  }

  /** `where: { userLink: { userId } }, include: { userLink: true }`: the clicks on the
      user's links joined with their links. */
  function JoinLinkClicks(clicks: seq<LinkClick>, links: seq<Link>, userId: Id): (r: seq<LinkClickRow>)
    ensures ExactLinkJoin(r, clicks, links, userId)
    ensures forall row :: row in r <==>
      row.click in clicks && FindLink(links, row.click.userLinkId) == Some(row.link) && row.link.userId == userId
  {
    if clicks == [] then []
    else
      var c := clicks[0];
      var rest := JoinLinkClicks(clicks[1..], links, userId);
      assert clicks == [c] + clicks[1..];
      LinkJoinStep(c, clicks[1..], rest, links, userId);
      if OnUserLink(links, userId)(c) then [LinkClickRow(c, FindLink(links, c.userLinkId).value)] + rest else rest
  }

  /** The clicks on the user's icons joined with their icons. */
  function JoinIconClicks(clicks: seq<IconClick>, icons: seq<Icon>, userId: Id): (r: seq<IconClickRow>)
    ensures ExactIconJoin(r, clicks, icons, userId)
    ensures forall row :: row in r <==>
      row.click in clicks && FindIcon(icons, row.click.userIconId) == Some(row.icon) && row.icon.userId == userId
  {
    if clicks == [] then []
    else
      var c := clicks[0];
      var rest := JoinIconClicks(clicks[1..], icons, userId);
      assert clicks == [c] + clicks[1..];
      IconJoinStep(c, clicks[1..], rest, icons, userId);
      if OnUserIcon(icons, userId)(c) then [IconClickRow(c, FindIcon(icons, c.userIconId).value)] + rest else rest
  }

  /** `orderBy: { createdAt: "desc" }` on the user's page views. */
  function PageViewsOf(db: Tables, userId: Id): (r: seq<PageView>)
    ensures multiset(r) == multiset(Filter(db.pageViews, OwnedPageView(userId)))
    ensures forall v :: v in r <==> v in db.pageViews && v.userId == userId
    ensures forall j, k :: 0 <= j < k < |r| ==> r[j].createdAt >= r[k].createdAt
  {
    var owned := Filter(db.pageViews, OwnedPageView(userId));
    SortByMembers(owned, Negated(PageViewTime));
    var r := SortBy(owned, Negated(PageViewTime));
    SortedDescending(r, PageViewTime);
    r
  }

  /** The joined link clicks, newest first: the same rows as the join, as many times. */
  function LinkClickRowsOf(db: Tables, userId: Id): (r: seq<LinkClickRow>)
    ensures forall row :: row in r <==>
      row.click in db.linkClicks && FindLink(db.links, row.click.userLinkId) == Some(row.link)
      && row.link.userId == userId
    ensures multiset(r) == multiset(JoinLinkClicks(db.linkClicks, db.links, userId))
    ensures forall j, k :: 0 <= j < k < |r| ==> r[j].click.createdAt >= r[k].click.createdAt
  {
    var joined := JoinLinkClicks(db.linkClicks, db.links, userId);
    SortByMembers(joined, Negated(LinkRowTime));
    var r := SortBy(joined, Negated(LinkRowTime));
    SortedDescending(r, LinkRowTime);
    r
  }

  /** The joined icon clicks, newest first: the same rows as the join, as many times. */
  function IconClickRowsOf(db: Tables, userId: Id): (r: seq<IconClickRow>)
    ensures forall row :: row in r <==>
      row.click in db.iconClicks && FindIcon(db.icons, row.click.userIconId) == Some(row.icon)
      && row.icon.userId == userId
    ensures multiset(r) == multiset(JoinIconClicks(db.iconClicks, db.icons, userId))
    ensures forall j, k :: 0 <= j < k < |r| ==> r[j].click.createdAt >= r[k].click.createdAt
  {
    var joined := JoinIconClicks(db.iconClicks, db.icons, userId);
    SortByMembers(joined, Negated(IconRowTime));
    var r := SortBy(joined, Negated(IconRowTime));
    SortedDescending(r, IconRowTime);
    r
  }

  /** The value the three queries of a cache miss produce (lines 10-26). */
  function AnalyticsOf(db: Tables, userId: Id): CacheValue {
    AnalyticsValue(PageViewsOf(db, userId), LinkClickRowsOf(db, userId), IconClickRowsOf(db, userId))
  }

  /** In a well-formed store every click on one of the user's links or icons is listed,
      joined with exactly that link or icon, and no click of another user's link is. */
  lemma AnalyticsScope(db: Tables, userId: Id)
    requires WellFormed(db)
    ensures forall c, l :: c in db.linkClicks && l in db.links && l.id == c.userLinkId ==>
      (LinkClickRow(c, l) in AnalyticsOf(db, userId).linkClicks <==> l.userId == userId)
    ensures forall c, i :: c in db.iconClicks && i in db.icons && i.id == c.userIconId ==>
      (IconClickRow(c, i) in AnalyticsOf(db, userId).iconClicks <==> i.userId == userId)
  {
    forall c, l | c in db.linkClicks && l in db.links && l.id == c.userLinkId
      ensures LinkClickRow(c, l) in AnalyticsOf(db, userId).linkClicks <==> l.userId == userId
    {
      FindLinkDistinct(db.links, l);
    }
    forall c, i | c in db.iconClicks && i in db.icons && i.id == c.userIconId
      ensures IconClickRow(c, i) in AnalyticsOf(db, userId).iconClicks <==> i.userId == userId
    {
      FindIconDistinct(db.icons, i);
    }
  }

  /** The handler. A cached value (every cached value is an object, so truthy) is returned
      as it is; on a miss the queried value is stored under the key with the short TTL. */
  method GetAnalytics(b: Backend, session: Option<Id>) returns (r: Result<CacheValue, HttpError>)
    modifies b`cache
    ensures SessionUser(session).Err? ==> r == Err(Unauthorized) && b.cache == old(b.cache)
    ensures SessionUser(session).Ok? ==>
      var key := AnalyticsKey(session.value);
      if key in old(b.cache) then r == Ok(old(b.cache)[key].value) && b.cache == old(b.cache)
      else
        && r == Ok(AnalyticsOf(b.db, session.value))
        && b.cache == old(b.cache)[key := CacheEntry(AnalyticsOf(b.db, session.value), Short)]
  {
    var userId :- SessionUser(session);
    var cacheKey := AnalyticsKey(userId);
    if cacheKey in b.cache {
      return Ok(b.cache[cacheKey].value);
    }
    var value := AnalyticsOf(b.db, userId);
    b.cache := b.cache[cacheKey := CacheEntry(value, Short)];
    return Ok(value);
  }
}
