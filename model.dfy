/**
 * The server's state: the relational tables (users, preferences, links, icons, page views,
 * link and icon clicks, comments), the key-value cache with its deterministic keys, and
 * the cold-storage archive. Handlers receive a `Backend` explicitly instead of reaching
 * ambient database and cache handles.
 */
module Model {
  import opened Wrappers
  import opened Json
  import opened Seqs

  type Id = string
  /** Milliseconds since the epoch, as `Date.now()` and `createdAt` columns hold them. */
  type Timestamp = int

  datatype User = User(
    id: Id, email: string, name: Option<string>, slug: string,
    description: Option<string>, image: Option<string>, createdAt: Timestamp)

  /** Per-user feature toggles; the columns are kept as named JSON values. */
  datatype Preferences = Preferences(userId: Id, fields: map<string, Json>)

  datatype Link = Link(
    id: Id, userId: Id, url: string, title: string, order: int,
    clickCount: int, isVisible: bool, createdAt: Timestamp)

  datatype Icon = Icon(
    id: Id, userId: Id, url: string, platform: string, logo: string, order: int,
    clickCount: int, isVisible: bool, createdAt: Timestamp)

  datatype PageView = PageView(
    id: Id, userId: Id, referrer: Option<string>, source: string, createdAt: Timestamp)

  datatype LinkClick = LinkClick(id: Id, userLinkId: Id, createdAt: Timestamp)

  datatype IconClick = IconClick(id: Id, userIconId: Id, createdAt: Timestamp)

  datatype Comment = Comment(
    id: Id, userId: Id, name: string, email: Option<string>, message: string, createdAt: Timestamp)

  /** The relational store, one sequence of rows per table. */
  datatype Tables = Tables(
    users: seq<User>, preferences: seq<Preferences>, links: seq<Link>, icons: seq<Icon>,
    pageViews: seq<PageView>, linkClicks: seq<LinkClick>, iconClicks: seq<IconClick>,
    comments: seq<Comment>)

  // Column defaults of newly created rows (the database schema file is not part of this model).
  const DefaultOrder: int := 0
  const DefaultVisible: bool := true

  function UserKey(u: User): Id { u.id }
  function UserSlug(u: User): string { u.slug }
  function PrefsKey(p: Preferences): Id { p.userId }
  function LinkKey(l: Link): Id { l.id }
  function IconKey(i: Icon): Id { i.id }
  function PageViewKey(v: PageView): Id { v.id }
  function LinkClickKey(c: LinkClick): Id { c.id }
  function IconClickKey(c: IconClick): Id { c.id }
  function CommentKey(c: Comment): Id { c.id }

  function LinkIds(links: seq<Link>): set<Id> { set l | l in links :: l.id }
  function IconIds(icons: seq<Icon>): set<Id> { set i | i in icons :: i.id }

  /** The integrity constraints the database enforces: primary keys, the unique slug,
      one preferences row per user, and click rows referring to an existing parent. */
  ghost predicate WellFormed(db: Tables) {
    && Distinct(db.users, UserKey) && Distinct(db.users, UserSlug)
    && Distinct(db.preferences, PrefsKey) && Distinct(db.links, LinkKey)
    && Distinct(db.icons, IconKey) && Distinct(db.pageViews, PageViewKey)
    && Distinct(db.linkClicks, LinkClickKey) && Distinct(db.iconClicks, IconClickKey)
    && Distinct(db.comments, CommentKey)
    && (forall c :: c in db.linkClicks ==> c.userLinkId in LinkIds(db.links))
    && (forall c :: c in db.iconClicks ==> c.userIconId in IconIds(db.icons))
  }

  /** Every identifier already taken in any table, so that a new row's id can be fresh. */
  function UsedIds(db: Tables): set<Id> {
    (set u | u in db.users :: u.id) + LinkIds(db.links) + IconIds(db.icons)
    + (set v | v in db.pageViews :: v.id) + (set c | c in db.linkClicks :: c.id)
    + (set c | c in db.iconClicks :: c.id) + (set c | c in db.comments :: c.id)
  }

  /** `findUnique({ where: { id } })` on users. */
  function FindUser(users: seq<User>, id: Id): (r: Option<User>)
    ensures r.Some? ==> r.value in users && r.value.id == id
    ensures r.None? <==> forall u :: u in users ==> u.id != id
  {
    if users == [] then None
    else if users[0].id == id then Some(users[0])
    else FindUser(users[1..], id)
  }

  /** `findUnique({ where: { slug } })` on users. */
  function FindUserBySlug(users: seq<User>, slug: string): (r: Option<User>)
    ensures r.Some? ==> r.value in users && r.value.slug == slug
    ensures r.None? <==> forall u :: u in users ==> u.slug != slug
  {
    if users == [] then None
    else if users[0].slug == slug then Some(users[0])
    else FindUserBySlug(users[1..], slug)
  }

  /** The preferences row of a user, if any. */
  function FindPreferences(prefs: seq<Preferences>, userId: Id): (r: Option<Preferences>)
    ensures r.Some? ==> r.value in prefs && r.value.userId == userId
    ensures r.None? <==> forall p :: p in prefs ==> p.userId != userId
  {
    if prefs == [] then None
    else if prefs[0].userId == userId then Some(prefs[0])
    else FindPreferences(prefs[1..], userId)
  }

  /** The link with a given id, if any (`findUnique({ where: { id } })`). */
  function FindLink(links: seq<Link>, id: Id): (r: Option<Link>)
    ensures r.Some? ==> r.value in links && r.value.id == id
    ensures r.None? <==> forall l :: l in links ==> l.id != id
  {
    if links == [] then None
    else if links[0].id == id then Some(links[0])
    else FindLink(links[1..], id)
  }

  /** The icon with a given id, if any. */
  function FindIcon(icons: seq<Icon>, id: Id): (r: Option<Icon>)
    ensures r.Some? ==> r.value in icons && r.value.id == id
    ensures r.None? <==> forall i :: i in icons ==> i.id != id
  {
    if icons == [] then None
    else if icons[0].id == id then Some(icons[0])
    else FindIcon(icons[1..], id)
  }

  /** With distinct ids, the lookup finds every link of the table. */
  lemma FindLinkDistinct(links: seq<Link>, l: Link)
    requires Distinct(links, LinkKey) && l in links
    ensures FindLink(links, l.id) == Some(l)
  {
    DistinctSame(links, LinkKey, FindLink(links, l.id).value, l);
  }

  /** With distinct ids, the lookup finds every icon of the table. */
  lemma FindIconDistinct(icons: seq<Icon>, i: Icon)
    requires Distinct(icons, IconKey) && i in icons
    ensures FindIcon(icons, i.id) == Some(i)
  {
    DistinctSame(icons, IconKey, FindIcon(icons, i.id).value, i);
  }

  /** `userData?.slug || ""`: the slug that keys a user's public profile cache entry. */
  function ProfileSlug(db: Tables, userId: Id): string {
    match FindUser(db.users, userId)
    case Some(u) => u.slug
    case None => ""
  }

  function OwnedLink(userId: Id): Link -> bool { (l: Link) => l.userId == userId }
  function OwnedIcon(userId: Id): Icon -> bool { (i: Icon) => i.userId == userId }
  function ClickOfLink(linkId: Id): LinkClick -> bool { (c: LinkClick) => c.userLinkId == linkId }
  function ClickOfIcon(iconId: Id): IconClick -> bool { (c: IconClick) => c.userIconId == iconId }

  // The `createdAt` sort keys of the analytics tables.
  function PageViewTime(v: PageView): int { v.createdAt }
  function LinkClickTime(c: LinkClick): int { c.createdAt }
  function IconClickTime(c: IconClick): int { c.createdAt }

  /** The number of click rows recorded for a link. */
  function LinkClicksOf(clicks: seq<LinkClick>, linkId: Id): nat { Count(clicks, ClickOfLink(linkId)) }

  /** The number of click rows recorded for an icon. */
  function IconClicksOf(clicks: seq<IconClick>, iconId: Id): nat { Count(clicks, ClickOfIcon(iconId)) }

  /** The denormalised counter of a link agrees with its click rows. */
  ghost predicate LinkCountConsistent(db: Tables, l: Link) {
    l.clickCount == LinkClicksOf(db.linkClicks, l.id)
  }

  /** The denormalised counter of an icon agrees with its click rows. */
  ghost predicate IconCountConsistent(db: Tables, i: Icon) {
    i.clickCount == IconClicksOf(db.iconClicks, i.id)
  }

  /** Every `clickCount` equals the number of click rows of its link or icon. */
  ghost predicate CountsConsistent(db: Tables) {
    && (forall l :: l in db.links ==> LinkCountConsistent(db, l))
    && (forall i :: i in db.icons ==> IconCountConsistent(db, i))
  }

  /** The ids of a user's links, as `findMany({ where: { userId }, select: { id } })` returns them. */
  function LinkIdsOf(links: seq<Link>, userId: Id): (r: seq<Id>)
    ensures forall id :: id in r <==> exists l :: l in links && l.userId == userId && l.id == id
  {
    var owned := Filter(links, OwnedLink(userId));
    var r := seq(|owned|, k requires 0 <= k < |owned| => owned[k].id);
    assert forall l :: l in owned ==> l.id in r by {
      forall l | l in owned ensures l.id in r {
        var k :| 0 <= k < |owned| && owned[k] == l;
        assert r[k] == l.id;
      }
    }
    r
  }

  /** The ids of a user's icons. */
  function IconIdsOf(icons: seq<Icon>, userId: Id): (r: seq<Id>)
    ensures forall id :: id in r <==> exists i :: i in icons && i.userId == userId && i.id == id
  {
    var owned := Filter(icons, OwnedIcon(userId));
    var r := seq(|owned|, k requires 0 <= k < |owned| => owned[k].id);
    assert forall i :: i in owned ==> i.id in r by {
      forall i | i in owned ensures i.id in r {
        var k :| 0 <= k < |owned| && owned[k] == i;
        assert r[k] == i.id;
      }
    }
    r
  }

  // ---------------------------------------------------------------------------------------
  // The cache

  /** The deterministic, versionless cache keys, one builder per resource. */
  datatype CacheKey =
    | AnalyticsKey(userId: Id)
    | UserLinksKey(userId: Id)
    | UserIconsKey(userId: Id)
    | UserDataKey(userId: Id)
    | UserProfileKey(slug: string)

  /** The two time-to-live classes. */
  datatype Ttl = Short | Long

  /** A link click joined with its link (`include: { userLink: true }`). */
  datatype LinkClickRow = LinkClickRow(click: LinkClick, link: Link)

  /** An icon click joined with its icon. */
  datatype IconClickRow = IconClickRow(click: IconClick, icon: Icon)

  /** The columns the links list selects. */
  datatype LinkView = LinkView(
    id: Id, userId: Id, url: string, title: string, clickCount: int, createdAt: Timestamp)

  /** The columns an icons list selects; `order` and `isVisible` are absent from one of
      the two endpoints that share the icons cache key. */
  datatype IconView = IconView(
    id: Id, userId: Id, url: string, platform: string, logo: string, order: Option<int>,
    clickCount: int, isVisible: Option<bool>, createdAt: Timestamp)

  /** A user with preferences, comments and page views included. */
  datatype UserData = UserData(
    user: User, preferences: Option<Preferences>, comments: seq<Comment>, views: seq<PageView>)

  /** What a cache entry holds. */
  datatype CacheValue =
    | AnalyticsValue(pageViews: seq<PageView>, linkClicks: seq<LinkClickRow>, iconClicks: seq<IconClickRow>)
    | LinksValue(links: seq<LinkView>)
    | IconsValue(icons: seq<IconView>)
    | UserDataValue(userData: UserData)
    | ProfileValue(profile: Json)

  datatype CacheEntry = CacheEntry(value: CacheValue, ttl: Ttl)

  // ---------------------------------------------------------------------------------------
  // Cold storage

  /** One archived page view (the fields of the page-view archive schema). */
  datatype PageViewRecord = PageViewRecord(
    id: Id, userId: Id, referrer: Option<string>, source: Option<string>, createdAt: Timestamp)

  /** One archived link click with its link's url and title. */
  datatype LinkClickRecord = LinkClickRecord(
    userLinkId: Id, linkUrl: Option<string>, linkTitle: Option<string>, createdAt: Timestamp)

  /** One archived icon click with its icon's url, platform and logo. */
  datatype IconClickRecord = IconClickRecord(
    userIconId: Id, iconUrl: Option<string>, iconPlatform: Option<string>,
    iconLogo: Option<string>, createdAt: Timestamp)

  /** The rows of one archive file; their columnar encoding is not modelled. */
  datatype ArchiveContent =
    | PageViewArchive(pageViews: seq<PageViewRecord>)
    | LinkClickArchive(linkClicks: seq<LinkClickRecord>)
    | IconClickArchive(iconClicks: seq<IconClickRecord>)

  datatype ArchiveFile = ArchiveFile(name: string, mimeType: string, content: ArchiveContent)

  /** A file uploaded to cold storage under a folder. */
  datatype StoredFile = StoredFile(folder: string, file: ArchiveFile)

  // ---------------------------------------------------------------------------------------
  // Errors and sessions

  /** A failed request: status code and status text. */
  datatype HttpError = HttpError(status: int, statusText: string)

  const Unauthorized := HttpError(401, "Unauthorized")
  /** What the rate limiter raises; its text is not part of this model. */
  const TooManyRequests := HttpError(429, "Too Many Requests")
  /** A database operation that throws (a missing row to update, a violated unique constraint). */
  const StoreFailure := HttpError(500, "Internal Server Error")

  /** `getUserFromSession`: the session's user id, or 401 when there is none (or it is empty). */
  function SessionUser(session: Option<Id>): (r: Result<Id, HttpError>)
    ensures r.Ok? <==> TruthyStr(session)
    ensures r.Ok? ==> r.value == session.value
    ensures r.Err? ==> r.error == Unauthorized
  {
    if TruthyStr(session) then Ok(session.value) else Err(Unauthorized)
  }

  /** The server's state, updated in place by the handlers. */
  class Backend {
    var db: Tables
    var cache: map<CacheKey, CacheEntry>
    var storage: seq<StoredFile>

    ghost predicate Valid()
      reads this
    {
      WellFormed(db)
    }

    constructor (db0: Tables)
      requires WellFormed(db0)
      ensures Valid()
      ensures db == db0 && cache == map[] && storage == []
    {
      db := db0;
      cache := map[];
      storage := [];
    }

    /** `deleteCached(...keys)`: drops every given key at once. */
    method Invalidate(keys: set<CacheKey>)
      modifies this`cache
      ensures cache == old(cache) - keys
    {
      cache := cache - keys;
    }
  }
}
