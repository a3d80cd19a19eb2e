/**
 * Analytics archival (server/api/analytics/index.delete.ts): the oldest matching rows of
 * each category are selected, exported to cold storage, and only then deleted in one
 * transaction that also reconciles the denormalised `clickCount` of the user's links
 * and icons.
 */
module AnalyticsArchive {
  import opened Wrappers
  import opened Json
  import opened Text
  import opened Seqs
  import opened Model

  /** The `take` of every selection query. */
  const Cap: nat := 50000

  const InvalidType := HttpError(400, "Invalid analytics type")
  const NothingToDelete := "No analytics data found to delete"
  const ParquetMimeType := "application/vnd.apache.parquet"

  /** The query string: `type`, `dateFrom` and `dateTo`, each possibly absent. */
  datatype ArchiveQuery = ArchiveQuery(kind: Option<string>, dateFrom: Option<string>, dateTo: Option<string>)

  /** The three category names a `type` may take. */
  const Categories: seq<string> := ["pageView", "linkClick", "iconClick"]

  /** The `type` check: absent or empty, or one of the three categories. */
  predicate ValidType(kind: Option<string>) {
    !TruthyStr(kind) || kind.value in Categories
  }

  /** The `createdAt` condition: an optional inclusive lower and upper bound. */
  datatype DateFilter = DateFilter(gte: Option<Timestamp>, lte: Option<Timestamp>)

  /** A bound is set for each non-empty date parameter; `parseDate` stands for `new Date`. */
  function BuildFilter(q: ArchiveQuery, parseDate: string -> Timestamp): DateFilter {
    DateFilter(
      if TruthyStr(q.dateFrom) then Some(parseDate(q.dateFrom.value)) else None,
      if TruthyStr(q.dateTo) then Some(parseDate(q.dateTo.value)) else None)
  }

  /** `Object.keys(dateFilter).length > 0`. */
  predicate HasDateFilter(f: DateFilter) {
    f.gte.Some? || f.lte.Some?
  }

  /** The condition `createdAt: dateFilter`, spread in only when a bound is set. */
  predicate InRange(f: DateFilter, t: Timestamp) {
    (f.gte.None? || f.gte.value <= t) && (f.lte.None? || t <= f.lte.value)
  }

  /** The bounds are inclusive, a missing parameter sets no bound, and without any bound
      every timestamp is in range. */
  lemma DateFilterSemantics(q: ArchiveQuery, parseDate: string -> Timestamp, t: Timestamp)
    ensures var f := BuildFilter(q, parseDate);
      && (HasDateFilter(f) <==> TruthyStr(q.dateFrom) || TruthyStr(q.dateTo))
      && (!HasDateFilter(f) ==> InRange(f, t))
      && (InRange(f, t) <==>
            (TruthyStr(q.dateFrom) ==> parseDate(q.dateFrom.value) <= t)
            && (TruthyStr(q.dateTo) ==> t <= parseDate(q.dateTo.value)))
  {
  }

  /** `!query.type || query.type === category`. */
  predicate Wants(kind: Option<string>, category: string) {
    !TruthyStr(kind) || kind.value == category
  }

  /** With a valid `type`, exactly one category is wanted, or all three when it is absent. */
  lemma WantsOneOrAll(kind: Option<string>)
    requires ValidType(kind)
    ensures !TruthyStr(kind) ==> Wants(kind, "pageView") && Wants(kind, "linkClick") && Wants(kind, "iconClick")
    ensures TruthyStr(kind) ==> (
      (Wants(kind, "pageView") <==> kind.value == "pageView")
      && (Wants(kind, "linkClick") <==> kind.value == "linkClick")
      && (Wants(kind, "iconClick") <==> kind.value == "iconClick"))
  {
  }

  // ---------------------------------------------------------------------------------------
  // Selection (lines 31-61)

  /** The `where` of the page-view query. */
  function PageViewMatches(userId: Id, f: DateFilter): PageView -> bool {
    (v: PageView) => v.userId == userId && InRange(f, v.createdAt)
  }

  /** The `where` of the link-click query. */
  function LinkClickMatches(linkIds: seq<Id>, f: DateFilter): LinkClick -> bool {
    (c: LinkClick) => c.userLinkId in linkIds && InRange(f, c.createdAt)
  }

  /** The `where` of the icon-click query. */
  function IconClickMatches(iconIds: seq<Id>, f: DateFilter): IconClick -> bool {
    (c: IconClick) => c.userIconId in iconIds && InRange(f, c.createdAt)
  }

  /** The rows selected for archival, with the filter they were selected by. */
  datatype Selection = Selection(
    filter: DateFilter, pageViews: seq<PageView>, linkClicks: seq<LinkClick>, iconClicks: seq<IconClick>)

  function SelectPageViews(db: Tables, userId: Id, kind: Option<string>, f: DateFilter): seq<PageView> {
    if Wants(kind, "pageView") then FindMany(db.pageViews, PageViewMatches(userId, f), PageViewTime, Cap)
    else []
  }

  /** Link clicks are queried only when the user has links. */
  function SelectLinkClicks(db: Tables, userId: Id, kind: Option<string>, f: DateFilter): seq<LinkClick> {
    var linkIds := LinkIdsOf(db.links, userId);
    if Wants(kind, "linkClick") && |linkIds| > 0 then
      FindMany(db.linkClicks, LinkClickMatches(linkIds, f), LinkClickTime, Cap)
    else []
  }

  /** Icon clicks are queried only when the user has icons. */
  function SelectIconClicks(db: Tables, userId: Id, kind: Option<string>, f: DateFilter): seq<IconClick> {
    var iconIds := IconIdsOf(db.icons, userId);
    if Wants(kind, "iconClick") && |iconIds| > 0 then
      FindMany(db.iconClicks, IconClickMatches(iconIds, f), IconClickTime, Cap)
    else []
  }

  /** The three selection queries. */
  function Select(db: Tables, userId: Id, q: ArchiveQuery, parseDate: string -> Timestamp): Selection {
    var f := BuildFilter(q, parseDate);
    Selection(f, SelectPageViews(db, userId, q.kind, f), SelectLinkClicks(db, userId, q.kind, f),
      SelectIconClicks(db, userId, q.kind, f))
  }

  /** `totalRecords === 0`. */
  predicate NothingSelected(sel: Selection) {
    sel.pageViews == [] && sel.linkClicks == [] && sel.iconClicks == []
  }

  /** Each category is selected only when wanted; at most `Cap` rows are taken per category,
      in ascending `createdAt`; every row taken is in its table, in range and belongs to the
      user (directly, or through one of the user's links or icons); and clicks are taken
      only from a user who has links or icons. */
  lemma SelectionScope(db: Tables, userId: Id, q: ArchiveQuery, parseDate: string -> Timestamp)
    ensures var sel := Select(db, userId, q, parseDate);
      && sel.filter == BuildFilter(q, parseDate)
      && |sel.pageViews| <= Cap && |sel.linkClicks| <= Cap && |sel.iconClicks| <= Cap
      && SortedBy(sel.pageViews, PageViewTime) && SortedBy(sel.linkClicks, LinkClickTime)
      && SortedBy(sel.iconClicks, IconClickTime)
      && (!Wants(q.kind, "pageView") ==> sel.pageViews == [])
      && (!Wants(q.kind, "linkClick") || LinkIdsOf(db.links, userId) == [] ==> sel.linkClicks == [])
      && (!Wants(q.kind, "iconClick") || IconIdsOf(db.icons, userId) == [] ==> sel.iconClicks == [])
      && (forall v :: v in sel.pageViews ==>
            v in db.pageViews && v.userId == userId && InRange(sel.filter, v.createdAt))
      && (forall c :: c in sel.linkClicks ==>
            (c in db.linkClicks && InRange(sel.filter, c.createdAt)
             && exists l :: l in db.links && l.userId == userId && l.id == c.userLinkId))
      && (forall c :: c in sel.iconClicks ==>
            (c in db.iconClicks && InRange(sel.filter, c.createdAt)
             && exists i :: i in db.icons && i.userId == userId && i.id == c.userIconId))
  {
    var sel := Select(db, userId, q, parseDate);
    var linkIds := LinkIdsOf(db.links, userId);
    var iconIds := IconIdsOf(db.icons, userId);
    assert forall c :: c in sel.linkClicks ==> c.userLinkId in linkIds;
    assert forall c :: c in sel.iconClicks ==> c.userIconId in iconIds;
  }

  /** The oldest rows are taken: a matching row that was left out is no older than any
      row taken in its category. */
  lemma SelectionTakesOldest(db: Tables, userId: Id, q: ArchiveQuery, parseDate: string -> Timestamp)
    ensures var sel := Select(db, userId, q, parseDate);
      var f := sel.filter;
      && (forall v, w :: (v in db.pageViews && PageViewMatches(userId, f)(v) && Wants(q.kind, "pageView")
            && v !in sel.pageViews && w in sel.pageViews) ==> w.createdAt <= v.createdAt)
      && (forall c, d :: (c in db.linkClicks && LinkClickMatches(LinkIdsOf(db.links, userId), f)(c)
            && Wants(q.kind, "linkClick") && c !in sel.linkClicks && d in sel.linkClicks)
            ==> d.createdAt <= c.createdAt)
      && (forall c, d :: (c in db.iconClicks && IconClickMatches(IconIdsOf(db.icons, userId), f)(c)
            && Wants(q.kind, "iconClick") && c !in sel.iconClicks && d in sel.iconClicks)
            ==> d.createdAt <= c.createdAt)
  {
    var sel := Select(db, userId, q, parseDate);
    var f := sel.filter;
    var linkIds := LinkIdsOf(db.links, userId);
    var iconIds := IconIdsOf(db.icons, userId);
    forall v | v in db.pageViews && PageViewMatches(userId, f)(v) && Wants(q.kind, "pageView")
        && v !in sel.pageViews
      ensures forall w :: w in sel.pageViews ==> w.createdAt <= v.createdAt
    {
      FindManyOldest(db.pageViews, PageViewMatches(userId, f), PageViewTime, Cap, v);
    }
    forall c | c in db.linkClicks && LinkClickMatches(linkIds, f)(c) && Wants(q.kind, "linkClick")
        && c !in sel.linkClicks
      ensures forall d :: d in sel.linkClicks ==> d.createdAt <= c.createdAt
    {
      FindManyOldest(db.linkClicks, LinkClickMatches(linkIds, f), LinkClickTime, Cap, c);
    }
    forall c | c in db.iconClicks && IconClickMatches(iconIds, f)(c) && Wants(q.kind, "iconClick")
        && c !in sel.iconClicks
      ensures forall d :: d in sel.iconClicks ==> d.createdAt <= c.createdAt
    {
      FindManyOldest(db.iconClicks, IconClickMatches(iconIds, f), IconClickTime, Cap, c);
    }
  }

  /** Below the cap a wanted category's selection is every matching row. */
  lemma SelectionCompleteUnderCap(db: Tables, userId: Id, q: ArchiveQuery, parseDate: string -> Timestamp)
    ensures var sel := Select(db, userId, q, parseDate);
      var f := sel.filter;
      var linkIds := LinkIdsOf(db.links, userId);
      var iconIds := IconIdsOf(db.icons, userId);
      && (Wants(q.kind, "pageView") && |Filter(db.pageViews, PageViewMatches(userId, f))| <= Cap ==>
            forall v :: v in sel.pageViews <==> v in db.pageViews && PageViewMatches(userId, f)(v))
      && (Wants(q.kind, "linkClick") && |Filter(db.linkClicks, LinkClickMatches(linkIds, f))| <= Cap ==>
            forall c :: c in sel.linkClicks <==> c in db.linkClicks && LinkClickMatches(linkIds, f)(c))
      && (Wants(q.kind, "iconClick") && |Filter(db.iconClicks, IconClickMatches(iconIds, f))| <= Cap ==>
            forall c :: c in sel.iconClicks <==> c in db.iconClicks && IconClickMatches(iconIds, f)(c))
  {
    var sel := Select(db, userId, q, parseDate);
    var f := sel.filter;
    var linkIds := LinkIdsOf(db.links, userId);
    var iconIds := IconIdsOf(db.icons, userId);
    if Wants(q.kind, "pageView") && |Filter(db.pageViews, PageViewMatches(userId, f))| <= Cap {
      FindManyAll(db.pageViews, PageViewMatches(userId, f), PageViewTime, Cap);
    }
    if Wants(q.kind, "linkClick") && |Filter(db.linkClicks, LinkClickMatches(linkIds, f))| <= Cap {
      FindManyAll(db.linkClicks, LinkClickMatches(linkIds, f), LinkClickTime, Cap);
    }
    if Wants(q.kind, "iconClick") && |Filter(db.iconClicks, IconClickMatches(iconIds, f))| <= Cap {
      FindManyAll(db.iconClicks, IconClickMatches(iconIds, f), IconClickTime, Cap);
    }
  }

  // ---------------------------------------------------------------------------------------
  // Deletion and reconciliation (lines 159-206)

  function PageViewIdSet(vs: seq<PageView>): set<Id> { set v | v in vs :: v.id }
  function LinkParents(cs: seq<LinkClick>): set<Id> { set c | c in cs :: c.userLinkId }
  function LinkTimes(cs: seq<LinkClick>): set<Timestamp> { set c | c in cs :: c.createdAt }
  function IconParents(cs: seq<IconClick>): set<Id> { set c | c in cs :: c.userIconId }
  function IconTimes(cs: seq<IconClick>): set<Timestamp> { set c | c in cs :: c.createdAt }

  /** The rows the page-view `deleteMany` keeps: those whose id was not selected. */
  function KeepPageView(ids: set<Id>): PageView -> bool {
    (v: PageView) => v.id !in ids
  }

  /** The rows the link-click `deleteMany` keeps. Its `where` pairs any selected parent with
      any selected timestamp, so it is not an exact match of the selected rows. */
  function KeepLinkClick(parents: set<Id>, times: set<Timestamp>): LinkClick -> bool {
    (c: LinkClick) => !(c.userLinkId in parents && c.createdAt in times)
  }

  /** The rows the icon-click `deleteMany` keeps. */
  function KeepIconClick(parents: set<Id>, times: set<Timestamp>): IconClick -> bool {
    (c: IconClick) => !(c.userIconId in parents && c.createdAt in times)
  }

  /** `userLink.update({ where: { id }, data: { clickCount } })`. */
  function SetLinkCount(links: seq<Link>, id: Id, count: int): (r: seq<Link>)
    ensures |r| == |links|
    ensures forall k :: 0 <= k < |links| ==>
      r[k] == if links[k].id == id then links[k].(clickCount := count) else links[k]
  {
    seq(|links|, k requires 0 <= k < |links| =>
      if links[k].id == id then links[k].(clickCount := count) else links[k])
  }

  /** `userIcon.update({ where: { id }, data: { clickCount } })`. */
  function SetIconCount(icons: seq<Icon>, id: Id, count: int): (r: seq<Icon>)
    ensures |r| == |icons|
    ensures forall k :: 0 <= k < |icons| ==>
      r[k] == if icons[k].id == id then icons[k].(clickCount := count) else icons[k]
  {
    seq(|icons|, k requires 0 <= k < |icons| =>
      if icons[k].id == id then icons[k].(clickCount := count) else icons[k])
  }

  /** The recount loop over the links whose ids are in `ids`: each gets the number of click
      rows `clicks` holds for it. */
  function RecountLinks(links: seq<Link>, ids: set<Id>, clicks: seq<LinkClick>): (r: seq<Link>)
    ensures |r| == |links|
    ensures forall k :: 0 <= k < |links| ==>
      r[k] == if links[k].id in ids then links[k].(clickCount := LinkClicksOf(clicks, links[k].id)) else links[k]
  {
    seq(|links|, k requires 0 <= k < |links| =>
      if links[k].id in ids then links[k].(clickCount := LinkClicksOf(clicks, links[k].id)) else links[k])
  }

  /** The recount loop over icons. */
  function RecountIcons(icons: seq<Icon>, ids: set<Id>, clicks: seq<IconClick>): (r: seq<Icon>)
    ensures |r| == |icons|
    ensures forall k :: 0 <= k < |icons| ==>
      r[k] == if icons[k].id in ids then icons[k].(clickCount := IconClicksOf(clicks, icons[k].id)) else icons[k]
  {
    seq(|icons|, k requires 0 <= k < |icons| =>
      if icons[k].id in ids then icons[k].(clickCount := IconClicksOf(clicks, icons[k].id)) else icons[k])
  }

  /** `userLink.updateMany({ where: { userId, id: { in: ids } }, data: { clickCount: 0 } })`. */
  function ZeroLinks(links: seq<Link>, userId: Id, ids: set<Id>): (r: seq<Link>)
    ensures |r| == |links|
    ensures forall k :: 0 <= k < |links| ==>
      r[k] == if links[k].userId == userId && links[k].id in ids then links[k].(clickCount := 0) else links[k]
  {
    seq(|links|, k requires 0 <= k < |links| =>
      if links[k].userId == userId && links[k].id in ids then links[k].(clickCount := 0) else links[k])
  }

  /** The `updateMany` that zeroes the user's icons. */
  function ZeroIcons(icons: seq<Icon>, userId: Id, ids: set<Id>): (r: seq<Icon>)
    ensures |r| == |icons|
    ensures forall k :: 0 <= k < |icons| ==>
      r[k] == if icons[k].userId == userId && icons[k].id in ids then icons[k].(clickCount := 0) else icons[k]
  {
    seq(|icons|, k requires 0 <= k < |icons| =>
      if icons[k].userId == userId && icons[k].id in ids then icons[k].(clickCount := 0) else icons[k])
  }

  /** The elements of a list of ids, as a set (`{ in: ids }`). */
  function IdSet(ids: seq<Id>): set<Id> { set id | id in ids }

  /** The ids of the user's links, as a set. */
  function UserLinkIds(db: Tables, userId: Id): set<Id> { IdSet(LinkIdsOf(db.links, userId)) }

  /** The ids of the user's icons, as a set. */
  function UserIconIds(db: Tables, userId: Id): set<Id> { IdSet(IconIdsOf(db.icons, userId)) }

  /** The page-view step of the transaction. */
  function ArchivePageViews(db: Tables, sel: Selection): Tables {
    if sel.pageViews == [] then db
    else db.(pageViews := Filter(db.pageViews, KeepPageView(PageViewIdSet(sel.pageViews))))
  }

  /** The link-click step: delete, then recount (with a date filter) or zero. */
  function ArchiveLinkClicks(db: Tables, userId: Id, sel: Selection): Tables {
    if sel.linkClicks == [] then db
    else
      var clicks := Filter(db.linkClicks, KeepLinkClick(LinkParents(sel.linkClicks), LinkTimes(sel.linkClicks)));
      var ids := UserLinkIds(db, userId);
      var links := if HasDateFilter(sel.filter) then RecountLinks(db.links, ids, clicks) else ZeroLinks(db.links, userId, ids);
      db.(linkClicks := clicks, links := links)
  }

  /** The icon-click step. */
  function ArchiveIconClicks(db: Tables, userId: Id, sel: Selection): Tables {
    if sel.iconClicks == [] then db
    else
      var clicks := Filter(db.iconClicks, KeepIconClick(IconParents(sel.iconClicks), IconTimes(sel.iconClicks)));
      var ids := UserIconIds(db, userId);
      var icons := if HasDateFilter(sel.filter) then RecountIcons(db.icons, ids, clicks) else ZeroIcons(db.icons, userId, ids);
      db.(iconClicks := clicks, icons := icons)
  }

  /** The tables after the delete transaction. */
  function Archived(db: Tables, userId: Id, sel: Selection): Tables {
    ArchiveIconClicks(ArchiveLinkClicks(ArchivePageViews(db, sel), userId, sel), userId, sel)
  }

  /** `deleteResult`: the sum of the three `deleteMany` counts. */
  function DeletedCount(db: Tables, userId: Id, sel: Selection): nat {
    var after := Archived(db, userId, sel);
    (|db.pageViews| - |after.pageViews|) + (|db.linkClicks| - |after.linkClicks|)
    + (|db.iconClicks| - |after.iconClicks|)
  }

  /** The archival touches nothing but the three analytics tables and the counters of links
      and icons, whose other columns, number and order stay as they were. */
  lemma ArchivedFrame(db: Tables, userId: Id, sel: Selection)
    ensures var after := Archived(db, userId, sel);
      && after.users == db.users && after.preferences == db.preferences && after.comments == db.comments
      && |after.links| == |db.links| && |after.icons| == |db.icons|
      && (forall k :: 0 <= k < |db.links| ==> after.links[k] == db.links[k].(clickCount := after.links[k].clickCount))
      && (forall k :: 0 <= k < |db.icons| ==> after.icons[k] == db.icons[k].(clickCount := after.icons[k].clickCount))
      && (sel.pageViews == [] ==> after.pageViews == db.pageViews)
      && (sel.linkClicks == [] ==> after.linkClicks == db.linkClicks && after.links == db.links)
      && (sel.iconClicks == [] ==> after.iconClicks == db.iconClicks && after.icons == db.icons)
  {
    var first := ArchivePageViews(db, sel);
    assert first == db.(pageViews := first.pageViews);
    var second := ArchiveLinkClicks(first, userId, sel);
    LinkStepFrame(first, userId, sel);
    IconStepFrame(second, userId, sel);
  }

  /** The link-click step changes the link clicks and the link counters only. */
  lemma LinkStepFrame(db: Tables, userId: Id, sel: Selection)
    ensures var after := ArchiveLinkClicks(db, userId, sel);
      && after == db.(linkClicks := after.linkClicks, links := after.links)
      && |after.links| == |db.links|
      && (forall k :: 0 <= k < |db.links| ==> after.links[k] == db.links[k].(clickCount := after.links[k].clickCount))
      && (sel.linkClicks == [] ==> after == db)
  {
  }

  /** The icon-click step changes the icon clicks and the icon counters only. */
  lemma IconStepFrame(db: Tables, userId: Id, sel: Selection)
    ensures var after := ArchiveIconClicks(db, userId, sel);
      && after == db.(iconClicks := after.iconClicks, icons := after.icons)
      && |after.icons| == |db.icons|
      && (forall k :: 0 <= k < |db.icons| ==> after.icons[k] == db.icons[k].(clickCount := after.icons[k].clickCount))
      && (sel.iconClicks == [] ==> after == db)
  {
  }

  /** Page views: exactly the selected rows are deleted, since ids are unique. */
  lemma PageViewsDeletedExactly(db: Tables, userId: Id, q: ArchiveQuery, parseDate: string -> Timestamp)
    requires WellFormed(db)
    ensures var sel := Select(db, userId, q, parseDate);
      var after := Archived(db, userId, sel);
      forall v :: v in after.pageViews <==> v in db.pageViews && v !in sel.pageViews
  {
    var sel := Select(db, userId, q, parseDate);
    SelectionScope(db, userId, q, parseDate);
    if sel.pageViews != [] {
      forall v | v in db.pageViews && v.id in PageViewIdSet(sel.pageViews) ensures v in sel.pageViews {
        var w :| w in sel.pageViews && w.id == v.id;
        DistinctSame(db.pageViews, PageViewKey, v, w);
      }
    }
  }

  /** The click tables and counters after the transaction, one step at a time. */
  lemma ArchivedTables(db: Tables, userId: Id, sel: Selection)
    ensures var after := Archived(db, userId, sel);
      && after.pageViews == ArchivePageViews(db, sel).pageViews
      && after.linkClicks == ArchiveLinkClicks(db, userId, sel).linkClicks
      && after.links == ArchiveLinkClicks(db, userId, sel).links
      && after.iconClicks == ArchiveIconClicks(db, userId, sel).iconClicks
      && after.icons == ArchiveIconClicks(db, userId, sel).icons
  {
  }

  /** Link clicks: every selected row is deleted; every deleted row is one the selection
      query matches (one of the user's links, in range), though beyond the cap not
      necessarily a selected one; and the rows kept are exactly those that do not pair a
      selected parent with a selected timestamp. */
  lemma LinkClicksDeleted(db: Tables, userId: Id, q: ArchiveQuery, parseDate: string -> Timestamp)
    ensures var sel := Select(db, userId, q, parseDate);
      var after := Archived(db, userId, sel);
      var keep := KeepLinkClick(LinkParents(sel.linkClicks), LinkTimes(sel.linkClicks));
      && (forall c :: c in sel.linkClicks ==> c !in after.linkClicks)
      && (forall c :: c in after.linkClicks <==> c in db.linkClicks && (sel.linkClicks == [] || keep(c)))
      && (forall c :: c in db.linkClicks && c !in after.linkClicks ==>
            LinkClickMatches(LinkIdsOf(db.links, userId), sel.filter)(c))
  {
    var sel := Select(db, userId, q, parseDate);
    ArchivedTables(db, userId, sel);
    var ids := LinkIdsOf(db.links, userId);
    var parents := LinkParents(sel.linkClicks);
    var times := LinkTimes(sel.linkClicks);
    assert forall c :: c in sel.linkClicks ==> LinkClickMatches(ids, sel.filter)(c);
    forall c | c in db.linkClicks && c.userLinkId in parents && c.createdAt in times
      ensures LinkClickMatches(ids, sel.filter)(c)
    {
      var d :| d in sel.linkClicks && d.userLinkId == c.userLinkId;
      var e :| e in sel.linkClicks && e.createdAt == c.createdAt;
      assert LinkClickMatches(ids, sel.filter)(d) && LinkClickMatches(ids, sel.filter)(e);
    }
  }

  /** Icon clicks, symmetrically to `LinkClicksDeleted`. */
  lemma IconClicksDeleted(db: Tables, userId: Id, q: ArchiveQuery, parseDate: string -> Timestamp)
    ensures var sel := Select(db, userId, q, parseDate);
      var after := Archived(db, userId, sel);
      var keep := KeepIconClick(IconParents(sel.iconClicks), IconTimes(sel.iconClicks));
      && (forall c :: c in sel.iconClicks ==> c !in after.iconClicks)
      && (forall c :: c in after.iconClicks <==> c in db.iconClicks && (sel.iconClicks == [] || keep(c)))
      && (forall c :: c in db.iconClicks && c !in after.iconClicks ==>
            IconClickMatches(IconIdsOf(db.icons, userId), sel.filter)(c))
  {
    var sel := Select(db, userId, q, parseDate);
    ArchivedTables(db, userId, sel);
    var ids := IconIdsOf(db.icons, userId);
    var parents := IconParents(sel.iconClicks);
    var times := IconTimes(sel.iconClicks);
    assert forall c :: c in sel.iconClicks ==> IconClickMatches(ids, sel.filter)(c);
    forall c | c in db.iconClicks && c.userIconId in parents && c.createdAt in times
      ensures IconClickMatches(ids, sel.filter)(c)
    {
      var d :| d in sel.iconClicks && d.userIconId == c.userIconId;
      var e :| e in sel.iconClicks && e.createdAt == c.createdAt;
      assert IconClickMatches(ids, sel.filter)(d) && IconClickMatches(ids, sel.filter)(e);
    }
  }

  /** Below the cap a wanted category loses exactly its matching rows. */
  lemma ClicksDeletedExactlyUnderCap(db: Tables, userId: Id, q: ArchiveQuery, parseDate: string -> Timestamp)
    ensures var sel := Select(db, userId, q, parseDate);
      var after := Archived(db, userId, sel);
      var linkMatch := LinkClickMatches(LinkIdsOf(db.links, userId), sel.filter);
      var iconMatch := IconClickMatches(IconIdsOf(db.icons, userId), sel.filter);
      && (Wants(q.kind, "linkClick") && |Filter(db.linkClicks, linkMatch)| <= Cap ==>
            forall c :: c in db.linkClicks ==> (c !in after.linkClicks <==> linkMatch(c)))
      && (Wants(q.kind, "iconClick") && |Filter(db.iconClicks, iconMatch)| <= Cap ==>
            forall c :: c in db.iconClicks ==> (c !in after.iconClicks <==> iconMatch(c)))
  {
    SelectionCompleteUnderCap(db, userId, q, parseDate);
    LinkClicksDeleted(db, userId, q, parseDate);
    IconClicksDeleted(db, userId, q, parseDate);
  }

  // ---------------------------------------------------------------------------------------
  // The click delete as written pairs every selected parent with every selected timestamp.
  // Over the cap a click left out of the selection can share its link with one selected
  // click and its timestamp with another; it is then deleted, but no archive file holds it.

  /** As written: a click outside the selection whose parent and timestamp both occur among
      the selected clicks is deleted. */
  lemma CrossProductDeletesUnselected(db: Tables, userId: Id, sel: Selection, c: LinkClick)
    requires c in db.linkClicks && c !in sel.linkClicks
    requires exists a :: a in sel.linkClicks && a.userLinkId == c.userLinkId
    requires exists b :: b in sel.linkClicks && b.createdAt == c.createdAt
    ensures c !in Archived(db, userId, sel).linkClicks
  {
    var a :| a in sel.linkClicks && a.userLinkId == c.userLinkId;
    var b :| b in sel.linkClicks && b.createdAt == c.createdAt;
    assert c.userLinkId in LinkParents(sel.linkClicks) && c.createdAt in LinkTimes(sel.linkClicks);
    ArchivedLinks(db, userId, sel);
  }

  // A concrete case, with a take of two standing for the cap: user `u` has links `l1` and
  // `l2`; the clicks on `l1` at time 1 and on `l2` at time 2 are taken, and the click on `l1`
  // at time 2, which ties with the last one taken, is not.
  const ExampleA := LinkClick("a", "l1", 1)
  const ExampleB := LinkClick("b", "l2", 2)
  const ExampleC := LinkClick("c", "l1", 2)
  const ExampleNoFilter := DateFilter(None, None)

  /** The query, taking two, selects `a` and `b` and leaves out `c`. */
  lemma ExampleTakesTwo()
    ensures FindMany([ExampleA, ExampleB, ExampleC], LinkClickMatches(["l1", "l2"], ExampleNoFilter), LinkClickTime, 2)
      == [ExampleA, ExampleB]
  {
    ExampleMatchesAll();
    ExampleAlreadySorted();
  }

  /** Every click of the example matches the query. */
  lemma ExampleMatchesAll()
    ensures Filter([ExampleA, ExampleB, ExampleC], LinkClickMatches(["l1", "l2"], ExampleNoFilter))
      == [ExampleA, ExampleB, ExampleC]
  {
    var p := LinkClickMatches(["l1", "l2"], ExampleNoFilter);
    assert p(ExampleA) && p(ExampleB) && p(ExampleC);
    FilterCons(ExampleC, [], p);
    assert [ExampleC] + [] == [ExampleC];
    FilterCons(ExampleB, [ExampleC], p);
    FilterCons(ExampleA, [ExampleB, ExampleC], p);
    assert [ExampleA] + [ExampleB, ExampleC] == [ExampleA, ExampleB, ExampleC];
  }

  /** The example's clicks are already in ascending `createdAt`. */
  lemma ExampleAlreadySorted()
    ensures SortBy([ExampleA, ExampleB, ExampleC], LinkClickTime) == [ExampleA, ExampleB, ExampleC]
  {
    var s := [ExampleA, ExampleB, ExampleC];
    assert s[1..] == [ExampleB, ExampleC] && s[1..][1..] == [ExampleC] && s[1..][1..][1..] == [];
    assert SortBy([ExampleC], LinkClickTime) == Insert(ExampleC, [], LinkClickTime) == [ExampleC];
    assert SortBy([ExampleB, ExampleC], LinkClickTime) == Insert(ExampleB, [ExampleC], LinkClickTime);
    assert Insert(ExampleB, [ExampleC], LinkClickTime) == [ExampleB, ExampleC];
    assert SortBy(s, LinkClickTime) == Insert(ExampleA, [ExampleB, ExampleC], LinkClickTime);
  }

  /** With that selection the delete removes `c`, and the link-click archive holds no record
      of a click on `l1` at time 2. */
  lemma CrossProductDeletesUnarchivedExample(links: seq<Link>)
    ensures var db := Tables([], [], links, [], [], [ExampleA, ExampleB, ExampleC], [], []);
      var sel := Selection(ExampleNoFilter, [], [ExampleA, ExampleB], []);
      && sel.linkClicks == FindMany(db.linkClicks, LinkClickMatches(["l1", "l2"], sel.filter), LinkClickTime, 2)
      && ExampleC !in sel.linkClicks
      && ExampleC !in Archived(db, "u", sel).linkClicks
      && forall r :: r in LinkClickRecords(links, sel.linkClicks) ==> !(r.userLinkId == "l1" && r.createdAt == 2)
  {
    var db := Tables([], [], links, [], [], [ExampleA, ExampleB, ExampleC], [], []);
    var sel := Selection(ExampleNoFilter, [], [ExampleA, ExampleB], []);
    ExampleTakesTwo();
    assert ExampleA in sel.linkClicks && ExampleB in sel.linkClicks;
    CrossProductDeletesUnselected(db, "u", sel, ExampleC);
    ExampleRecords(links);
  }

  /** The records of `a` and `b` are of a click on `l1` at time 1 and on `l2` at time 2. */
  lemma ExampleRecords(links: seq<Link>)
    ensures forall r :: r in LinkClickRecords(links, [ExampleA, ExampleB]) ==> !(r.userLinkId == "l1" && r.createdAt == 2)
  {
    assert LinkClickRecords(links, [ExampleA, ExampleB])
      == [LinkClickRecordOf(links, ExampleA), LinkClickRecordOf(links, ExampleB)];
  }

  /** The ids of a list of link clicks. */
  function LinkClickIdSet(cs: seq<LinkClick>): set<Id> { set c | c in cs :: c.id }

  /** The ids of a list of icon clicks. */
  function IconClickIdSet(cs: seq<IconClick>): set<Id> { set c | c in cs :: c.id }

  /** Corrected: delete the selected link clicks by id, as the page-view step does. */
  function DeleteLinkClicksById(clicks: seq<LinkClick>, selected: seq<LinkClick>): seq<LinkClick> {
    Filter(clicks, (c: LinkClick) => c.id !in LinkClickIdSet(selected))
  }

  /** Corrected: delete the selected icon clicks by id. */
  function DeleteIconClicksById(clicks: seq<IconClick>, selected: seq<IconClick>): seq<IconClick> {
    Filter(clicks, (c: IconClick) => c.id !in IconClickIdSet(selected))
  }

  /** With the delete by id, a click is deleted iff it was selected, hence archived, on
      every input, over the cap too. */
  lemma DeleteByIdDeletesExactlyArchived(db: Tables, userId: Id, q: ArchiveQuery, parseDate: string -> Timestamp)
    requires WellFormed(db)
    ensures var sel := Select(db, userId, q, parseDate);
      && (forall c :: c in db.linkClicks ==>
            (c !in DeleteLinkClicksById(db.linkClicks, sel.linkClicks) <==> c in sel.linkClicks))
      && (forall c :: c in db.iconClicks ==>
            (c !in DeleteIconClicksById(db.iconClicks, sel.iconClicks) <==> c in sel.iconClicks))
  {
    var sel := Select(db, userId, q, parseDate);
    SelectionScope(db, userId, q, parseDate);
    forall c | c in db.linkClicks && c !in DeleteLinkClicksById(db.linkClicks, sel.linkClicks)
      ensures c in sel.linkClicks
    {
      var s :| s in sel.linkClicks && s.id == c.id;
      DistinctSame(db.linkClicks, LinkClickKey, s, c);
    }
    forall c | c in db.iconClicks && c !in DeleteIconClicksById(db.iconClicks, sel.iconClicks)
      ensures c in sel.iconClicks
    {
      var s :| s in sel.iconClicks && s.id == c.id;
      DistinctSame(db.iconClicks, IconClickKey, s, c);
    }
  }

  /** The parents of the selected clicks are among the user's links and icons. */
  lemma SelectedParentsOwned(db: Tables, userId: Id, q: ArchiveQuery, parseDate: string -> Timestamp)
    ensures var sel := Select(db, userId, q, parseDate);
      LinkParents(sel.linkClicks) <= UserLinkIds(db, userId) && IconParents(sel.iconClicks) <= UserIconIds(db, userId)
  {
    SelectionScope(db, userId, q, parseDate);
  }

  /** Deleting clicks of other parents leaves the click count of `id` unchanged. */
  lemma LinkCountKept(clicks: seq<LinkClick>, parents: set<Id>, times: set<Timestamp>, id: Id)
    requires id !in parents
    ensures LinkClicksOf(Filter(clicks, KeepLinkClick(parents, times)), id) == LinkClicksOf(clicks, id)
  {
    FilterImplied(clicks, KeepLinkClick(parents, times), ClickOfLink(id));
  }

  /** Deleting clicks of other icons leaves the click count of `id` unchanged. */
  lemma IconCountKept(clicks: seq<IconClick>, parents: set<Id>, times: set<Timestamp>, id: Id)
    requires id !in parents
    ensures IconClicksOf(Filter(clicks, KeepIconClick(parents, times)), id) == IconClicksOf(clicks, id)
  {
    FilterImplied(clicks, KeepIconClick(parents, times), ClickOfIcon(id));
  }

  /** With a date filter the recount restores every link counter. */
  lemma FilteredArchivalKeepsLinkCounts(db: Tables, userId: Id, q: ArchiveQuery, parseDate: string -> Timestamp)
    requires forall l :: l in db.links ==> LinkCountConsistent(db, l)
    requires HasDateFilter(BuildFilter(q, parseDate))
    ensures var after := Archived(db, userId, Select(db, userId, q, parseDate));
      forall l :: l in after.links ==> LinkCountConsistent(after, l)
  {
    var sel := Select(db, userId, q, parseDate);
    var after := Archived(db, userId, sel);
    ArchivedTables(db, userId, sel);
    if sel.linkClicks != [] {
      SelectedParentsOwned(db, userId, q, parseDate);
      var parents := LinkParents(sel.linkClicks);
      var times := LinkTimes(sel.linkClicks);
      var ids := UserLinkIds(db, userId);
      forall l | l in after.links ensures LinkCountConsistent(after, l) {
        var k :| 0 <= k < |after.links| && after.links[k] == l;
        if db.links[k].id !in ids {
          assert db.links[k] in db.links;
          LinkCountKept(db.linkClicks, parents, times, l.id);
        }
      }
    }
  }

  /** With a date filter the recount restores every icon counter. */
  lemma FilteredArchivalKeepsIconCounts(db: Tables, userId: Id, q: ArchiveQuery, parseDate: string -> Timestamp)
    requires forall i :: i in db.icons ==> IconCountConsistent(db, i)
    requires HasDateFilter(BuildFilter(q, parseDate))
    ensures var after := Archived(db, userId, Select(db, userId, q, parseDate));
      forall i :: i in after.icons ==> IconCountConsistent(after, i)
  {
    var sel := Select(db, userId, q, parseDate);
    var after := Archived(db, userId, sel);
    ArchivedTables(db, userId, sel);
    if sel.iconClicks != [] {
      SelectedParentsOwned(db, userId, q, parseDate);
      var parents := IconParents(sel.iconClicks);
      var times := IconTimes(sel.iconClicks);
      var ids := UserIconIds(db, userId);
      forall i | i in after.icons ensures IconCountConsistent(after, i) {
        var k :| 0 <= k < |after.icons| && after.icons[k] == i;
        if db.icons[k].id !in ids {
          assert db.icons[k] in db.icons;
          IconCountKept(db.iconClicks, parents, times, i.id);
        }
      }
    }
  }

  /** An archival with a date filter preserves the counter invariant. */
  lemma FilteredArchivalKeepsCounts(db: Tables, userId: Id, q: ArchiveQuery, parseDate: string -> Timestamp)
    requires CountsConsistent(db) && HasDateFilter(BuildFilter(q, parseDate))
    ensures CountsConsistent(Archived(db, userId, Select(db, userId, q, parseDate)))
  {
    FilteredArchivalKeepsLinkCounts(db, userId, q, parseDate);
    FilteredArchivalKeepsIconCounts(db, userId, q, parseDate);
  }

  /** The state of the user's links after an archival that selected link clicks. */
  lemma ArchivedLinks(db: Tables, userId: Id, sel: Selection)
    requires sel.linkClicks != []
    ensures var after := Archived(db, userId, sel);
      var clicks := Filter(db.linkClicks, KeepLinkClick(LinkParents(sel.linkClicks), LinkTimes(sel.linkClicks)));
      && after.linkClicks == clicks
      && after.links == if HasDateFilter(sel.filter) then RecountLinks(db.links, UserLinkIds(db, userId), clicks)
         else ZeroLinks(db.links, userId, UserLinkIds(db, userId))
  {
    ArchivedTables(db, userId, sel);
  }

  /** The state of the user's icons after an archival that selected icon clicks. */
  lemma ArchivedIcons(db: Tables, userId: Id, sel: Selection)
    requires sel.iconClicks != []
    ensures var after := Archived(db, userId, sel);
      var clicks := Filter(db.iconClicks, KeepIconClick(IconParents(sel.iconClicks), IconTimes(sel.iconClicks)));
      && after.iconClicks == clicks
      && after.icons == if HasDateFilter(sel.filter) then RecountIcons(db.icons, UserIconIds(db, userId), clicks)
         else ZeroIcons(db.icons, userId, UserIconIds(db, userId))
  {
    ArchivedTables(db, userId, sel);
  }

  /** Without a date filter every link of the user is set to 0 once link clicks were
      selected, so its counter is right exactly when none of its clicks remains, which
      the cap need not ensure. */
  lemma UnfilteredArchivalZeroesLinks(db: Tables, userId: Id, sel: Selection)
    requires !HasDateFilter(sel.filter) && sel.linkClicks != []
    ensures var after := Archived(db, userId, sel);
      forall l :: l in after.links && l.userId == userId ==>
        (l.clickCount == 0 && (LinkCountConsistent(after, l) <==> LinkClicksOf(after.linkClicks, l.id) == 0))
  {
    var after := Archived(db, userId, sel);
    var links := ZeroLinks(db.links, userId, UserLinkIds(db, userId));
    assert after.links == links by { ArchivedLinks(db, userId, sel); }
    forall l | l in links && l.userId == userId ensures l.clickCount == 0 {
      var k :| 0 <= k < |links| && links[k] == l;
      assert db.links[k] in db.links && db.links[k].userId == userId;
    }
  }

  /** Without a date filter every icon of the user is set to 0 once icon clicks were selected. */
  lemma UnfilteredArchivalZeroesIcons(db: Tables, userId: Id, sel: Selection)
    requires !HasDateFilter(sel.filter) && sel.iconClicks != []
    ensures var after := Archived(db, userId, sel);
      forall i :: i in after.icons && i.userId == userId ==>
        (i.clickCount == 0 && (IconCountConsistent(after, i) <==> IconClicksOf(after.iconClicks, i.id) == 0))
  {
    var after := Archived(db, userId, sel);
    var icons := ZeroIcons(db.icons, userId, UserIconIds(db, userId));
    assert after.icons == icons by { ArchivedIcons(db, userId, sel); }
    forall i | i in icons && i.userId == userId ensures i.clickCount == 0 {
      var k :| 0 <= k < |icons| && icons[k] == i;
      assert db.icons[k] in db.icons && db.icons[k].userId == userId;
    }
  }

  /** Zeroing leaves link `k` with the right counter when every click of the user's links
      was selected. */
  lemma ZeroedLinkCorrect(db: Tables, userId: Id, sel: Selection, k: int)
    requires Distinct(db.links, LinkKey) && 0 <= k < |db.links| && LinkCountConsistent(db, db.links[k])
    requires LinkParents(sel.linkClicks) <= UserLinkIds(db, userId)
    requires forall c :: c in db.linkClicks && c.userLinkId in UserLinkIds(db, userId) ==> c in sel.linkClicks
    ensures var parents := LinkParents(sel.linkClicks);
      var clicks := Filter(db.linkClicks, KeepLinkClick(parents, LinkTimes(sel.linkClicks)));
      ZeroLinks(db.links, userId, UserLinkIds(db, userId))[k].clickCount == LinkClicksOf(clicks, db.links[k].id)
  {
    var parents := LinkParents(sel.linkClicks);
    var times := LinkTimes(sel.linkClicks);
    var ids := UserLinkIds(db, userId);
    var clicks := Filter(db.linkClicks, KeepLinkClick(parents, times));
    var o := db.links[k];
    assert o in db.links;
    if o.userId == userId {
      assert o.id in ids;
      forall c | c in db.linkClicks && c.userLinkId == o.id ensures !KeepLinkClick(parents, times)(c) {
        assert c in sel.linkClicks;
      }
      FilterEmptyIff(clicks, ClickOfLink(o.id));
    } else {
      if o.id in ids {
        var m :| m in db.links && m.userId == userId && m.id == o.id;
        DistinctSame(db.links, LinkKey, m, o);
      }
      LinkCountKept(db.linkClicks, parents, times, o.id);
    }
  }

  /** Zeroing leaves icon `k` with the right counter when every click of the user's icons
      was selected. */
  lemma ZeroedIconCorrect(db: Tables, userId: Id, sel: Selection, k: int)
    requires Distinct(db.icons, IconKey) && 0 <= k < |db.icons| && IconCountConsistent(db, db.icons[k])
    requires IconParents(sel.iconClicks) <= UserIconIds(db, userId)
    requires forall c :: c in db.iconClicks && c.userIconId in UserIconIds(db, userId) ==> c in sel.iconClicks
    ensures var parents := IconParents(sel.iconClicks);
      var clicks := Filter(db.iconClicks, KeepIconClick(parents, IconTimes(sel.iconClicks)));
      ZeroIcons(db.icons, userId, UserIconIds(db, userId))[k].clickCount == IconClicksOf(clicks, db.icons[k].id)
  {
    var parents := IconParents(sel.iconClicks);
    var times := IconTimes(sel.iconClicks);
    var ids := UserIconIds(db, userId);
    var clicks := Filter(db.iconClicks, KeepIconClick(parents, times));
    var o := db.icons[k];
    assert o in db.icons;
    if o.userId == userId {
      assert o.id in ids;
      forall c | c in db.iconClicks && c.userIconId == o.id ensures !KeepIconClick(parents, times)(c) {
        assert c in sel.iconClicks;
      }
      FilterEmptyIff(clicks, ClickOfIcon(o.id));
    } else {
      if o.id in ids {
        var m :| m in db.icons && m.userId == userId && m.id == o.id;
        DistinctSame(db.icons, IconKey, m, o);
      }
      IconCountKept(db.iconClicks, parents, times, o.id);
    }
  }

  /** Zeroing is right when every click of the user's links was selected. */
  lemma ZeroingKeepsLinkCounts(db: Tables, userId: Id, sel: Selection)
    requires Distinct(db.links, LinkKey) && forall l :: l in db.links ==> LinkCountConsistent(db, l)
    requires LinkParents(sel.linkClicks) <= UserLinkIds(db, userId)
    requires forall c :: c in db.linkClicks && c.userLinkId in UserLinkIds(db, userId) ==> c in sel.linkClicks
    ensures var clicks := Filter(db.linkClicks, KeepLinkClick(LinkParents(sel.linkClicks), LinkTimes(sel.linkClicks)));
      var links := ZeroLinks(db.links, userId, UserLinkIds(db, userId));
      forall l :: l in links ==> l.clickCount == LinkClicksOf(clicks, l.id)
  {
    var links := ZeroLinks(db.links, userId, UserLinkIds(db, userId));
    forall l | l in links
      ensures l.clickCount == LinkClicksOf(Filter(db.linkClicks, KeepLinkClick(LinkParents(sel.linkClicks), LinkTimes(sel.linkClicks))), l.id)
    {
      var k :| 0 <= k < |links| && links[k] == l;
      ZeroedLinkCorrect(db, userId, sel, k);
    }
  }

  /** Zeroing is right when every click of the user's icons was selected. */
  lemma ZeroingKeepsIconCounts(db: Tables, userId: Id, sel: Selection)
    requires Distinct(db.icons, IconKey) && forall i :: i in db.icons ==> IconCountConsistent(db, i)
    requires IconParents(sel.iconClicks) <= UserIconIds(db, userId)
    requires forall c :: c in db.iconClicks && c.userIconId in UserIconIds(db, userId) ==> c in sel.iconClicks
    ensures var clicks := Filter(db.iconClicks, KeepIconClick(IconParents(sel.iconClicks), IconTimes(sel.iconClicks)));
      var icons := ZeroIcons(db.icons, userId, UserIconIds(db, userId));
      forall i :: i in icons ==> i.clickCount == IconClicksOf(clicks, i.id)
  {
    var icons := ZeroIcons(db.icons, userId, UserIconIds(db, userId));
    forall i | i in icons
      ensures i.clickCount == IconClicksOf(Filter(db.iconClicks, KeepIconClick(IconParents(sel.iconClicks), IconTimes(sel.iconClicks))), i.id)
    {
      var k :| 0 <= k < |icons| && icons[k] == i;
      ZeroedIconCorrect(db, userId, sel, k);
    }
  }

  /** Without a date filter and below the cap, zeroing restores every link counter. */
  lemma UnfilteredUnderCapKeepsLinkCounts(db: Tables, userId: Id, q: ArchiveQuery, parseDate: string -> Timestamp)
    requires WellFormed(db) && forall l :: l in db.links ==> LinkCountConsistent(db, l)
    requires !HasDateFilter(BuildFilter(q, parseDate))
    requires |Filter(db.linkClicks, LinkClickMatches(LinkIdsOf(db.links, userId), BuildFilter(q, parseDate)))| <= Cap
    ensures var after := Archived(db, userId, Select(db, userId, q, parseDate));
      forall l :: l in after.links ==> LinkCountConsistent(after, l)
  {
    var sel := Select(db, userId, q, parseDate);
    if sel.linkClicks == [] {
      ArchivedTables(db, userId, sel);
    } else {
      var clicks := Filter(db.linkClicks, KeepLinkClick(LinkParents(sel.linkClicks), LinkTimes(sel.linkClicks)));
      var links := ZeroLinks(db.links, userId, UserLinkIds(db, userId));
      assert Archived(db, userId, sel).linkClicks == clicks && Archived(db, userId, sel).links == links by {
        ArchivedLinks(db, userId, sel);
      }
      SelectedParentsOwned(db, userId, q, parseDate);
      assert forall c :: c in db.linkClicks && c.userLinkId in UserLinkIds(db, userId) ==> c in sel.linkClicks by {
        SelectionCompleteUnderCap(db, userId, q, parseDate);
      }
      ZeroingKeepsLinkCounts(db, userId, sel);
    }
  }

  /** Without a date filter and below the cap, zeroing restores every icon counter. */
  lemma UnfilteredUnderCapKeepsIconCounts(db: Tables, userId: Id, q: ArchiveQuery, parseDate: string -> Timestamp)
    requires WellFormed(db) && forall i :: i in db.icons ==> IconCountConsistent(db, i)
    requires !HasDateFilter(BuildFilter(q, parseDate))
    requires |Filter(db.iconClicks, IconClickMatches(IconIdsOf(db.icons, userId), BuildFilter(q, parseDate)))| <= Cap
    ensures var after := Archived(db, userId, Select(db, userId, q, parseDate));
      forall i :: i in after.icons ==> IconCountConsistent(after, i)
  {
    var sel := Select(db, userId, q, parseDate);
    if sel.iconClicks == [] {
      ArchivedTables(db, userId, sel);
    } else {
      var clicks := Filter(db.iconClicks, KeepIconClick(IconParents(sel.iconClicks), IconTimes(sel.iconClicks)));
      var icons := ZeroIcons(db.icons, userId, UserIconIds(db, userId));
      assert Archived(db, userId, sel).iconClicks == clicks && Archived(db, userId, sel).icons == icons by {
        ArchivedIcons(db, userId, sel);
      }
      SelectedParentsOwned(db, userId, q, parseDate);
      assert forall c :: c in db.iconClicks && c.userIconId in UserIconIds(db, userId) ==> c in sel.iconClicks by {
        SelectionCompleteUnderCap(db, userId, q, parseDate);
      }
      ZeroingKeepsIconCounts(db, userId, sel);
    }
  }

  /** Without a date filter the counter invariant survives when no category exceeds the cap. */
  lemma UnfilteredUnderCapKeepsCounts(db: Tables, userId: Id, q: ArchiveQuery, parseDate: string -> Timestamp)
    requires WellFormed(db) && CountsConsistent(db) && !HasDateFilter(BuildFilter(q, parseDate))
    requires |Filter(db.linkClicks, LinkClickMatches(LinkIdsOf(db.links, userId), BuildFilter(q, parseDate)))| <= Cap
    requires |Filter(db.iconClicks, IconClickMatches(IconIdsOf(db.icons, userId), BuildFilter(q, parseDate)))| <= Cap
    ensures CountsConsistent(Archived(db, userId, Select(db, userId, q, parseDate)))
  {
    UnfilteredUnderCapKeepsLinkCounts(db, userId, q, parseDate);
    UnfilteredUnderCapKeepsIconCounts(db, userId, q, parseDate);
  }

  /** Rows of two equally long link tables that agree on ids. */
  lemma SameLinkIds(a: seq<Link>, b: seq<Link>)
    requires |a| == |b| && forall k :: 0 <= k < |a| ==> a[k].id == b[k].id
    ensures Distinct(a, LinkKey) ==> Distinct(b, LinkKey)
    ensures LinkIds(a) == LinkIds(b)
  {
    forall id | id in LinkIds(a) ensures id in LinkIds(b) {
      var l :| l in a && l.id == id;
      var k :| 0 <= k < |a| && a[k] == l;
      assert b[k] in b;
    }
    forall id | id in LinkIds(b) ensures id in LinkIds(a) {
      var l :| l in b && l.id == id;
      var k :| 0 <= k < |b| && b[k] == l;
      assert a[k] in a;
    }
  }

  /** Rows of two equally long icon tables that agree on ids. */
  lemma SameIconIds(a: seq<Icon>, b: seq<Icon>)
    requires |a| == |b| && forall k :: 0 <= k < |a| ==> a[k].id == b[k].id
    ensures Distinct(a, IconKey) ==> Distinct(b, IconKey)
    ensures IconIds(a) == IconIds(b)
  {
    forall id | id in IconIds(a) ensures id in IconIds(b) {
      var i :| i in a && i.id == id;
      var k :| 0 <= k < |a| && a[k] == i;
      assert b[k] in b;
    }
    forall id | id in IconIds(b) ensures id in IconIds(a) {
      var i :| i in b && i.id == id;
      var k :| 0 <= k < |b| && b[k] == i;
      assert a[k] in a;
    }
  }

  lemma PageViewStepWellFormed(db: Tables, sel: Selection)
    requires WellFormed(db)
    ensures WellFormed(ArchivePageViews(db, sel))
  {
    if sel.pageViews != [] {
      FilterDistinct(db.pageViews, KeepPageView(PageViewIdSet(sel.pageViews)), PageViewKey);
    }
  }

  lemma LinkStepWellFormed(db: Tables, userId: Id, sel: Selection)
    requires WellFormed(db)
    ensures WellFormed(ArchiveLinkClicks(db, userId, sel))
  {
    if sel.linkClicks != [] {
      var step := ArchiveLinkClicks(db, userId, sel);
      FilterDistinct(db.linkClicks, KeepLinkClick(LinkParents(sel.linkClicks), LinkTimes(sel.linkClicks)), LinkClickKey);
      SameLinkIds(db.links, step.links);
    }
  }

  lemma IconStepWellFormed(db: Tables, userId: Id, sel: Selection)
    requires WellFormed(db)
    ensures WellFormed(ArchiveIconClicks(db, userId, sel))
  {
    if sel.iconClicks != [] {
      var step := ArchiveIconClicks(db, userId, sel);
      FilterDistinct(db.iconClicks, KeepIconClick(IconParents(sel.iconClicks), IconTimes(sel.iconClicks)), IconClickKey);
      SameIconIds(db.icons, step.icons);
    }
  }

  /** The transaction keeps every key unique and every click attached to its parent. */
  lemma ArchivedWellFormed(db: Tables, userId: Id, sel: Selection)
    requires WellFormed(db)
    ensures WellFormed(Archived(db, userId, sel))
  {
    PageViewStepWellFormed(db, sel);
    var db1 := ArchivePageViews(db, sel);
    LinkStepWellFormed(db1, userId, sel);
    IconStepWellFormed(ArchiveLinkClicks(db1, userId, sel), userId, sel);
  }

  /** Nothing of another user changes: their page views, the clicks of links and icons
      that are not the user's, and their links and icons stay as they were. */
  lemma OtherUsersUntouched(db: Tables, userId: Id, q: ArchiveQuery, parseDate: string -> Timestamp)
    requires WellFormed(db)
    ensures var after := Archived(db, userId, Select(db, userId, q, parseDate));
      && (forall v :: v in db.pageViews && v.userId != userId ==> v in after.pageViews)
      && (forall c :: c in db.linkClicks && c.userLinkId !in UserLinkIds(db, userId) ==> c in after.linkClicks)
      && (forall c :: c in db.iconClicks && c.userIconId !in UserIconIds(db, userId) ==> c in after.iconClicks)
      && (forall k :: 0 <= k < |db.links| && db.links[k].userId != userId ==> after.links[k] == db.links[k])
      && (forall k :: 0 <= k < |db.icons| && db.icons[k].userId != userId ==> after.icons[k] == db.icons[k])
  {
    var sel := Select(db, userId, q, parseDate);
    OtherRowsKept(db, userId, q, parseDate);
    OtherLinksKept(db, userId, sel);
    OtherIconsKept(db, userId, sel);
  }

  /** The row half of `OtherUsersUntouched`. */
  lemma OtherRowsKept(db: Tables, userId: Id, q: ArchiveQuery, parseDate: string -> Timestamp)
    requires WellFormed(db)
    ensures var after := Archived(db, userId, Select(db, userId, q, parseDate));
      && (forall v :: v in db.pageViews && v.userId != userId ==> v in after.pageViews)
      && (forall c :: c in db.linkClicks && c.userLinkId !in UserLinkIds(db, userId) ==> c in after.linkClicks)
      && (forall c :: c in db.iconClicks && c.userIconId !in UserIconIds(db, userId) ==> c in after.iconClicks)
  {
    PageViewsDeletedExactly(db, userId, q, parseDate);
    LinkClicksDeleted(db, userId, q, parseDate);
    IconClicksDeleted(db, userId, q, parseDate);
    SelectionScope(db, userId, q, parseDate);
  }

  /** Archival leaves the links of other users as they were. */
  lemma OtherLinksKept(db: Tables, userId: Id, sel: Selection)
    requires Distinct(db.links, LinkKey)
    ensures var after := Archived(db, userId, sel);
      forall k :: 0 <= k < |db.links| && db.links[k].userId != userId ==> after.links[k] == db.links[k]
  {
    var after := Archived(db, userId, sel);
    ArchivedFrame(db, userId, sel);
    forall k | 0 <= k < |db.links| && db.links[k].userId != userId ensures after.links[k] == db.links[k] {
      if sel.linkClicks != [] {
        ArchivedLinks(db, userId, sel);
        if db.links[k].id in UserLinkIds(db, userId) {
          var m :| m in db.links && m.userId == userId && m.id == db.links[k].id;
          assert db.links[k] in db.links;
          DistinctSame(db.links, LinkKey, m, db.links[k]);
        }
      }
    }
  }

  /** Archival leaves the icons of other users as they were. */
  lemma OtherIconsKept(db: Tables, userId: Id, sel: Selection)
    requires Distinct(db.icons, IconKey)
    ensures var after := Archived(db, userId, sel);
      forall k :: 0 <= k < |db.icons| && db.icons[k].userId != userId ==> after.icons[k] == db.icons[k]
  {
    var after := Archived(db, userId, sel);
    ArchivedFrame(db, userId, sel);
    forall k | 0 <= k < |db.icons| && db.icons[k].userId != userId ensures after.icons[k] == db.icons[k] {
      if sel.iconClicks != [] {
        ArchivedIcons(db, userId, sel);
        if db.icons[k].id in UserIconIds(db, userId) {
          var m :| m in db.icons && m.userId == userId && m.id == db.icons[k].id;
          assert db.icons[k] in db.icons;
          DistinctSame(db.icons, IconKey, m, db.icons[k]);
        }
      }
    }
  }

  // ---------------------------------------------------------------------------------------
  // Archive files (lines 68-147), upload (149-157) and the result (208-212)

  /** The page-view archive rows: every column of the selected rows, `source` as present. */
  function PageViewRecords(vs: seq<PageView>): seq<PageViewRecord> {
    seq(|vs|, k requires 0 <= k < |vs| =>
      PageViewRecord(vs[k].id, vs[k].userId, vs[k].referrer, Some(vs[k].source), vs[k].createdAt))
  }

  /** A link-click archive row; the link's url and title come from the joined row, if any. */
  function LinkClickRecordOf(links: seq<Link>, c: LinkClick): LinkClickRecord {
    var l := FindLink(links, c.userLinkId);
    LinkClickRecord(c.userLinkId, if l.Some? then Some(l.value.url) else None,
      if l.Some? then Some(l.value.title) else None, c.createdAt)
  }

  /** An icon-click archive row with the icon's url, platform and logo, if any. */
  function IconClickRecordOf(icons: seq<Icon>, c: IconClick): IconClickRecord {
    var i := FindIcon(icons, c.userIconId);
    IconClickRecord(c.userIconId, if i.Some? then Some(i.value.url) else None,
      if i.Some? then Some(i.value.platform) else None, if i.Some? then Some(i.value.logo) else None, c.createdAt)
  }

  function LinkClickRecords(links: seq<Link>, cs: seq<LinkClick>): seq<LinkClickRecord> {
    seq(|cs|, k requires 0 <= k < |cs| => LinkClickRecordOf(links, cs[k]))
  }

  function IconClickRecords(icons: seq<Icon>, cs: seq<IconClick>): seq<IconClickRecord> {
    seq(|cs|, k requires 0 <= k < |cs| => IconClickRecordOf(icons, cs[k]))
  }

  /** `${prefix}_archive_${timestamp}.parquet`. */
  function ArchiveName(prefix: string, timestamp: nat): string {
    prefix + "_archive_" + NatToString(timestamp) + ".parquet"
  }

  /** One file per non-empty category, in the order page views, link clicks, icon clicks. */
  function ArchiveFiles(db: Tables, sel: Selection, timestamp: nat): seq<ArchiveFile> {
    (if sel.pageViews != [] then
       [ArchiveFile(ArchiveName("pageviews", timestamp), ParquetMimeType, PageViewArchive(PageViewRecords(sel.pageViews)))]
     else [])
    + (if sel.linkClicks != [] then
         [ArchiveFile(ArchiveName("linkclicks", timestamp), ParquetMimeType,
            LinkClickArchive(LinkClickRecords(db.links, sel.linkClicks)))]
       else [])
    + (if sel.iconClicks != [] then
         [ArchiveFile(ArchiveName("iconclicks", timestamp), ParquetMimeType,
            IconClickArchive(IconClickRecords(db.icons, sel.iconClicks)))]
       else [])
  }

  /** There is one file per non-empty category and none when nothing was selected; every
      file is a parquet file named after its category and the one shared timestamp, and
      holds one row per selected row of its category. */
  lemma ArchiveFilesShape(db: Tables, sel: Selection, timestamp: nat)
    ensures var files := ArchiveFiles(db, sel, timestamp);
      && |files| == (if sel.pageViews != [] then 1 else 0) + (if sel.linkClicks != [] then 1 else 0)
                    + (if sel.iconClicks != [] then 1 else 0)
      && (files == [] <==> NothingSelected(sel))
      && (forall f :: f in files ==> f.mimeType == ParquetMimeType)
      && (forall f :: f in files && f.content.PageViewArchive? ==>
            f.name == ArchiveName("pageviews", timestamp) && |f.content.pageViews| == |sel.pageViews| > 0)
      && (forall f :: f in files && f.content.LinkClickArchive? ==>
            f.name == ArchiveName("linkclicks", timestamp) && |f.content.linkClicks| == |sel.linkClicks| > 0)
      && (forall f :: f in files && f.content.IconClickArchive? ==>
            f.name == ArchiveName("iconclicks", timestamp) && |f.content.iconClicks| == |sel.iconClicks| > 0)
  {
  }

  /** The names of the three files differ, and each carries the timestamp in decimal. */
  lemma ArchiveNamesDistinct(timestamp: nat)
    ensures ArchiveName("pageviews", timestamp) != ArchiveName("linkclicks", timestamp)
    ensures ArchiveName("pageviews", timestamp) != ArchiveName("iconclicks", timestamp)
    ensures ArchiveName("linkclicks", timestamp) != ArchiveName("iconclicks", timestamp)
    ensures DecimalValue(NatToString(timestamp)) == timestamp
    ensures forall prefix :: (ArchiveName(prefix, timestamp)[|prefix| + 9..|prefix| + 9 + |NatToString(timestamp)|]
      == NatToString(timestamp))
  {
    assert ArchiveName("pageviews", timestamp)[0] != ArchiveName("linkclicks", timestamp)[0];
    assert ArchiveName("pageviews", timestamp)[0] != ArchiveName("iconclicks", timestamp)[0];
    assert ArchiveName("linkclicks", timestamp)[0] != ArchiveName("iconclicks", timestamp)[0];
    NatToStringRoundTrip(timestamp);
  }

  /** In a well-formed store every archived click row carries its parent's columns. */
  lemma ArchivedClickRecordsJoined(db: Tables, sel: Selection, k: int)
    requires WellFormed(db)
    requires forall c :: c in sel.linkClicks ==> c in db.linkClicks
    requires 0 <= k < |sel.linkClicks|
    ensures var rec := LinkClickRecords(db.links, sel.linkClicks)[k];
      && rec.userLinkId == sel.linkClicks[k].userLinkId && rec.createdAt == sel.linkClicks[k].createdAt
      && exists l :: l in db.links && l.id == rec.userLinkId && rec.linkUrl == Some(l.url) && rec.linkTitle == Some(l.title)
  {
    var c := sel.linkClicks[k];
    assert c in db.linkClicks;
    var l := FindLink(db.links, c.userLinkId);
    assert l.Some?;
  }

  /** The cold-storage folder of a user. */
  function ArchiveFolder(userId: Id): string {
    "archive/user_" + userId
  }

  /** The files as uploaded to `folder`. */
  function Stored(folder: string, files: seq<ArchiveFile>): (r: seq<StoredFile>)
    ensures |r| == |files|
    ensures forall k :: 0 <= k < |files| ==> r[k] == StoredFile(folder, files[k])
  {
    seq(|files|, k requires 0 <= k < |files| => StoredFile(folder, files[k]))
  }

  /** An upload that fails: the position of the file it fails on and the error it raises. */
  datatype UploadFailure = UploadFailure(index: nat, error: HttpError)

  /** The upload of one of `count` files fails. */
  predicate UploadFails(failure: Option<UploadFailure>, count: nat) {
    failure.Some? && failure.value.index < count
  }

  /** The keys dropped after the transaction commits. */
  function ArchiveKeys(db: Tables, userId: Id): set<CacheKey> {
    {AnalyticsKey(userId), UserLinksKey(userId), UserIconsKey(userId), UserProfileKey(ProfileSlug(db, userId))}
  }

  /** `Successfully deleted ${n} analytics ${n === 1 ? "record" : "records"}`. */
  function DeletedMessage(n: nat): string {
    "Successfully deleted " + NatToString(n) + " analytics " + (if n == 1 then "record" else "records")
  }

  /** The message names the count in decimal and ends in "records" unless the count is 1. */
  lemma DeletedMessageWording(n: nat)
    ensures var m := DeletedMessage(n);
      && DecimalValue(m[21..21 + |NatToString(n)|]) == n
      && (m[|m| - 1] == 's' <==> n != 1)
  {
    var m := DeletedMessage(n);
    assert m[21..21 + |NatToString(n)|] == NatToString(n);
    NatToStringRoundTrip(n);
  }

  /** A count of rows is reported as their sum over the three tables. */
  lemma DeletedCountSplit(db: Tables, userId: Id, sel: Selection)
    ensures var after := Archived(db, userId, sel);
      && |after.pageViews| <= |db.pageViews| && |after.linkClicks| <= |db.linkClicks|
      && |after.iconClicks| <= |db.iconClicks|
      && (NothingSelected(sel) ==> DeletedCount(db, userId, sel) == 0)
  {
    ArchivedTables(db, userId, sel);
  }

  // ---------------------------------------------------------------------------------------
  // The handler

  /** One more pass of the link recount loop. */
  lemma RecountLinksStep(links: seq<Link>, ids: set<Id>, clicks: seq<LinkClick>, id: Id)
    ensures SetLinkCount(RecountLinks(links, ids, clicks), id, LinkClicksOf(clicks, id))
      == RecountLinks(links, ids + {id}, clicks)
  {
  }

  /** One more pass of the icon recount loop. */
  lemma RecountIconsStep(icons: seq<Icon>, ids: set<Id>, clicks: seq<IconClick>, id: Id)
    ensures SetIconCount(RecountIcons(icons, ids, clicks), id, IconClicksOf(clicks, id))
      == RecountIcons(icons, ids + {id}, clicks)
  {
  }

  /** One more id of a list. */
  lemma IdSetSnoc(ids: seq<Id>, k: int)
    requires 0 <= k < |ids|
    ensures IdSet(ids[..k + 1]) == IdSet(ids[..k]) + {ids[k]}
  {
    assert ids[..k + 1] == ids[..k] + [ids[k]];
  }

  /** The loop `for (const link of userLinks)`: each listed link gets the number of click
      rows that remain for it. */
  method RecountUserLinks(b: Backend, userLinks: seq<Id>)
    modifies b`db
    ensures b.db == old(b.db).(links := RecountLinks(old(b.db).links, IdSet(userLinks), old(b.db).linkClicks))
  {
    ghost var db0 := b.db;
    var k := 0;
    while k < |userLinks|
      invariant 0 <= k <= |userLinks|
      invariant b.db == db0.(links := RecountLinks(db0.links, IdSet(userLinks[..k]), db0.linkClicks))
    {
      var remainingClicks := LinkClicksOf(b.db.linkClicks, userLinks[k]);
      RecountLinksStep(db0.links, IdSet(userLinks[..k]), db0.linkClicks, userLinks[k]);
      IdSetSnoc(userLinks, k);
      b.db := b.db.(links := SetLinkCount(b.db.links, userLinks[k], remainingClicks));
      k := k + 1;
    }
    assert userLinks[..|userLinks|] == userLinks;
  }

  /** The loop `for (const icon of userIcons)`. */
  method RecountUserIcons(b: Backend, userIcons: seq<Id>)
    modifies b`db
    ensures b.db == old(b.db).(icons := RecountIcons(old(b.db).icons, IdSet(userIcons), old(b.db).iconClicks))
  {
    ghost var db0 := b.db;
    var k := 0;
    while k < |userIcons|
      invariant 0 <= k <= |userIcons|
      invariant b.db == db0.(icons := RecountIcons(db0.icons, IdSet(userIcons[..k]), db0.iconClicks))
    {
      var remainingClicks := IconClicksOf(b.db.iconClicks, userIcons[k]);
      RecountIconsStep(db0.icons, IdSet(userIcons[..k]), db0.iconClicks, userIcons[k]);
      IdSetSnoc(userIcons, k);
      b.db := b.db.(icons := SetIconCount(b.db.icons, userIcons[k], remainingClicks));
      k := k + 1;
    }
    assert userIcons[..|userIcons|] == userIcons;
  }

  /** The page-view part of the transaction; returns the `deleteMany` count. */
  method DeletePageViews(b: Backend, sel: Selection) returns (count: nat)
    modifies b`db
    ensures b.db == ArchivePageViews(old(b.db), sel)
    ensures count == |old(b.db).pageViews| - |b.db.pageViews|
  {
    count := 0;
    if |sel.pageViews| > 0 {
      var kept := Filter(b.db.pageViews, KeepPageView(PageViewIdSet(sel.pageViews)));
      count := |b.db.pageViews| - |kept|;
      b.db := b.db.(pageViews := kept);
    }
  }

  /** The link-click part of the transaction: delete, then recount or zero. */
  method DeleteLinkClicks(b: Backend, userId: Id, sel: Selection) returns (count: nat)
    modifies b`db
    ensures b.db == ArchiveLinkClicks(old(b.db), userId, sel)
    ensures count == |old(b.db).linkClicks| - |b.db.linkClicks|
  {
    count := 0;
    if |sel.linkClicks| > 0 {
      ghost var db0 := b.db;
      var kept := Filter(b.db.linkClicks, KeepLinkClick(LinkParents(sel.linkClicks), LinkTimes(sel.linkClicks)));
      count := |b.db.linkClicks| - |kept|;
      b.db := b.db.(linkClicks := kept);
      var userLinks := LinkIdsOf(b.db.links, userId);
      if HasDateFilter(sel.filter) {
        RecountUserLinks(b, userLinks);
      } else {
        b.db := b.db.(links := ZeroLinks(b.db.links, userId, IdSet(userLinks)));
      }
      assert b.db == ArchiveLinkClicks(db0, userId, sel);
    }
  }

  /** The icon-click part of the transaction. */
  method DeleteIconClicks(b: Backend, userId: Id, sel: Selection) returns (count: nat)
    modifies b`db
    ensures b.db == ArchiveIconClicks(old(b.db), userId, sel)
    ensures count == |old(b.db).iconClicks| - |b.db.iconClicks|
  {
    count := 0;
    if |sel.iconClicks| > 0 {
      ghost var db0 := b.db;
      var kept := Filter(b.db.iconClicks, KeepIconClick(IconParents(sel.iconClicks), IconTimes(sel.iconClicks)));
      count := |b.db.iconClicks| - |kept|;
      b.db := b.db.(iconClicks := kept);
      var userIcons := IconIdsOf(b.db.icons, userId);
      if HasDateFilter(sel.filter) {
        RecountUserIcons(b, userIcons);
      } else {
        b.db := b.db.(icons := ZeroIcons(b.db.icons, userId, IdSet(userIcons)));
      }
      assert b.db == ArchiveIconClicks(db0, userId, sel);
    }
  }

  /** The body of `db.$transaction`: the three parts in order, summing their counts. */
  method DeleteSelected(b: Backend, userId: Id, sel: Selection) returns (deleteResult: nat)
    modifies b`db
    ensures b.db == Archived(old(b.db), userId, sel)
    ensures deleteResult == DeletedCount(old(b.db), userId, sel)
  {
    var pageViews := DeletePageViews(b, sel);
    var linkClicks := DeleteLinkClicks(b, userId, sel);
    var iconClicks := DeleteIconClicks(b, userId, sel);
    deleteResult := pageViews + linkClicks + iconClicks;
  }

  /** The upload loop: every file goes to `folder` in order, stopping at the one whose
      upload throws. */
  method UploadAll(b: Backend, folder: string, files: seq<ArchiveFile>, failure: Option<UploadFailure>)
    returns (error: Option<HttpError>)
    modifies b`storage
    ensures UploadFails(failure, |files|) ==>
      error == Some(failure.value.error) && b.storage == old(b.storage) + Stored(folder, files[..failure.value.index])
    ensures !UploadFails(failure, |files|) ==> error == None && b.storage == old(b.storage) + Stored(folder, files)
  {
    var i := 0;
    while i < |files|
      invariant 0 <= i <= |files|
      invariant !(failure.Some? && failure.value.index < i)
      invariant b.storage == old(b.storage) + Stored(folder, files[..i])
    {
      if failure.Some? && failure.value.index == i {
        return Some(failure.value.error);
      }
      assert Stored(folder, files[..i + 1]) == Stored(folder, files[..i]) + [StoredFile(folder, files[i])];
      b.storage := b.storage + [StoredFile(folder, files[i])];
      i := i + 1;
    }
    assert files[..|files|] == files;
    return None;
  }

  /** The request passes the session, rate-limit and `type` checks. */
  predicate Admitted(session: Option<Id>, rateLimited: bool, q: ArchiveQuery) {
    TruthyStr(session) && !rateLimited && ValidType(q.kind)
  }

  /** What an admitted request does, from the selection on. */
  method ArchiveAndDelete(b: Backend, userId: Id, q: ArchiveQuery, parseDate: string -> Timestamp, now: nat,
      uploadFailure: Option<UploadFailure>)
    returns (r: Result<string, HttpError>)
    requires b.Valid()
    modifies b
    ensures b.Valid()
    ensures var sel := Select(old(b.db), userId, q, parseDate);
      var files := ArchiveFiles(old(b.db), sel, now);
      var folder := ArchiveFolder(userId);
      && (NothingSelected(sel) ==>
            r == Ok(NothingToDelete) && b.db == old(b.db) && b.cache == old(b.cache) && b.storage == old(b.storage))
      && (!NothingSelected(sel) && UploadFails(uploadFailure, |files|) ==>
            && r == Err(uploadFailure.value.error)
            && b.db == old(b.db) && b.cache == old(b.cache)
            && b.storage == old(b.storage) + Stored(folder, files[..uploadFailure.value.index]))
      && (!NothingSelected(sel) && !UploadFails(uploadFailure, |files|) ==>
            && b.storage == old(b.storage) + Stored(folder, files)
            && b.db == Archived(old(b.db), userId, sel)
            && b.cache == old(b.cache) - ArchiveKeys(b.db, userId)
            && r == Ok(DeletedMessage(DeletedCount(old(b.db), userId, sel))))
  {
    ghost var db0 := b.db;
    var sel := Select(b.db, userId, q, parseDate);
    if |sel.pageViews| + |sel.linkClicks| + |sel.iconClicks| == 0 {
      return Ok(NothingToDelete);
    }

    var archiveFiles := ArchiveFiles(b.db, sel, now);
    var uploadError := UploadAll(b, ArchiveFolder(userId), archiveFiles, uploadFailure);
    if uploadError.Some? {
      return Err(uploadError.value);
    }

    var deleteResult := DeleteSelected(b, userId, sel);
    ArchivedWellFormed(db0, userId, sel);

    b.Invalidate(ArchiveKeys(b.db, userId));
    return Ok(DeletedMessage(deleteResult));
  }

  /** `DELETE /api/analytics`. `rateLimited` is the verdict of the rate limiter, `parseDate`
      stands for `new Date`, `now` for `Date.now()`, and `uploadFailure` says which upload,
      if any, throws. */
  method DeleteAnalytics(b: Backend, session: Option<Id>, rateLimited: bool, q: ArchiveQuery,
      parseDate: string -> Timestamp, now: nat, uploadFailure: Option<UploadFailure>)
    returns (r: Result<string, HttpError>)
    requires b.Valid()
    modifies b
    ensures b.Valid()
    ensures !TruthyStr(session) ==> r == Err(Unauthorized)
    ensures TruthyStr(session) && rateLimited ==> r == Err(TooManyRequests)
    ensures TruthyStr(session) && !rateLimited && !ValidType(q.kind) ==> r == Err(InvalidType)
    ensures !Admitted(session, rateLimited, q) ==>
      b.db == old(b.db) && b.cache == old(b.cache) && b.storage == old(b.storage)
    ensures Admitted(session, rateLimited, q) ==> (
      var userId := session.value;
      var sel := Select(old(b.db), userId, q, parseDate);
      var files := ArchiveFiles(old(b.db), sel, now);
      var folder := ArchiveFolder(userId);
      && (NothingSelected(sel) ==>
            r == Ok(NothingToDelete) && b.db == old(b.db) && b.cache == old(b.cache) && b.storage == old(b.storage))
      && (!NothingSelected(sel) && UploadFails(uploadFailure, |files|) ==>
            && r == Err(uploadFailure.value.error)
            && b.db == old(b.db) && b.cache == old(b.cache)
            && b.storage == old(b.storage) + Stored(folder, files[..uploadFailure.value.index]))
      && (!NothingSelected(sel) && !UploadFails(uploadFailure, |files|) ==>
            && b.storage == old(b.storage) + Stored(folder, files)
            && b.db == Archived(old(b.db), userId, sel)
            && b.cache == old(b.cache) - ArchiveKeys(b.db, userId)
            && r == Ok(DeletedMessage(DeletedCount(old(b.db), userId, sel)))))
  {
    var userId :- SessionUser(session);
    if rateLimited {
      return Err(TooManyRequests);
    }
    if TruthyStr(q.kind) && q.kind.value !in Categories {
      return Err(InvalidType);
    }
    r := ArchiveAndDelete(b, userId, q, parseDate, now, uploadFailure);
  }
}
