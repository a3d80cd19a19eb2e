/**
 * Analytics recording (server/api/analytics/index.post.ts): a visitor's page view, link
 * click or icon click is validated, attributed to a profile owner and stored; a click also
 * increments the denormalised counter of its link or icon in the same transaction.
 */
module AnalyticsRecorder {
  import opened Wrappers
  import opened Json
  import opened Seqs
  import opened Model
  import opened Zod
  import opened Referrer
  import opened AnalyticsSchema

  const UserNotFound := HttpError(404, "User not found")
  const LinkIdRequired := HttpError(400, "Link ID is required")
  const LinkNotFound := HttpError(404, "Link not found")
  const IconIdRequired := HttpError(400, "Icon ID is required")
  const IconNotFound := HttpError(404, "Icon not found")

  /** `findFirst({ where: { id, userId } })` on links. */
  function FindOwnedLink(links: seq<Link>, id: Id, userId: Id): (r: Option<Link>)
    ensures r.Some? ==> r.value in links && r.value.id == id && r.value.userId == userId
    ensures r.None? <==> forall l :: l in links ==> !(l.id == id && l.userId == userId)
  {
    if links == [] then None
    else if links[0].id == id && links[0].userId == userId then Some(links[0])
    else FindOwnedLink(links[1..], id, userId)
  }

  /** `findFirst({ where: { id, userId } })` on icons. */
  function FindOwnedIcon(icons: seq<Icon>, id: Id, userId: Id): (r: Option<Icon>)
    ensures r.Some? ==> r.value in icons && r.value.id == id && r.value.userId == userId
    ensures r.None? <==> forall i :: i in icons ==> !(i.id == id && i.userId == userId)
  {
    if icons == [] then None
    else if icons[0].id == id && icons[0].userId == userId then Some(icons[0])
    else FindOwnedIcon(icons[1..], id, userId)
  }

  /** What a request that passes every guard records. */
  datatype Recording =
    | SelfView
    | RecordPageView(userId: Id, referrer: Option<string>, source: string)
    | RecordLinkClick(userId: Id, linkId: Id)
    | RecordIconClick(userId: Id, iconId: Id)

  /** `analyticsData.data.referrer || getHeader(event, "referer") || null`. */
  function EffectiveReferrer(bodyReferrer: Option<string>, header: Option<string>): Option<string> {
    if TruthyStr(bodyReferrer) then bodyReferrer else if TruthyStr(header) then header else None
  }

  /** The guards of the handler, in order: the body, the profile owner, the self view, and
      for a click the id and the target's ownership. `session` is the signed-in visitor's
      id, if any; `header` the `Referer` request header; `baseUrl` the service's own origin. */
  function Decide(db: Tables, body: Json, vals: Validators, session: Option<Id>, header: Option<string>,
      baseUrl: Option<string>): Result<Recording, HttpError>
  {
    match ParseRecord(body, vals)
    case Err(message) => Err(HttpError(400, message))
    case Ok(e) => DecideEvent(db, e, session, header, baseUrl)
  }

  /** The guards after validation, for a parsed event `e`. */
  function DecideEvent(db: Tables, e: AnalyticsEvent, session: Option<Id>, header: Option<string>,
      baseUrl: Option<string>): Result<Recording, HttpError>
  {
    if FindUser(db.users, e.userId).None? then Err(UserNotFound)
    else if session == Some(e.userId) then Ok(SelfView)
    else
      match e.kind
      case PageViewEvent =>
        var referrer := EffectiveReferrer(e.referrer, header);
        Ok(RecordPageView(e.userId, referrer, CategorizeReferrer(referrer, baseUrl)))
      case LinkEvent =>
        if !TruthyStr(e.id) then Err(LinkIdRequired)
        else if FindOwnedLink(db.links, e.id.value, e.userId).None? then Err(LinkNotFound)
        else Ok(RecordLinkClick(e.userId, e.id.value))
      case IconEvent =>
        if !TruthyStr(e.id) then Err(IconIdRequired)
        else if FindOwnedIcon(db.icons, e.id.value, e.userId).None? then Err(IconNotFound)
        else Ok(RecordIconClick(e.userId, e.id.value))
  }

  /** A body the schema rejects gives 400 with the first issue's message. */
  lemma InvalidBodyRejected(db: Tables, body: Json, vals: Validators, session: Option<Id>,
      header: Option<string>, baseUrl: Option<string>)
    requires ParseRecord(body, vals).Err?
    ensures Decide(db, body, vals, session, header, baseUrl) == Err(HttpError(400, ParseRecord(body, vals).error))
  {
  }

  /** An unknown profile owner gives 404, even when the visitor claims to be that owner:
      the user check comes before the self-view check. */
  lemma UnknownUserRejected(db: Tables, body: Json, vals: Validators, session: Option<Id>,
      header: Option<string>, baseUrl: Option<string>)
    requires ParseRecord(body, vals).Ok? && FindUser(db.users, ParseRecord(body, vals).value.userId).None?
    ensures Decide(db, body, vals, session, header, baseUrl) == Err(UserNotFound)
  {
  }

  /** The owner's own views and clicks are not recorded, whatever their target. */
  lemma SelfViewIgnored(db: Tables, body: Json, vals: Validators, header: Option<string>, baseUrl: Option<string>)
    requires ParseRecord(body, vals).Ok?
    requires FindUser(db.users, ParseRecord(body, vals).value.userId).Some?
    ensures Decide(db, body, vals, Some(ParseRecord(body, vals).value.userId), header, baseUrl) == Ok(SelfView)
  {
  }

  /** Whatever is recorded belongs to an existing user other than the visitor; a click
      targets a link or icon of that user, and a page view carries the body's referrer,
      else the header's, classified by `CategorizeReferrer`. */
  lemma RecordingAttributed(db: Tables, body: Json, vals: Validators, session: Option<Id>,
      header: Option<string>, baseUrl: Option<string>)
    requires Decide(db, body, vals, session, header, baseUrl).Ok?
    ensures var e := ParseRecord(body, vals).value;
      var rec := Decide(db, body, vals, session, header, baseUrl).value;
      && FindUser(db.users, e.userId).Some?
      && (rec.SelfView? <==> session == Some(e.userId))
      && (rec.RecordPageView? ==> (e.kind == PageViewEvent && rec.userId == e.userId
            && rec.referrer == EffectiveReferrer(e.referrer, header)
            && rec.source == CategorizeReferrer(rec.referrer, baseUrl)))
      && (rec.RecordLinkClick? ==> (e.kind == LinkEvent && rec.userId == e.userId
            && exists l :: l in db.links && l.id == rec.linkId && l.userId == e.userId))
      && (rec.RecordIconClick? ==> (e.kind == IconEvent && rec.userId == e.userId
            && exists i :: i in db.icons && i.id == rec.iconId && i.userId == e.userId))
  {
    EventAttributed(db, ParseRecord(body, vals).value, session, header, baseUrl);
  }

  /** `RecordingAttributed` for a parsed event. */
  lemma EventAttributed(db: Tables, e: AnalyticsEvent, session: Option<Id>, header: Option<string>,
      baseUrl: Option<string>)
    requires DecideEvent(db, e, session, header, baseUrl).Ok?
    ensures var rec := DecideEvent(db, e, session, header, baseUrl).value;
      && FindUser(db.users, e.userId).Some?
      && (rec.SelfView? <==> session == Some(e.userId))
      && (rec.RecordPageView? ==> (e.kind == PageViewEvent && rec.userId == e.userId
            && rec.referrer == EffectiveReferrer(e.referrer, header)
            && rec.source == CategorizeReferrer(rec.referrer, baseUrl)))
      && (rec.RecordLinkClick? ==> (e.kind == LinkEvent && rec.userId == e.userId
            && exists l :: l in db.links && l.id == rec.linkId && l.userId == e.userId))
      && (rec.RecordIconClick? ==> (e.kind == IconEvent && rec.userId == e.userId
            && exists i :: i in db.icons && i.id == rec.iconId && i.userId == e.userId))
  {
    var rec := DecideEvent(db, e, session, header, baseUrl).value;
    if rec.RecordLinkClick? {
      assert FindOwnedLink(db.links, rec.linkId, e.userId).Some?;
    }
    if rec.RecordIconClick? {
      assert FindOwnedIcon(db.icons, rec.iconId, e.userId).Some?;
    }
  }

  /** A click on a link or icon that is missing, or that another user owns, gives 404. */
  lemma ForeignTargetRejected(db: Tables, body: Json, vals: Validators, session: Option<Id>,
      header: Option<string>, baseUrl: Option<string>)
    requires ParseRecord(body, vals).Ok?
    requires var e := ParseRecord(body, vals).value;
      FindUser(db.users, e.userId).Some? && session != Some(e.userId) && TruthyStr(e.id)
    ensures var e := ParseRecord(body, vals).value;
      var r := Decide(db, body, vals, session, header, baseUrl);
      && ((e.kind == LinkEvent && forall l :: l in db.links && l.id == e.id.value ==> l.userId != e.userId)
            ==> r == Err(LinkNotFound))
      && ((e.kind == IconEvent && forall i :: i in db.icons && i.id == e.id.value ==> i.userId != e.userId)
            ==> r == Err(IconNotFound))
  {
  }

  // ---------------------------------------------------------------------------------------
  // Effects

  /** `userLink.update({ where: { id }, data: { clickCount: { increment: 1 } } })`. */
  function IncrementLink(links: seq<Link>, id: Id): (r: seq<Link>)
    ensures |r| == |links|
    ensures forall k :: 0 <= k < |links| ==>
      r[k] == if links[k].id == id then links[k].(clickCount := links[k].clickCount + 1) else links[k]
  {
    seq(|links|, k requires 0 <= k < |links| =>
      if links[k].id == id then links[k].(clickCount := links[k].clickCount + 1) else links[k])
  }

  /** The icon counter increment. */
  function IncrementIcon(icons: seq<Icon>, id: Id): (r: seq<Icon>)
    ensures |r| == |icons|
    ensures forall k :: 0 <= k < |icons| ==>
      r[k] == if icons[k].id == id then icons[k].(clickCount := icons[k].clickCount + 1) else icons[k]
  {
    seq(|icons|, k requires 0 <= k < |icons| =>
      if icons[k].id == id then icons[k].(clickCount := icons[k].clickCount + 1) else icons[k])
  }

  /** The tables after a recording; `newId` is the id the database assigns and `now` the
      `createdAt` it stamps. */
  function Recorded(db: Tables, rec: Recording, newId: Id, now: Timestamp): Tables {
    match rec
    case SelfView => db
    case RecordPageView(userId, referrer, source) =>
      db.(pageViews := db.pageViews + [PageView(newId, userId, referrer, source, now)])
    case RecordLinkClick(_, linkId) =>
      db.(linkClicks := db.linkClicks + [LinkClick(newId, linkId, now)], links := IncrementLink(db.links, linkId))
    case RecordIconClick(_, iconId) =>
      db.(iconClicks := db.iconClicks + [IconClick(newId, iconId, now)], icons := IncrementIcon(db.icons, iconId))
  }

  /** The keys each kind of recording invalidates. */
  function RecordKeys(db: Tables, rec: Recording): set<CacheKey> {
    match rec
    case SelfView => {}
    case RecordPageView(userId, _, _) => {AnalyticsKey(userId)}
    case RecordLinkClick(userId, _) => {AnalyticsKey(userId), UserLinksKey(userId), UserProfileKey(ProfileSlug(db, userId))}
    case RecordIconClick(userId, _) => {AnalyticsKey(userId), UserIconsKey(userId), UserProfileKey(ProfileSlug(db, userId))}
  }

  /** Appending one click adds one to the count of its parent and nothing to the others. */
  lemma LinkClicksOfAppend(clicks: seq<LinkClick>, c: LinkClick, id: Id)
    ensures LinkClicksOf(clicks + [c], id) == LinkClicksOf(clicks, id) + (if c.userLinkId == id then 1 else 0)
  {
    FilterAppend(clicks, [c], ClickOfLink(id));
  }

  /** Appending one icon click adds one to the count of its parent. */
  lemma IconClicksOfAppend(clicks: seq<IconClick>, c: IconClick, id: Id)
    ensures IconClicksOf(clicks + [c], id) == IconClicksOf(clicks, id) + (if c.userIconId == id then 1 else 0)
  {
    FilterAppend(clicks, [c], ClickOfIcon(id));
  }

  /** The insert and the increment together keep `clickCount - #clicks` of every link and
      icon as it was; nothing but the clicked parent's counter changes. */
  lemma RecordingKeepsDrift(db: Tables, rec: Recording, newId: Id, now: Timestamp)
    ensures var after := Recorded(db, rec, newId, now);
      && |after.links| == |db.links| && |after.icons| == |db.icons|
      && (forall k :: 0 <= k < |db.links| ==>
            after.links[k].clickCount - LinkClicksOf(after.linkClicks, after.links[k].id)
            == db.links[k].clickCount - LinkClicksOf(db.linkClicks, db.links[k].id))
      && (forall k :: 0 <= k < |db.icons| ==>
            after.icons[k].clickCount - IconClicksOf(after.iconClicks, after.icons[k].id)
            == db.icons[k].clickCount - IconClicksOf(db.iconClicks, db.icons[k].id))
      && (forall k :: 0 <= k < |db.links| && !(rec.RecordLinkClick? && db.links[k].id == rec.linkId) ==>
            after.links[k] == db.links[k])
      && (forall k :: 0 <= k < |db.icons| && !(rec.RecordIconClick? && db.icons[k].id == rec.iconId) ==>
            after.icons[k] == db.icons[k])
  {
    var after := Recorded(db, rec, newId, now);
    match rec
    case RecordLinkClick(_, linkId) =>
      forall k | 0 <= k < |db.links|
        ensures LinkClicksOf(after.linkClicks, db.links[k].id)
          == LinkClicksOf(db.linkClicks, db.links[k].id) + (if db.links[k].id == linkId then 1 else 0)
      {
        LinkClicksOfAppend(db.linkClicks, LinkClick(newId, linkId, now), db.links[k].id);
      }
    case RecordIconClick(_, iconId) =>
      forall k | 0 <= k < |db.icons|
        ensures IconClicksOf(after.iconClicks, db.icons[k].id)
          == IconClicksOf(db.iconClicks, db.icons[k].id) + (if db.icons[k].id == iconId then 1 else 0)
      {
        IconClicksOfAppend(db.iconClicks, IconClick(newId, iconId, now), db.icons[k].id);
      }
    case _ =>
  }

  /** Consistent counters stay consistent. */
  lemma RecordingKeepsCounts(db: Tables, rec: Recording, newId: Id, now: Timestamp)
    requires CountsConsistent(db)
    ensures CountsConsistent(Recorded(db, rec, newId, now))
  {
    var after := Recorded(db, rec, newId, now);
    RecordingKeepsDrift(db, rec, newId, now);
    forall l | l in after.links ensures LinkCountConsistent(after, l) {
      var k :| 0 <= k < |after.links| && after.links[k] == l;
      assert db.links[k] in db.links;
    }
    forall i | i in after.icons ensures IconCountConsistent(after, i) {
      var k :| 0 <= k < |after.icons| && after.icons[k] == i;
      assert db.icons[k] in db.icons;
    }
  }

  /** A recording whose target exists keeps the store well formed when the new id is fresh. */
  lemma RecordedWellFormed(db: Tables, rec: Recording, newId: Id, now: Timestamp)
    requires WellFormed(db) && newId !in UsedIds(db)
    requires rec.RecordLinkClick? ==> rec.linkId in LinkIds(db.links)
    requires rec.RecordIconClick? ==> rec.iconId in IconIds(db.icons)
    ensures WellFormed(Recorded(db, rec, newId, now))
  {
    match rec
    case RecordPageView(userId, referrer, source) =>
      DistinctAppend(db.pageViews, PageView(newId, userId, referrer, source, now), PageViewKey);
    case RecordLinkClick(_, linkId) =>
      LinkClickWellFormed(db, linkId, newId, now);
    case RecordIconClick(_, iconId) =>
      IconClickWellFormed(db, iconId, newId, now);
    case SelfView =>
  }

  lemma LinkClickWellFormed(db: Tables, linkId: Id, newId: Id, now: Timestamp)
    requires WellFormed(db) && newId !in UsedIds(db) && linkId in LinkIds(db.links)
    ensures WellFormed(db.(linkClicks := db.linkClicks + [LinkClick(newId, linkId, now)], links := IncrementLink(db.links, linkId)))
  {
    var click := LinkClick(newId, linkId, now);
    var links := IncrementLink(db.links, linkId);
    var clicks := db.linkClicks + [click];
    IncrementLinkKeys(db.links, linkId);
    assert forall c :: c in db.linkClicks ==> c.id in UsedIds(db);
    DistinctAppend(db.linkClicks, click, LinkClickKey);
    assert forall c :: c in clicks ==> c == click || c in db.linkClicks;
  }

  /** The increment keeps the link ids, hence their distinctness. */
  lemma IncrementLinkKeys(links: seq<Link>, linkId: Id)
    ensures Distinct(links, LinkKey) ==> Distinct(IncrementLink(links, linkId), LinkKey)
    ensures LinkIds(IncrementLink(links, linkId)) == LinkIds(links)
  {
    var r := IncrementLink(links, linkId);
    assert forall k :: 0 <= k < |links| ==> r[k].id == links[k].id;
    forall id | id in LinkIds(links) ensures id in LinkIds(r) {
      var l :| l in links && l.id == id;
      var k :| 0 <= k < |links| && links[k] == l;
      assert r[k] in r;
    }
  }

  lemma IconClickWellFormed(db: Tables, iconId: Id, newId: Id, now: Timestamp)
    requires WellFormed(db) && newId !in UsedIds(db) && iconId in IconIds(db.icons)
    ensures WellFormed(db.(iconClicks := db.iconClicks + [IconClick(newId, iconId, now)], icons := IncrementIcon(db.icons, iconId)))
  {
    var click := IconClick(newId, iconId, now);
    var icons := IncrementIcon(db.icons, iconId);
    var clicks := db.iconClicks + [click];
    IncrementIconKeys(db.icons, iconId);
    assert forall c :: c in db.iconClicks ==> c.id in UsedIds(db);
    DistinctAppend(db.iconClicks, click, IconClickKey);
    assert forall c :: c in clicks ==> c == click || c in db.iconClicks;
  }

  /** The increment keeps the icon ids, hence their distinctness. */
  lemma IncrementIconKeys(icons: seq<Icon>, iconId: Id)
    ensures Distinct(icons, IconKey) ==> Distinct(IncrementIcon(icons, iconId), IconKey)
    ensures IconIds(IncrementIcon(icons, iconId)) == IconIds(icons)
  {
    var r := IncrementIcon(icons, iconId);
    assert forall k :: 0 <= k < |icons| ==> r[k].id == icons[k].id;
    forall id | id in IconIds(icons) ensures id in IconIds(r) {
      var i :| i in icons && i.id == id;
      var k :| 0 <= k < |icons| && icons[k] == i;
      assert r[k] in r;
    }
  }

  // ---------------------------------------------------------------------------------------
  // The handler

  /** The response: nothing for a self view, else the success message and, for a click,
      the parent id and timestamp of the new click row. */
  datatype RecordResponse =
    | NoContent
    | PageViewRecorded
    | LinkClickRecorded(userLinkId: Id, createdAt: Timestamp)
    | IconClickRecorded(userIconId: Id, createdAt: Timestamp)
  {
    function Message(): string {
      match this
      case NoContent => ""
      case PageViewRecorded => "Page view recorded successfully"
      case LinkClickRecorded(_, _) => "Link click recorded successfully"
      case IconClickRecorded(_, _) => "Social icon click recorded successfully"
    }
  }

  function ResponseOf(rec: Recording, now: Timestamp): RecordResponse {
    match rec
    case SelfView => NoContent
    case RecordPageView(_, _, _) => PageViewRecorded
    case RecordLinkClick(_, linkId) => LinkClickRecorded(linkId, now)
    case RecordIconClick(_, iconId) => IconClickRecorded(iconId, now)
  }

  /** `pageView.create` and the invalidation of the analytics key. */
  method StorePageView(b: Backend, userId: Id, referrer: Option<string>, source: string, newId: Id, now: Timestamp)
    requires b.Valid() && newId !in UsedIds(b.db)
    modifies b
    ensures b.Valid() && b.storage == old(b.storage)
    ensures b.db == Recorded(old(b.db), RecordPageView(userId, referrer, source), newId, now)
    ensures b.cache == old(b.cache) - RecordKeys(old(b.db), RecordPageView(userId, referrer, source))
  {
    var keys := RecordKeys(b.db, RecordPageView(userId, referrer, source));
    var next := b.db.(pageViews := b.db.pageViews + [PageView(newId, userId, referrer, source, now)]);
    RecordedWellFormed(b.db, RecordPageView(userId, referrer, source), newId, now);
    b.db := next;
    b.Invalidate(keys);
  }

  /** The click transaction on a link, then the invalidation of the analytics, links and
      profile keys. */
  method StoreLinkClick(b: Backend, userId: Id, id: Id, newId: Id, now: Timestamp)
    requires b.Valid() && newId !in UsedIds(b.db) && id in LinkIds(b.db.links)
    modifies b
    ensures b.Valid() && b.storage == old(b.storage)
    ensures b.db == Recorded(old(b.db), RecordLinkClick(userId, id), newId, now)
    ensures b.cache == old(b.cache) - RecordKeys(old(b.db), RecordLinkClick(userId, id))
  {
    var keys := RecordKeys(b.db, RecordLinkClick(userId, id));
    var next := b.db.(linkClicks := b.db.linkClicks + [LinkClick(newId, id, now)], links := IncrementLink(b.db.links, id));
    LinkClickWellFormed(b.db, id, newId, now);
    b.db := next;
    b.Invalidate(keys);
  }

  /** The click transaction on an icon, then the invalidation of the analytics, icons and
      profile keys. */
  method StoreIconClick(b: Backend, userId: Id, id: Id, newId: Id, now: Timestamp)
    requires b.Valid() && newId !in UsedIds(b.db) && id in IconIds(b.db.icons)
    modifies b
    ensures b.Valid() && b.storage == old(b.storage)
    ensures b.db == Recorded(old(b.db), RecordIconClick(userId, id), newId, now)
    ensures b.cache == old(b.cache) - RecordKeys(old(b.db), RecordIconClick(userId, id))
  {
    var keys := RecordKeys(b.db, RecordIconClick(userId, id));
    var next := b.db.(iconClicks := b.db.iconClicks + [IconClick(newId, id, now)], icons := IncrementIcon(b.db.icons, id));
    IconClickWellFormed(b.db, id, newId, now);
    b.db := next;
    b.Invalidate(keys);
  }

  /** `POST /api/analytics`. `newId` and `now` are the id and `createdAt` the database gives
      the new row. The guards (validation, user lookup, self view, target lookup) are those of
      `Decide`, in the handler's order; the switch on the outcome performs the one write. */
  method RecordAnalytics(b: Backend, body: Json, vals: Validators, session: Option<Id>,
      header: Option<string>, baseUrl: Option<string>, newId: Id, now: Timestamp)
    returns (r: Result<RecordResponse, HttpError>)
    requires b.Valid() && newId !in UsedIds(b.db)
    modifies b
    ensures b.Valid() && b.storage == old(b.storage)
    ensures var d := Decide(old(b.db), body, vals, session, header, baseUrl);
      && (d.Err? ==> r == Err(d.error) && b.db == old(b.db) && b.cache == old(b.cache))
      && (d.Ok? ==> (r == Ok(ResponseOf(d.value, now))
            && b.db == Recorded(old(b.db), d.value, newId, now)
            && b.cache == old(b.cache) - RecordKeys(old(b.db), d.value)))
  {
    var decision := Decide(b.db, body, vals, session, header, baseUrl);
    if decision.Err? {
      return Err(decision.error);
    }
    var rec := decision.value;
    RecordingAttributed(b.db, body, vals, session, header, baseUrl);
    match rec {
      case SelfView =>
      case RecordPageView(userId, referrer, source) =>
        StorePageView(b, userId, referrer, source, newId, now);
      case RecordLinkClick(userId, id) =>
        ghost var link :| link in b.db.links && link.id == id && link.userId == userId;
        assert id in LinkIds(b.db.links);
        StoreLinkClick(b, userId, id, newId, now);
      case RecordIconClick(userId, id) =>
        ghost var icon :| icon in b.db.icons && icon.id == id && icon.userId == userId;
        assert id in IconIds(b.db.icons);
        StoreIconClick(b, userId, id, newId, now);
    }
    return Ok(ResponseOf(rec, now));
  }
}
