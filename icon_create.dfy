/**
 * `POST /api/social-icons`: adds a social icon for the signed-in user, at most one per
 * platform, placed after the user's other icons.
 */
module IconCreate {
  import opened Wrappers
  import opened Json
  import opened Seqs
  import opened Model
  import opened Zod
  import opened IconSchema

  const PlatformTaken := HttpError(409, "Social icon for this platform already exists")

  /** `findFirst({ where: { userId }, orderBy: { order: "desc" } })?.order`: the largest
      `order` among the user's icons, if the user has any. */
  function MaxOrder(icons: seq<Icon>, userId: Id): (r: Option<int>)
    ensures r.None? <==> forall i :: i in icons ==> i.userId != userId
    ensures r.Some? ==> exists i :: i in icons && i.userId == userId && i.order == r.value
    ensures r.Some? ==> forall i :: i in icons && i.userId == userId ==> i.order <= r.value
  {
    if icons == [] then None
    else
      var rest := MaxOrder(icons[1..], userId);
      assert icons == [icons[0]] + icons[1..];
      if icons[0].userId != userId then rest
      else if rest.Some? && rest.value > icons[0].order then rest
      else Some(icons[0].order)
  }

  /** `(maxOrderIcon?.order ?? -1) + 1` (line 22): 0 for a user without icons, else one more
      than the user's largest order. */
  function NextOrder(icons: seq<Icon>, userId: Id): (r: int)
    ensures (forall i :: i in icons ==> i.userId != userId) ==> r == 0
    ensures forall i :: i in icons && i.userId == userId ==> i.order < r
    ensures (exists i :: i in icons && i.userId == userId) ==>
      exists i :: i in icons && i.userId == userId && r == i.order + 1
  {
    match MaxOrder(icons, userId)
    case None => 0
    case Some(m) => m + 1
  }

  /** `findFirst({ where: { userId, platform } })` succeeding. */
  predicate HasPlatform(icons: seq<Icon>, userId: Id, platform: string) {
    exists i :: i in icons && i.userId == userId && i.platform == platform
  }

  /** What the guards decide: the acting user, the validated input and the order. */
  datatype IconPlan = IconPlan(userId: Id, input: IconInput, order: int)

  /** The guards of lines 4-22 in their order: session, body, platform conflict. An icon
      is planned exactly when the user has no icon of that platform yet, with an order above
      all of the user's icons; only the acting user's icons are consulted. */
  function Plan(db: Tables, session: Option<Id>, body: Json, isUrl: string -> bool,
      socialIcons: map<string, string>): (r: Result<IconPlan, HttpError>)
    ensures SessionUser(session).Err? ==> r == Err(Unauthorized)
    ensures TruthyStr(session) && ParseCreateIcon(body, isUrl, socialIcons).Err? ==>
      r == Err(HttpError(400, StatusText(ParseCreateIcon(body, isUrl, socialIcons).error)))
    ensures TruthyStr(session) && ParseCreateIcon(body, isUrl, socialIcons).Ok? ==>
      var input := ParseCreateIcon(body, isUrl, socialIcons).value;
      && (r == Err(PlatformTaken) <==>
            exists i :: i in db.icons && i.userId == session.value && i.platform == input.platform)
      && (r.Ok? ==> r.value == IconPlan(session.value, input, NextOrder(db.icons, session.value)))
  {
    var userId :- SessionUser(session);
    var parsed := ParseCreateIcon(body, isUrl, socialIcons);
    if parsed.Err? then Err(HttpError(400, StatusText(parsed.error)))
    else if HasPlatform(db.icons, userId, parsed.value.platform) then Err(PlatformTaken)
    else Ok(IconPlan(userId, parsed.value, NextOrder(db.icons, userId)))
  }

  /** The created row: the database supplies the id, `createdAt`, a zero `clickCount` and
      the default visibility. */
  function NewIcon(plan: IconPlan, newId: Id, now: Timestamp): (i: Icon)
    ensures i.id == newId && i.userId == plan.userId && i.order == plan.order && i.clickCount == 0
    ensures i.url == plan.input.url && i.platform == plan.input.platform && i.logo == plan.input.logo
  {
    Icon(newId, plan.userId, plan.input.url, plan.input.platform, plan.input.logo, plan.order, 0, DefaultVisible, now)
  }

  /** The columns the handler returns: no `isVisible`. */
  function CreatedView(i: Icon): IconView {
    IconView(i.id, i.userId, i.url, i.platform, i.logo, Some(i.order), i.clickCount, None, i.createdAt)
  }

  /** Every user has at most one icon per platform. */
  ghost predicate PlatformsUnique(icons: seq<Icon>) {
    forall i, j :: i in icons && j in icons && i.userId == j.userId && i.platform == j.platform ==> i == j
  }

  /** Creation through the handler keeps platforms unique per user. */
  lemma CreationKeepsPlatformsUnique(db: Tables, session: Option<Id>, body: Json, isUrl: string -> bool,
      socialIcons: map<string, string>, newId: Id, now: Timestamp)
    requires PlatformsUnique(db.icons)
    requires Plan(db, session, body, isUrl, socialIcons).Ok?
    ensures PlatformsUnique(db.icons + [NewIcon(Plan(db, session, body, isUrl, socialIcons).value, newId, now)])
  {
  }

  /** The new icon comes after all of the user's icons in `order`, and no other user's list
      changes. */
  lemma CreationAppendsLast(icons: seq<Icon>, plan: IconPlan, newId: Id, now: Timestamp, other: Id)
    requires plan.order == NextOrder(icons, plan.userId) && other != plan.userId
    ensures forall i :: i in icons && i.userId == plan.userId ==> i.order < NewIcon(plan, newId, now).order
    ensures Filter(icons + [NewIcon(plan, newId, now)], OwnedIcon(other)) == Filter(icons, OwnedIcon(other))
  {
    FilterAppend(icons, [NewIcon(plan, newId, now)], OwnedIcon(other));
    FilterCons(NewIcon(plan, newId, now), [], OwnedIcon(other));
    assert [NewIcon(plan, newId, now)] == [NewIcon(plan, newId, now)] + [];
  }

  /** Inserting a row with a fresh id keeps the store well formed. */
  lemma CreatedWellFormed(db: Tables, icon: Icon)
    requires WellFormed(db) && icon.id !in UsedIds(db)
    ensures WellFormed(db.(icons := db.icons + [icon]))
  {
    DistinctAppend(db.icons, icon, IconKey);
    assert IconIds(db.icons + [icon]) == IconIds(db.icons) + {icon.id};
  }

  /** The cache keys the handler deletes: the user's icons and the profile. */
  function CreationKeys(db: Tables, userId: Id): set<CacheKey> {
    {UserIconsKey(userId), UserProfileKey(ProfileSlug(db, userId))}
  }

  /** The handler: the guards are `Plan`'s, in the handler's order. `newId` and `now` are
      what the database assigns to the new row. */
  method CreateIcon(b: Backend, session: Option<Id>, body: Json, isUrl: string -> bool,
      socialIcons: map<string, string>, newId: Id, now: Timestamp) returns (r: Result<IconView, HttpError>)
    requires b.Valid() && newId !in UsedIds(b.db)
    modifies b
    ensures b.Valid() && b.storage == old(b.storage)
    ensures var p := Plan(old(b.db), session, body, isUrl, socialIcons);
      && (p.Err? ==> r == Err(p.error) && b.db == old(b.db) && b.cache == old(b.cache))
      && (p.Ok? ==> (r == Ok(CreatedView(NewIcon(p.value, newId, now)))
            && b.db == old(b.db).(icons := old(b.db).icons + [NewIcon(p.value, newId, now)])
            && b.cache == old(b.cache) - CreationKeys(old(b.db), p.value.userId)))
  {
    var p := Plan(b.db, session, body, isUrl, socialIcons);
    if p.Err? {
      return Err(p.error);
    }
    var newIcon := NewIcon(p.value, newId, now);
    var keys := CreationKeys(b.db, p.value.userId);
    var next := b.db.(icons := b.db.icons + [newIcon]);
    CreatedWellFormed(b.db, newIcon);
    b.db := next;
    b.Invalidate(keys);
    return Ok(CreatedView(newIcon));
  }
}
