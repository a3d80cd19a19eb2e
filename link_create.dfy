/**
 * `POST /api/links`: adds a link for the signed-in user. The new row's `order` and
 * visibility are the database's column defaults.
 */
module LinkCreate {
  import opened Wrappers
  import opened Json
  import opened Seqs
  import opened Model
  import opened Zod
  import opened LinkSchema

  /** The guards of lines 7-12: session first, then the body. */
  function Plan(session: Option<Id>, body: Json, isUrl: string -> bool): (r: Result<(Id, LinkInput), HttpError>)
    ensures SessionUser(session).Err? ==> r == Err(Unauthorized)
    ensures TruthyStr(session) && ParseCreateLink(body, isUrl).Err? ==>
      r == Err(HttpError(400, StatusText(ParseCreateLink(body, isUrl).error)))
    ensures r.Ok? <==> TruthyStr(session) && ParseCreateLink(body, isUrl).Ok?
    ensures r.Ok? ==> r.value == (session.value, ParseCreateLink(body, isUrl).value)
  {
    var userId :- SessionUser(session);
    var parsed := ParseCreateLink(body, isUrl);
    if parsed.Err? then Err(HttpError(400, StatusText(parsed.error))) else Ok((userId, parsed.value))
  }

  /** The created row: owned by the acting user, with the validated url and title. */
  function NewLink(userId: Id, input: LinkInput, newId: Id, now: Timestamp): (l: Link)
    ensures l.id == newId && l.userId == userId && l.url == input.url && l.title == input.title
    ensures l.clickCount == 0 && l.order == DefaultOrder && l.isVisible == DefaultVisible
  {
    Link(newId, userId, input.url, input.title, DefaultOrder, 0, DefaultVisible, now)
  }

  /** The columns the handler returns. */
  function CreatedView(l: Link): LinkView {
    LinkView(l.id, l.userId, l.url, l.title, l.clickCount, l.createdAt)
  }

  /** Creation adds exactly one link, the user's; every other user's links, and every
      existing link, stay as they were. */
  lemma CreationAddsOne(links: seq<Link>, userId: Id, input: LinkInput, newId: Id, now: Timestamp, other: Id)
    requires other != userId
    ensures Count(links + [NewLink(userId, input, newId, now)], OwnedLink(userId)) == Count(links, OwnedLink(userId)) + 1
    ensures Filter(links + [NewLink(userId, input, newId, now)], OwnedLink(other)) == Filter(links, OwnedLink(other))
  {
    var l := NewLink(userId, input, newId, now);
    FilterAppend(links, [l], OwnedLink(userId));
    FilterAppend(links, [l], OwnedLink(other));
    FilterCons(l, [], OwnedLink(userId));
    FilterCons(l, [], OwnedLink(other));
    assert [l] == [l] + [];
  }

  /** Inserting a row with a fresh id keeps the store well formed. */
  lemma CreatedWellFormed(db: Tables, link: Link)
    requires WellFormed(db) && link.id !in UsedIds(db)
    ensures WellFormed(db.(links := db.links + [link]))
  {
    DistinctAppend(db.links, link, LinkKey);
    assert LinkIds(db.links + [link]) == LinkIds(db.links) + {link.id};
  }

  /** The cache keys the handler deletes: the user's links and the profile. */
  function CreationKeys(db: Tables, userId: Id): set<CacheKey> {
    {UserLinksKey(userId), UserProfileKey(ProfileSlug(db, userId))}
  }

  /** `userLink.create` and the invalidation of the links and profile keys. */
  method StoreLink(b: Backend, link: Link)
    requires b.Valid() && link.id !in UsedIds(b.db)
    modifies b
    ensures b.Valid() && b.storage == old(b.storage)
    ensures b.db == old(b.db).(links := old(b.db).links + [link])
    ensures b.cache == old(b.cache) - CreationKeys(old(b.db), link.userId)
  {
    CreatedWellFormed(b.db, link);
    b.db := b.db.(links := b.db.links + [link]);
    var slug := ProfileSlug(b.db, link.userId);
    b.Invalidate({UserLinksKey(link.userId), UserProfileKey(slug)});
  }

  /** The handler. `newId` and `now` are what the database assigns to the new row. */
  method CreateLink(b: Backend, session: Option<Id>, body: Json, isUrl: string -> bool, newId: Id, now: Timestamp)
    returns (r: Result<LinkView, HttpError>)
    requires b.Valid() && newId !in UsedIds(b.db)
    modifies b
    ensures b.Valid() && b.storage == old(b.storage)
    ensures var p := Plan(session, body, isUrl);
      && (p.Err? ==> r == Err(p.error) && b.db == old(b.db) && b.cache == old(b.cache))
      && (p.Ok? ==> (r == Ok(CreatedView(NewLink(p.value.0, p.value.1, newId, now)))
            && b.db == old(b.db).(links := old(b.db).links + [NewLink(p.value.0, p.value.1, newId, now)])
            && b.cache == old(b.cache) - CreationKeys(old(b.db), p.value.0)))
  {
    var userId :- SessionUser(session);
    var result := ParseCreateLink(body, isUrl);
    if result.Err? {
      return Err(HttpError(400, StatusText(result.error)));
    }
    assert Plan(session, body, isUrl) == Ok((userId, result.value));
    var newLink := NewLink(userId, result.value, newId, now);
    StoreLink(b, newLink);
    return Ok(CreatedView(newLink));
  }
}
