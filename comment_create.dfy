/**
 * `POST /api/analytics/comments`: a visitor signs a user's guestbook. No session is
 * needed; the target user must exist and have the guestbook enabled.
 */
module CommentCreate {
  import opened Wrappers
  import opened Json
  import opened Model
  import opened Zod
  import opened AnalyticsSchema

  const UserNotFound := HttpError(404, "User not found")
  const GuestbookDisabled := HttpError(403, "Guestbook is disabled for this user")

  /** `user.preferences?.enableGuestbook` is truthy. */
  predicate GuestbookEnabled(prefs: Option<Preferences>) {
    prefs.Some? && "enableGuestbook" in prefs.value.fields && Truthy(prefs.value.fields["enableGuestbook"])
  }

  /** The guards of lines 5-17 in their order: body, user, guestbook. */
  function Plan(db: Tables, body: Json, vals: Validators): (r: Result<CommentInput, HttpError>)
    ensures ParseComment(body, vals).Err? ==> r == Err(HttpError(400, StatusText(ParseComment(body, vals).error)))
    ensures ParseComment(body, vals).Ok? ==>
      var c := ParseComment(body, vals).value;
      && ((forall u :: u in db.users ==> u.id != c.userId) ==> r == Err(UserNotFound))
      && ((exists u :: u in db.users && u.id == c.userId) ==>
            (r.Ok? <==> GuestbookEnabled(FindPreferences(db.preferences, c.userId))))
      && ((exists u :: u in db.users && u.id == c.userId) && r.Err? ==> r == Err(GuestbookDisabled))
      && (r.Ok? ==> r.value == c)
  {
    var c :- match ParseComment(body, vals)
      case Err(message) => Err(HttpError(400, StatusText(message)))
      case Ok(c) => Ok(c);
    if FindUser(db.users, c.userId).None? then Err(UserNotFound)
    else if !GuestbookEnabled(FindPreferences(db.preferences, c.userId)) then Err(GuestbookDisabled)
    else Ok(c)
  }

  /** The stored row; `email || null` keeps an absent or empty email as null. */
  function NewComment(c: CommentInput, newId: Id, now: Timestamp): (r: Comment)
    ensures r.id == newId && r.userId == c.userId && r.name == c.name && r.message == c.message
    ensures r.email.Some? <==> TruthyStr(c.email)
    ensures r.email.Some? ==> r.email == c.email
  {
    Comment(newId, c.userId, c.name, if TruthyStr(c.email) then c.email else None, c.message, now)
  }

  /** A comment posted with an empty email is stored without one. */
  lemma EmptyEmailStoredNull(db: Tables, body: Json, vals: Validators, newId: Id, now: Timestamp)
    requires Plan(db, body, vals).Ok? && Field(body, "email") == Some(JStr(""))
    ensures NewComment(Plan(db, body, vals).value, newId, now).email == None
  {
    assert ParseEmail(Field(body, "email"), vals.isEmail) == Ok(None);
  }

  /** Inserting a row with a fresh id keeps the store well formed. */
  lemma CreatedWellFormed(db: Tables, comment: Comment)
    requires WellFormed(db) && comment.id !in UsedIds(db)
    ensures WellFormed(db.(comments := db.comments + [comment]))
  {
    Seqs.DistinctAppend(db.comments, comment, CommentKey);
  }

  /** `comment.create` and the invalidation of the author's data key. */
  method StoreComment(b: Backend, comment: Comment)
    requires b.Valid() && comment.id !in UsedIds(b.db)
    modifies b
    ensures b.Valid() && b.storage == old(b.storage)
    ensures b.db == old(b.db).(comments := old(b.db).comments + [comment])
    ensures b.cache == old(b.cache) - {UserDataKey(comment.userId)}
  {
    CreatedWellFormed(b.db, comment);
    b.db := b.db.(comments := b.db.comments + [comment]);
    b.Invalidate({UserDataKey(comment.userId)});
  }

  /** The handler. `newId` and `now` are what the database assigns to the new row. */
  method CreateComment(b: Backend, body: Json, vals: Validators, newId: Id, now: Timestamp)
    returns (r: Result<Comment, HttpError>)
    requires b.Valid() && newId !in UsedIds(b.db)
    modifies b
    ensures b.Valid() && b.storage == old(b.storage)
    ensures var p := Plan(old(b.db), body, vals);
      && (p.Err? ==> r == Err(p.error) && b.db == old(b.db) && b.cache == old(b.cache))
      && (p.Ok? ==> (r == Ok(NewComment(p.value, newId, now))
            && b.db == old(b.db).(comments := old(b.db).comments + [NewComment(p.value, newId, now)])
            && b.cache == old(b.cache) - {UserDataKey(p.value.userId)}))
  {
    var result := ParseComment(body, vals);
    if result.Err? {
      return Err(HttpError(400, StatusText(result.error)));
    }
    var c := result.value;
    var user := FindUser(b.db.users, c.userId);
    if user.None? {
      return Err(UserNotFound);
    }
    if !GuestbookEnabled(FindPreferences(b.db.preferences, c.userId)) {
      return Err(GuestbookDisabled);
    }
    assert Plan(b.db, body, vals) == Ok(c);
    var comment := NewComment(c, newId, now);
    StoreComment(b, comment);
    return Ok(comment);
  }
}
