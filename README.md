# linkiosk analytics and CRUD core, modelled in Dafny

linkiosk is a link-in-bio service. Each user has a public profile page listing their links and social icons. Every profile view, link click and icon click is recorded as an analytics row. A link or icon also carries a denormalised `clickCount`, and visitors can leave guestbook comments.

This project models the server handlers and the client stores that keep that bookkeeping consistent. Everything runs over an abstract store:

- `Model.Tables` holds the users, preferences, links, icons, page views, link and icon clicks, and comments.
- `Model.Backend` is a class holding the tables, the Redis cache (a map from cache key to value and TTL class) and the cold-storage log of archived files.

What is modelled:

- **Analytics archival** (`AnalyticsArchive`, the analytics DELETE handler):
  - the type check and the inclusive date filter;
  - the capped per-category selection;
  - the empty short-circuit;
  - archive files sharing one timestamp, all uploaded before any delete;
  - the transactional delete, including the cross-product deletion predicate used for clicks;
  - `clickCount` reconciliation, by recount with a date filter and by zeroing without one;
  - the pluralised message and cache invalidation.
- **Analytics recording** (`AnalyticsRecorder`, the analytics POST handler): the ordered guards, referrer classification, and the atomic "insert click + increment counter" step.
- **Pure helpers**:
  - `Referrer`: `categorizeReferrer` and `formatSourceLabel`;
  - `Slug`: the slug-cleaning pipeline and the bounded retry loop of `generateSlug`;
  - `ClientHelpers`: `getErrorMessage` and `formatDate`.
- **Validation schemas**:
  - `Zod`: the primitives;
  - `AnalyticsSchema`, `LinkSchema` and `IconSchema`: the schemas themselves.
  - Validity of URLs, cuids and e-mail addresses is an uninterpreted predicate.
- **CRUD mutations with cache invalidation**:
  - icon creation (`IconCreate`);
  - user update (`UserUpdate`);
  - guestbook comment creation (`CommentCreate`);
  - link creation (`LinkCreate`);
  - preferences update (`PreferencesUpdate`).
- **Cache-aside reads**:
  - `AnalyticsRead`;
  - `SocialIconsRead`, which is rate limited;
  - `IconsRead`, which writes the same cache key as `SocialIconsRead`;
  - `LinksRead` and `UserRead`.
- **Client stores** (Pinia stores, written as Dafny classes):
  - `LinksStore` and `IconsStore`, list mirrors whose list operations live in `ListMirror`;
  - `UserStore`;
  - `AnalyticsStore`, including the query string of `deleteAnalytics` and its round trip.

Each server handler follows one pattern:

- A pure `Plan`/`Decide` function states the guard order and the response.
- A small method changes the `Backend` state.
- The handler is a method whose `ensures` ties the new tables and cache to those functions.
- Lemmas prove the invariants each change preserves:
  - `Model.WellFormed`: unique ids, unique slugs, and references that resolve;
  - `Model.CountsConsistent`: every `clickCount` equals the number of its click rows.

The following become parameters:

- the clock, the fresh row ids, `Math.random` and `new Date(...)`;
- the rate-limiter verdict and upload failures;
- the session;
- the outcome of each client `$fetch`.

### Behaviour worth knowing

- `server/api/links/index.post.ts` sets no `order`, so a new link takes the column default (`LinkCreate.NewLink` uses `DefaultOrder`). Unlike icons (`server/api/social-icons/index.post.ts`), links are not appended at max + 1.
- The pageView/link/icon `switch` in the analytics POST handler has a `default` branch that answers 400 "Invalid analytics type". The schema check just before it admits only those three types, so that branch is unreachable. The model has no such case.
- `categorizeReferrer` matches by substring, in table order. The patterns are therefore not anchored to host names. For example:
  - `t.co` (the twitter entry) occurs inside `reddit.com`, `pinterest.com` and `teams.microsoft.com`. Fed one of those URLs, the function returns "twitter", because that entry comes first in the table.
  - `x.com` occurs inside `yandex.com`.

  The model reproduces this behaviour. `Referrer.ClassifiedByFirstMatch` states it in general.
- `createCommentSchema`, and the link title rule, check `min(1)` before trimming. A whitespace-only name or title therefore passes validation and is stored as "" (`AnalyticsSchema.BlankNameStoredEmpty`, `LinkSchema.BlankTitleStoredEmpty`).
- The user store's `updateUser` replaces `user` with the server's `updatedUser`, which carries no relations. The computed `preferences` then fall back to the defaults until the next `getUser` (`UserStore.UserStore.UpdateUser`).

## Model

| member | source | states |
|---|---|---|
| Model.SessionUser | server/utils/helpers.ts:8-15 | The session yields a user id iff the id is present and non-empty; otherwise 401 "Unauthorized". |
| Model.FindUser | server/api/analytics/index.post.ts:15-21 | Finds a user row with the given id, and returns None iff no row has it. |
| Model.FindUserBySlug | server/api/user/index.put.ts:22-24 | Finds a user row holding the slug, and returns None iff no row holds it. |
| Model.FindPreferences | server/api/analytics/comments/index.post.ts:11-17 | Finds the preferences row of a user, and returns None iff there is none. |
| Model.LinkIdsOf | server/api/analytics/index.delete.ts:40 | Contains exactly the ids of the user's links. |
| Model.IconIdsOf | server/api/analytics/index.delete.ts:52 | Contains exactly the ids of the user's icons. |
| Model.Backend.Invalidate | server/api/analytics/index.delete.ts:210 | Removes exactly the given keys from the cache and changes nothing else. |
| Zod.StatusText | server/api/user/index.put.ts:11 | The 400 status text is the first issue's message, or "Invalid input" when that message is empty; it is never empty. |
| Zod.Cuid | shared/schemas/analytics-schema.ts:23 | Accepts exactly the strings the cuid check accepts, unchanged; reports the given message for a string it rejects. |
| Zod.Bounded | shared/schemas/analytics-schema.ts:39 | Accepts exactly the strings whose length lies in the bounds, unchanged; a string that is too short draws the "required" message. |
| Zod.NonNegativeInt | shared/schemas/link-schema.ts:13 | Accepts exactly the non-negative safe integers (at most 2^53 - 1). A number that is not a safe integer gets the integer message, and a negative safe integer the minimum message. |
| Zod.OptionalBool | shared/schemas/icon-schema.ts:12 | Accepts an absent field or a boolean, and returns that boolean. |
| Zod.HttpUrl | shared/schemas/link-schema.ts:3 | Accepts exactly the URL-valid strings starting with http:// or https://; failing either check has its own message. |
| Zod.ObjectBody | shared/schemas/analytics-schema.ts:37 | Accepts exactly JSON objects and returns their fields. |
| AnalyticsSchema.ReferrerTransform | shared/schemas/analytics-schema.ts:3-20 | Missing or blank: null. Trimmed with neither "://" nor ".": kept trimmed. Otherwise kept trimmed iff it parses as a URL, else null. |
| AnalyticsSchema.ReferrerTransformIdempotent | shared/schemas/analytics-schema.ts:3-20 | Normalising an already normalised referrer leaves it unchanged. |
| AnalyticsSchema.ParseReferrer | shared/schemas/analytics-schema.ts:3 | null or absent gives null; a string goes through the transform; any other JSON value is an error. |
| AnalyticsSchema.EventTypeOf | shared/schemas/analytics-schema.ts:22-35 | The discriminator selects exactly one of pageView, link or icon, and nothing else. |
| AnalyticsSchema.ParseRecord | shared/schemas/analytics-schema.ts:22-35 | A non-object or unknown type is rejected. An accepted record has a cuid `userId`, a normalised referrer and the type's `id` rule: required for link and icon, optional for pageView. |
| AnalyticsSchema.ParseRecordRoundTrip | shared/schemas/analytics-schema.ts:22-35 | The body the client sends for a valid event parses back to exactly that event. |
| AnalyticsSchema.EventBodyFields | app/stores/analytics-store.ts:51 | The client's event body carries type, userId, referrer, createdAt and id exactly as given, omitting absent ones. |
| AnalyticsSchema.ParseEmail | shared/schemas/analytics-schema.ts:40 | Accepts exactly "" (stored as absent) or a valid e-mail of at most 100 characters. A non-empty string that is not an e-mail gets "Invalid email address", a valid one over 100 characters the `max` message, and a non-string the union's "Invalid input". |
| AnalyticsSchema.ParseComment | shared/schemas/analytics-schema.ts:37-42 | An accepted comment has a cuid userId, a trimmed name of untrimmed length 1..100, a trimmed message of untrimmed length 1..500, and the parsed e-mail. |
| AnalyticsSchema.ParseCommentRoundTrip | shared/schemas/analytics-schema.ts:37-42 | The body the client submits for a storable comment parses back to that comment. |
| AnalyticsSchema.CommentBodyFields | app/stores/analytics-store.ts:98-113 | The submitted comment body carries userId, name, e-mail ("" when absent) and message. |
| AnalyticsSchema.BlankNameStoredEmpty | shared/schemas/analytics-schema.ts:39 | A whitespace-only name passes the length check and is stored as "". |
| LinkSchema.TrimKeepsScheme | shared/schemas/link-schema.ts:6 | Trimming a URL that starts with http:// or https:// keeps that prefix. |
| LinkSchema.LinkUrl | shared/schemas/link-schema.ts:3-6 | Accepted iff the URL check passes; the result is the trimmed URL, which still has the http(s) scheme and is trim-stable. |
| LinkSchema.LinkTitle | shared/schemas/link-schema.ts:7 | Accepted iff the untrimmed length is 1..100; the result is the trimmed title; "" draws "Title is required". |
| LinkSchema.ParseCreateLink | shared/schemas/link-schema.ts:5-8 | Accepted iff the body is an object with a valid url and title; the result holds exactly the transformed url and title. |
| LinkSchema.ParseUpdateLink | shared/schemas/link-schema.ts:10-14 | Each field is optional; a present field obeys its create rule, and order is a non-negative safe integer; an empty object gives an empty update. |
| LinkSchema.CreateLinkRoundTrip | shared/schemas/link-schema.ts:5-8 | A valid, already trimmed link input survives a body round trip unchanged. |
| LinkSchema.BlankTitleStoredEmpty | shared/schemas/link-schema.ts:7 | A whitespace-only title passes and becomes "". |
| IconSchema.Platform | shared/schemas/icon-schema.ts:8 | The platform must be a key of the social-icons table. |
| IconSchema.ParseCreateIcon | shared/schemas/icon-schema.ts:3-9 | Accepted iff the url is a valid http(s) URL and the platform is known; url and platform are unchanged, and logo is the table's entry for the platform. |
| IconSchema.ParseUpdateIcon | shared/schemas/icon-schema.ts:11-14 | order (a non-negative safe integer) and isVisible (a boolean) are each optional and kept as sent. |
| IconSchema.CreateIconDerivesLogo | shared/schemas/icon-schema.ts:9 | For any valid url and known platform, the parsed icon's logo is the table's logo for that platform. |
| Referrer.FindSource | server/utils/helpers.ts:73-77 | Returns the first table index at or after i whose patterns occur in the referrer, or None iff no later entry matches. |
| Referrer.CategorizeReferrer | server/utils/helpers.ts:38-80 | The result is "direct", "unknown" or a table name. Blank input gives "direct", as does a referrer containing the base URL. With no base URL set, every non-blank referrer gives "direct". |
| Referrer.FirstMatchUnique | server/utils/helpers.ts:73-77 | At most one entry is the first matching entry. |
| Referrer.FindSourceFindsFirst | server/utils/helpers.ts:73-77 | The search returns exactly the first matching entry. |
| Referrer.ClassifiedByFirstMatch | server/utils/helpers.ts:47-77 | A non-blank referrer without the base URL is classified as the first matching table entry's name. |
| Referrer.UnknownIffNoEntryMatches | server/utils/helpers.ts:79 | A non-blank referrer without the base URL is "unknown" iff no table entry matches it. |
| Referrer.SourceIsNamed | server/utils/helpers.ts:47-72 | No table name is "unknown" or "direct", so the three outcomes are distinguishable. |
| Referrer.FormatSourceLabel | server/utils/helpers.ts:85-121 | Blank gives "Unknown"; a known key (lowercased, trimmed) gives its label; anything else gives the normalised string with its first character upper-cased. |
| Referrer.LowerKeepsBlank | server/utils/helpers.ts:39 | Lowercasing preserves blankness, so checking blankness before or after normalising agrees. |
| Slug.CollapseHyphens | server/utils/helpers.ts:21 | The result has no hyphen runs, introduces no new characters, and keeps the leading hyphen status. |
| Slug.CollapseKeepsOthers | server/utils/helpers.ts:21 | Collapsing hyphen runs keeps every non-hyphen character, in order. |
| Slug.DropLeadingHyphens | server/utils/helpers.ts:21 | Removes exactly the leading hyphens: the result is a suffix not starting with '-'. |
| Slug.DropTrailingHyphens | server/utils/helpers.ts:21 | Removes exactly the trailing hyphens: the result is a prefix not ending with '-'. |
| Slug.StripHyphens | server/utils/helpers.ts:21 | The result is an infix with neither a leading nor a trailing hyphen. |
| Slug.CleanBaseShape | server/utils/helpers.ts:21 | The cleaned base has only lowercase word characters and hyphens, no hyphen run, and no leading or trailing hyphen. |
| Slug.FirstFree | server/utils/helpers.ts:22-29 | Returns the first attempt whose candidate is free, or 5 when every one of the 5 attempts is taken. |
| Slug.GenerateSlug | server/utils/helpers.ts:20-32 | Does at most 5 lookups. It returns the first free candidate (`base-rand`, or `rand` for an empty base) and otherwise an unchecked sixth random string. |
| ClientHelpers.Get | app/utils/helpers.ts:23 | Optional chaining: absent or null gives nothing, otherwise the named field. |
| ClientHelpers.FirstTruthy | app/utils/helpers.ts:23 | Returns the first truthy candidate at or after i, or None iff none is truthy. |
| ClientHelpers.GetErrorMessage | app/utils/helpers.ts:22-24 | Returns the first truthy of data.statusMessage, data.message, statusMessage, message; the fallback if none is truthy; the fallback for null. |
| ClientHelpers.EmptyMessagesFallBack | app/utils/helpers.ts:23 | Empty-string messages are falsy, so the fallback is returned. |
| ClientHelpers.FormatDate | app/utils/helpers.ts:4-17 | null, undefined or "" give "-". Otherwise the rendered date, with only its first character lowercased. |
| AnalyticsArchive.DateFilterSemantics | server/api/analytics/index.delete.ts:18-26 | The filter has a date filter iff a bound was given; a time is in range iff it is at or after dateFrom and at or before dateTo. |
| AnalyticsArchive.WantsOneOrAll | server/api/analytics/index.delete.ts:14-51 | With no type every category is wanted; with a valid type exactly that category is. |
| AnalyticsArchive.SelectionScope | server/api/analytics/index.delete.ts:31-61 | Every selected row belongs to the user, matches the filter and the type, and exists in the table; each category holds at most 50,000 rows in ascending createdAt. |
| AnalyticsArchive.SelectionTakesOldest | server/api/analytics/index.delete.ts:34-57 | Any matching row left unselected is no older than every selected row: the cap keeps the oldest. |
| AnalyticsArchive.SelectionCompleteUnderCap | server/api/analytics/index.delete.ts:31-61 | When fewer than the cap match, every matching row of a wanted category is selected. |
| AnalyticsArchive.SetLinkCount | server/api/analytics/index.delete.ts:176 | Sets the clickCount of the link with the id, and leaves the other links unchanged. |
| AnalyticsArchive.SetIconCount | server/api/analytics/index.delete.ts:196 | Sets the clickCount of the icon with the id, and leaves the other icons unchanged. |
| AnalyticsArchive.RecountLinks | server/api/analytics/index.delete.ts:173-178 | Each of the user's links gets its remaining click count. Every other link is unchanged. |
| AnalyticsArchive.RecountIcons | server/api/analytics/index.delete.ts:193-198 | Each of the user's icons gets its remaining click count. Every other icon is unchanged. |
| AnalyticsArchive.ZeroLinks | server/api/analytics/index.delete.ts:180-183 | Every link of the user, among the given ids, gets clickCount 0; other links are unchanged. |
| AnalyticsArchive.ZeroIcons | server/api/analytics/index.delete.ts:200-203 | Every icon of the user, among the given ids, gets clickCount 0; other icons are unchanged. |
| AnalyticsArchive.ArchivedFrame | server/api/analytics/index.delete.ts:159-206 | The transaction touches only page views, clicks and the counters of links and icons; users, preferences and comments are unchanged. |
| AnalyticsArchive.PageViewsDeletedExactly | server/api/analytics/index.delete.ts:162-165 | A page view is removed iff it was selected. |
| AnalyticsArchive.ArchivedTables | server/api/analytics/index.delete.ts:159-206 | The whole transaction's tables are those of its three steps (page views, then link clicks with their counters, then icon clicks with theirs). |
| AnalyticsArchive.LinkClicksDeleted | server/api/analytics/index.delete.ts:167-169 | A link click is removed iff its parent is a selected parent and its createdAt is a selected time (the cross product), and every such row belongs to the user. |
| AnalyticsArchive.IconClicksDeleted | server/api/analytics/index.delete.ts:187-189 | Removes an icon click iff its parent is a selected parent and its time a selected time. |
| AnalyticsArchive.ClicksDeletedExactlyUnderCap | server/api/analytics/index.delete.ts:167-189 | When at most the cap of clicks match, with or without a date filter, a click is deleted iff the query matches it. |
| AnalyticsArchive.CrossProductDeletesUnselected | server/api/analytics/index.delete.ts:168 | A click that was not selected is still deleted when one selected click shares its link and another shares its createdAt. |
| AnalyticsArchive.ExampleTakesTwo | server/api/analytics/index.delete.ts:42-45 | With a take of two, the oldest-first query over the example's three clicks returns `a` and `b` and leaves out `c`. |
| AnalyticsArchive.CrossProductDeletesUnarchivedExample | server/api/analytics/index.delete.ts:168 | In the example, `c` is not selected but is deleted, and no archived record is a click on `l1` at time 2. |
| AnalyticsArchive.DeleteByIdDeletesExactlyArchived | server/api/analytics/index.delete.ts:163 | Deleting the selected clicks by id, as the page-view step does, removes a click iff it was selected, with no bound on the number of matches. |
| AnalyticsArchive.SelectedParentsOwned | server/api/analytics/index.delete.ts:40-58 | Every selected click's parent is a link or icon of the user. |
| AnalyticsArchive.FilteredArchivalKeepsLinkCounts | server/api/analytics/index.delete.ts:171-178 | With a date filter, every link's clickCount equals its remaining click rows afterwards, if it did before. |
| AnalyticsArchive.FilteredArchivalKeepsIconCounts | server/api/analytics/index.delete.ts:191-198 | With a date filter, icon clickCounts stay consistent with the remaining click rows. |
| AnalyticsArchive.FilteredArchivalKeepsCounts | server/api/analytics/index.delete.ts:171-198 | With a date filter, the clickCount invariant is preserved for links and icons. |
| AnalyticsArchive.ArchivedLinks | server/api/analytics/index.delete.ts:171-184 | After archiving link clicks, the links are the reconciled links: recounted with a filter, zeroed without. |
| AnalyticsArchive.ArchivedIcons | server/api/analytics/index.delete.ts:191-204 | After archiving icon clicks, the icons are the recounted (filter) or zeroed (no filter) icons. |
| AnalyticsArchive.UnfilteredArchivalZeroesLinks | server/api/analytics/index.delete.ts:179-184 | Without a date filter, every link of the user has clickCount 0, even when rows beyond the cap remain. |
| AnalyticsArchive.UnfilteredArchivalZeroesIcons | server/api/analytics/index.delete.ts:199-204 | Without a date filter, every icon of the user ends with clickCount 0. |
| AnalyticsArchive.UnfilteredUnderCapKeepsCounts | server/api/analytics/index.delete.ts:179-204 | Without a filter and under the cap, zeroing leaves the clickCount invariant intact for links and icons. |
| AnalyticsArchive.UnfilteredUnderCapKeepsLinkCounts | server/api/analytics/index.delete.ts:179-184 | The link half of the above. |
| AnalyticsArchive.UnfilteredUnderCapKeepsIconCounts | server/api/analytics/index.delete.ts:199-204 | The icon half of the above. |
| AnalyticsArchive.ArchivedWellFormed | server/api/analytics/index.delete.ts:159-206 | The transaction preserves the store's well-formedness (unique ids, resolvable references). |
| AnalyticsArchive.OtherUsersUntouched | server/api/analytics/index.delete.ts:33-55 | Other users' page views, links and icons, and their clickCounts, are unchanged. |
| AnalyticsArchive.ArchiveFilesShape | server/api/analytics/index.delete.ts:68-147 | One file per non-empty category, in page-view, link, icon order, all named with the same timestamp; each holds one record per selected row. |
| AnalyticsArchive.ArchiveNamesDistinct | server/api/analytics/index.delete.ts:79-131 | The three file names differ, and each name embeds the decimal timestamp, which can be read back. |
| AnalyticsArchive.ArchivedClickRecordsJoined | server/api/analytics/index.delete.ts:107-113 | Each link-click record keeps the click's parent id and time and carries its parent link's url and title. |
| AnalyticsArchive.Stored | server/api/analytics/index.delete.ts:150-157 | Each archive file is recorded under the user's archive folder, in order. |
| AnalyticsArchive.DeletedMessageWording | server/api/analytics/index.delete.ts:212 | The message says "record" iff the count is 1, "records" otherwise, with the count in decimal. |
| AnalyticsArchive.DeletedCountSplit | server/api/analytics/index.delete.ts:160-189 | No table grows, and a transaction with nothing selected deletes nothing (count 0). |
| AnalyticsArchive.RecountLinksStep | server/api/analytics/index.delete.ts:174-177 | One loop iteration of the recount extends the recount by that link. |
| AnalyticsArchive.RecountIconsStep | server/api/analytics/index.delete.ts:194-197 | One iteration of the icon recount loop extends the recount by that icon. |
| AnalyticsArchive.RecountUserLinks | server/api/analytics/index.delete.ts:172-178 | The recount loop sets every listed link's clickCount to its remaining clicks. |
| AnalyticsArchive.RecountUserIcons | server/api/analytics/index.delete.ts:192-198 | The icon recount loop does the same for icons. |
| AnalyticsArchive.DeletePageViews | server/api/analytics/index.delete.ts:162-165 | Deletes the selected page views and returns how many rows went. |
| AnalyticsArchive.DeleteLinkClicks | server/api/analytics/index.delete.ts:167-185 | Deletes the matching link clicks, reconciles the counters, and returns the deleted count. |
| AnalyticsArchive.DeleteIconClicks | server/api/analytics/index.delete.ts:187-205 | Deletes the matching icon clicks, reconciles the counters, and returns the deleted count. |
| AnalyticsArchive.DeleteSelected | server/api/analytics/index.delete.ts:160-206 | The transaction's new tables are the archived tables, and the accumulated count is the deleted count. |
| AnalyticsArchive.UploadAll | server/api/analytics/index.delete.ts:150-157 | Appends every file in order. On a failure it stops with that error, after storing exactly the files before it. |
| AnalyticsArchive.ArchiveAndDelete | server/api/analytics/index.delete.ts:63-212 | Nothing selected: the "No analytics data found" reply, no upload, no delete, no invalidation. A failed upload: no delete and no invalidation. Otherwise the archived tables, the four keys invalidated and the counted message. |
| AnalyticsArchive.DeleteAnalytics | server/api/analytics/index.delete.ts:7-213 | The guards run in order: 401, then 429, then 400 "Invalid analytics type", each leaving all state unchanged; then the archival. |
| AnalyticsRecorder.FindOwnedLink | server/api/analytics/index.post.ts:46-52 | Finds a link with the id owned by the user; None iff there is no such link. |
| AnalyticsRecorder.FindOwnedIcon | server/api/analytics/index.post.ts:79-85 | Finds an icon with the id owned by the user; None iff there is no such icon. |
| AnalyticsRecorder.InvalidBodyRejected | server/api/analytics/index.post.ts:8-11 | A body failing the schema gives 400 with the first issue's message, whatever else holds. |
| AnalyticsRecorder.UnknownUserRejected | server/api/analytics/index.post.ts:15-21 | A valid body naming an unknown user gives 404, before the self-view check. |
| AnalyticsRecorder.SelfViewIgnored | server/api/analytics/index.post.ts:23-27 | The owner's own view or click records nothing. |
| AnalyticsRecorder.RecordingAttributed | server/api/analytics/index.post.ts:29-105 | A recording is attributed to the body's user. A page view's source is the category of the body referrer, else the header, else null. A click's target is owned by that user. |
| AnalyticsRecorder.ForeignTargetRejected | server/api/analytics/index.post.ts:42-85 | A missing target id gives 400. A target that is absent or owned by another user gives 404. |
| AnalyticsRecorder.IncrementLink | server/api/analytics/index.post.ts:58-61 | Increments only the link with the id, by exactly 1. |
| AnalyticsRecorder.IncrementIcon | server/api/analytics/index.post.ts:91-94 | Increments only the icon with the id, by exactly 1. |
| AnalyticsRecorder.RecordingKeepsDrift | server/api/analytics/index.post.ts:54-95 | For every link and icon, clickCount minus its click rows is the same before and after a recording. |
| AnalyticsRecorder.RecordingKeepsCounts | server/api/analytics/index.post.ts:54-95 | A recording preserves the clickCount invariant. |
| AnalyticsRecorder.RecordedWellFormed | server/api/analytics/index.post.ts:33-95 | A recording with a fresh id and an existing target keeps the store well formed. |
| AnalyticsRecorder.StorePageView | server/api/analytics/index.post.ts:33-36 | Inserts one page view and invalidates only the analytics key. |
| AnalyticsRecorder.StoreLinkClick | server/api/analytics/index.post.ts:54-66 | Inserts one click and increments its link in one step; invalidates the analytics, links and profile keys. |
| AnalyticsRecorder.StoreIconClick | server/api/analytics/index.post.ts:87-99 | Inserts one icon click and increments the icon; invalidates the analytics, icons and profile keys. |
| AnalyticsRecorder.RecordAnalytics | server/api/analytics/index.post.ts:6-110 | The response is the decision's. A rejection or self-view leaves tables and cache unchanged; a recording makes exactly the recorded change. |
| AnalyticsRead.JoinLinkClicks | server/api/analytics/index.get.ts:15-19 | The rows are exactly the clicks on the user's links, each once and in table order, each paired with the link its `userLinkId` names; a row is present iff its click is in the table and its link is the user's. |
| AnalyticsRead.JoinIconClicks | server/api/analytics/index.get.ts:20-24 | The rows are exactly the clicks on the user's icons, each once and in table order, each paired with the icon its `userIconId` names; a row is present iff its click is in the table and its icon is the user's. |
| AnalyticsRead.PageViewsOf | server/api/analytics/index.get.ts:10-14 | Exactly the user's page views, as a multiset, newest first. |
| AnalyticsRead.LinkClickRowsOf | server/api/analytics/index.get.ts:15-19 | The same rows as the join, each as many times (multiset equality), newest first; a row is present iff its click is on one of the user's links. |
| AnalyticsRead.IconClickRowsOf | server/api/analytics/index.get.ts:20-24 | The same rows as the join, each as many times (multiset equality), newest first; a row is present iff its click is on one of the user's icons. |
| AnalyticsRead.AnalyticsScope | server/api/analytics/index.get.ts:10-26 | In a well-formed store, a click appears in the analytics of exactly the user who owns its parent. |
| AnalyticsRead.GetAnalytics | server/api/analytics/index.get.ts:1-31 | 401 without a session. A cache hit returns the cached value verbatim and leaves the cache unchanged. A miss returns the user's analytics and stores exactly that value with short TTL. |
| SocialIconsRead.OrderedView | server/api/social-icons/index.get.ts:16-26 | The projection carries every selected field of the icon, including order and isVisible. |
| SocialIconsRead.IconsByOrder | server/api/social-icons/index.get.ts:13-28 | Exactly the user's icons (one view each), in ascending order. |
| SocialIconsRead.GetSocialIcons | server/api/social-icons/index.get.ts:1-34 | 401, then the 200/hour rate limit (429) before any cache read, then the cache hit verbatim, or the ordered icons stored under the icons key with short TTL. |
| IconsRead.CreationView | server/api/icons/index.get.ts:18-26 | The projection carries the selected fields and omits order and isVisible. |
| IconsRead.IconsByCreation | server/api/icons/index.get.ts:15-28 | Exactly the user's icons, oldest first. |
| IconsRead.SharedKeyProjections | server/api/icons/index.get.ts:9-30 | Both endpoints list the same icons under the same cache key. They differ only in the order and isVisible fields, so a hit may serve either projection. |
| IconsRead.GetIcons | server/api/icons/index.get.ts:5-33 | 401, then the hit verbatim, or the creation-ordered icons stored under the shared icons key with short TTL. |
| LinksRead.ViewOf | server/api/links/index.get.ts:13-20 | The projection carries the selected link fields. |
| LinksRead.LinksOf | server/api/links/index.get.ts:10-22 | Exactly the user's links, oldest first. |
| LinksRead.GetLinks | server/api/links/index.get.ts:1-27 | 401, then the hit verbatim, or the user's links stored under the links key with short TTL. |
| UserRead.UserDataOf | server/api/user/index.get.ts:10-20 | None iff the user is missing; otherwise the user with their preferences, and every comment and page view of theirs exactly as many times as the table holds it, and no other. |
| UserRead.GetUser | server/api/user/index.get.ts:1-25 | 401, then the hit verbatim. A missing user gives 404 and caches nothing. Otherwise the record is stored under the user-data key with short TTL. |
| IconCreate.MaxOrder | server/api/social-icons/index.post.ts:17-20 | The largest order among the user's icons, None iff the user has none. |
| IconCreate.NextOrder | server/api/social-icons/index.post.ts:17-22 | 0 when the user has no icons, else that maximum plus 1; it exceeds every order of the user. |
| IconCreate.Plan | server/api/social-icons/index.post.ts:3-25 | 401, 400 with the schema's message, 409 iff the user already has an icon on that platform, else the parsed icon with the next order. |
| IconCreate.NewIcon | server/api/social-icons/index.post.ts:25-39 | The row has the validated url, platform and logo, the computed order, the user and zero clicks. |
| IconCreate.CreationKeepsPlatformsUnique | server/api/social-icons/index.post.ts:11-14 | If each user had at most one icon per platform, this still holds after a planned creation. |
| IconCreate.CreationAppendsLast | server/api/social-icons/index.post.ts:11-18 | The new icon sorts after the user's existing icons; other users' icons are unaffected. |
| IconCreate.CreatedWellFormed | server/api/social-icons/index.post.ts:25 | Adding an icon with a fresh id keeps the store well formed. |
| IconCreate.CreateIcon | server/api/social-icons/index.post.ts:3-44 | The response is the plan's. On success exactly one icon is appended and only the icons and profile keys are invalidated; otherwise nothing changes. |
| LinkCreate.Plan | server/api/links/index.post.ts:6-14 | 401 without a session; 400 with the schema message; otherwise the user and the parsed input. |
| LinkCreate.NewLink | server/api/links/index.post.ts:16-31 | The row has the user, the validated url and title, zero clicks, and the column defaults for order and visibility (taken to be 0 and true). |
| LinkCreate.CreationAddsOne | server/api/links/index.post.ts:16-31 | The user gains exactly one link; every other user's links are unchanged. |
| LinkCreate.CreatedWellFormed | server/api/links/index.post.ts:16 | Adding a link with a fresh id keeps the store well formed. |
| LinkCreate.StoreLink | server/api/links/index.post.ts:16-35 | Appends the link and invalidates only the links and profile keys. |
| LinkCreate.CreateLink | server/api/links/index.post.ts:6-38 | The response is the plan's; on success exactly one link is appended and the links and profile keys are invalidated; otherwise nothing changes. |
| CommentCreate.Plan | server/api/analytics/comments/index.post.ts:3-18 | 400 with the schema message, 404 for an unknown user, 403 when preferences are missing or the guestbook is off, else the parsed comment. |
| CommentCreate.NewComment | server/api/analytics/comments/index.post.ts:19-26 | The row has the user, name and message, and an e-mail exactly when a non-empty one was given. |
| CommentCreate.EmptyEmailStoredNull | server/api/analytics/comments/index.post.ts:23 | An empty e-mail is stored as null. |
| CommentCreate.CreatedWellFormed | server/api/analytics/comments/index.post.ts:19 | Adding a comment for an existing user keeps the store well formed. |
| CommentCreate.StoreComment | server/api/analytics/comments/index.post.ts:19-29 | Appends the comment and invalidates only the user-data key. |
| CommentCreate.CreateComment | server/api/analytics/comments/index.post.ts:3-32 | The response is the plan's. On success exactly one comment is added and the user-data key invalidated; on rejection nothing changes. |
| UserUpdate.Apply | server/api/user/index.put.ts:30-36 | Only name, slug and description change, and only the ones supplied; id, e-mail, image and createdAt are unchanged. |
| UserUpdate.Plan | server/api/user/index.put.ts:6-47 | 401; 400 with the issue message or "Invalid input"; 409 when a changed slug is held by another user; a store failure when the row is missing or the unique index refuses; else the updated user. |
| UserUpdate.UnchangedSlugNotChecked | server/api/user/index.put.ts:21 | An omitted or unchanged slug skips the uniqueness check, and the update goes through. |
| UserUpdate.Replace | server/api/user/index.put.ts:30-31 | Replaces the row with the user's id and leaves every other row unchanged. |
| UserUpdate.ReplaceWellFormed | server/api/user/index.put.ts:30-47 | Replacing a user with a slug nobody else holds keeps the store well formed. Other users are unchanged. |
| UserUpdate.StoreUser | server/api/user/index.put.ts:30-50 | Writes the user and invalidates exactly the user-data key and the old and new profile keys. |
| UserUpdate.UpdateUser | server/api/user/index.put.ts:6-53 | The response is the plan's. On success only that user row changes and the three keys are invalidated; otherwise nothing changes. |
| PreferencesUpdate.Apply | server/api/user/preferences/index.put.ts:14-17 | The validated fields overwrite their entries and every other field is kept. |
| PreferencesUpdate.Plan | server/api/user/preferences/index.put.ts:6-17 | 401; 400 with the issue message or "Invalid input"; a store failure when the user has no preferences row; else the merged row. |
| PreferencesUpdate.Replace | server/api/user/preferences/index.put.ts:14-17 | Replaces the row of that user and no other. |
| PreferencesUpdate.ReplaceScope | server/api/user/preferences/index.put.ts:14-17 | After the replacement the user's row is the new one. Other users' rows are unchanged, and the store stays well formed. |
| PreferencesUpdate.StorePreferences | server/api/user/preferences/index.put.ts:14-21 | Writes the row and invalidates exactly the user-data and profile keys. |
| PreferencesUpdate.UpdatePreferences | server/api/user/preferences/index.put.ts:6-24 | The response is the plan's and the returned value is the updated row. On success only that row changes and the two keys are invalidated. |
| ListMirror.ReplaceFirst | app/stores/links-store.ts:51-55 | Length is kept. With no match the list is unchanged; otherwise exactly the first element with the id is replaced. |
| ListMirror.ReplaceFirstOnly | app/stores/links-store.ts:51-55 | A later element with the same id is left alone. |
| ListMirror.Remove | app/stores/links-store.ts:72-73 | Keeps exactly the elements with a different id. |
| ListMirror.RemoveKeepsOrder | app/stores/links-store.ts:72-73 | Removal distributes over concatenation, so the survivors keep their order. |
| ListMirror.RemoveSingle | app/stores/links-store.ts:72-73 | A single element survives iff its id differs. |
| ListMirror.RemoveAbsent | app/stores/links-store.ts:72-73 | Deleting an id that is not present changes nothing. |
| ListMirror.RemoveIdempotent | app/stores/links-store.ts:72-73 | Deleting twice is deleting once. |
| LinksStore.LinksStore.constructor | app/stores/links-store.ts:5-6 | Starts with no links and not loading. |
| LinksStore.LinksStore.GetLinks | app/stores/links-store.ts:8-25 | Success replaces the list with the response. Failure leaves it unchanged and rethrows. Loading is false afterwards. |
| LinksStore.LinksStore.CreateLink | app/stores/links-store.ts:27-44 | Success appends exactly the created link; failure leaves the list unchanged; loading is false afterwards. |
| LinksStore.LinksStore.UpdateLink | app/stores/links-store.ts:46-66 | Success replaces the first link with the id, and does nothing when the id is absent. Failure leaves the list unchanged. Loading is false afterwards. |
| LinksStore.LinksStore.DeleteLink | app/stores/links-store.ts:68-84 | Success removes every link with the id, keeping the others in order; failure leaves the list unchanged. |
| IconsStore.AfterAction | app/stores/icons-store.ts:15-23 | The action's error entry is cleared on success or set to the extracted message on failure; other entries are untouched. |
| IconsStore.IconsStore.constructor | app/stores/icons-store.ts:4-11 | Starts with no icons, not loading, and the four error entries null. |
| IconsStore.IconsStore.GetIcons | app/stores/icons-store.ts:13-30 | Success replaces the list. The getIcons error entry follows the outcome. Failure leaves the list unchanged. Loading is false afterwards. |
| IconsStore.IconsStore.CreateIcon | app/stores/icons-store.ts:32-49 | Success appends the icon; the createIcon error entry follows the outcome; failure leaves the list unchanged. |
| IconsStore.IconsStore.UpdateIcon | app/stores/icons-store.ts:51-71 | Success replaces the first icon with the id, if any; the updateIcon entry follows the outcome; failure leaves the list unchanged. |
| IconsStore.IconsStore.DeleteIcon | app/stores/icons-store.ts:73-89 | Success removes every icon with the id, keeping order; the deleteIcon entry follows the outcome. |
| UserStore.UserStore.constructor | app/stores/user-store.ts:5-8 | Starts with no user, no profile, not loading. |
| UserStore.UserStore.PreferencesView | app/stores/user-store.ts:7 | The user's preferences when present, else the defaults. |
| UserStore.UserStore.GetUser | app/stores/user-store.ts:10-27 | Success sets user; failure leaves it; userProfile is never touched; loading is false afterwards. |
| UserStore.UserStore.GetUserProfile | app/stores/user-store.ts:29-46 | Success sets userProfile and never user; loading is false afterwards. |
| UserStore.UserStore.UpdateUser | app/stores/user-store.ts:48-65 | Success sets user to the updated record without relations, so the preferences fall back to the defaults; failure leaves user unchanged. |
| UserStore.UserStore.UpdateUserImage | app/stores/user-store.ts:67-89 | Changes only user.image, and only when a user is loaded and the returned URL is truthy. |
| UserStore.UserStore.UpdatePreferences | app/stores/user-store.ts:91-110 | Changes only user.preferences, and only when a user is loaded and the response carries preferences. |
| UserStore.UserStore.DeleteUser | app/stores/user-store.ts:112-128 | Sets user to null only after a successful request. |
| AnalyticsStore.QueryParams | app/stores/analytics-store.ts:119-129 | At most type, dateFrom and dateTo, in that order, each only when present and non-empty. |
| AnalyticsStore.Serialize | app/stores/analytics-store.ts:130 | Empty exactly when there are no parameters. |
| AnalyticsStore.RequestPath | app/stores/analytics-store.ts:130 | Exactly "/api/analytics" with no parameters, else "/api/analytics?" and the encoded parameters. |
| AnalyticsStore.SplitJoin | app/stores/analytics-store.ts:130 | Splitting a joined string at a separator none of the parts contains gives the parts back. |
| AnalyticsStore.Lookup | server/api/analytics/index.delete.ts:13 | Finds the first value of a parameter, None iff it is absent (a repeated parameter is read by its first value). |
| AnalyticsStore.QueryRoundTrip | app/stores/analytics-store.ts:119-130 | When encoding is reversible and escapes '&' and '=', the server's query reading recovers exactly the options the client sent. |
| AnalyticsStore.LookupParams | app/stores/analytics-store.ts:119-129 | Each parameter read from the built list is the one sent (present and non-empty) or absent. |
| AnalyticsStore.AnalyticsStore.constructor | app/stores/analytics-store.ts:5-7 | Starts with no analytics, no referrer stats, not loading. |
| AnalyticsStore.AnalyticsStore.GetAnalytics | app/stores/analytics-store.ts:9-26 | Success sets analytics, and referrerStats is untouched. Failure rethrows. Loading is false afterwards. |
| AnalyticsStore.AnalyticsStore.GetReferrerStats | app/stores/analytics-store.ts:28-45 | Success sets referrerStats, and analytics is untouched. Failure is rethrown. |
| AnalyticsStore.AnalyticsStore.RecordPageView | app/stores/analytics-store.ts:47-62 | Sends the pageView event body with the user and referrer; the outcome is rethrown on failure. |
| AnalyticsStore.AnalyticsStore.RecordLinkClick | app/stores/analytics-store.ts:64-79 | Sends the link event body with the user and link id. |
| AnalyticsStore.AnalyticsStore.RecordIconClick | app/stores/analytics-store.ts:81-96 | Sends the icon event body with the user and icon id. |
| AnalyticsStore.AnalyticsStore.SubmitComment | app/stores/analytics-store.ts:98-113 | Sends the comment body built from the input. |
| AnalyticsStore.AnalyticsStore.DeleteAnalytics | app/stores/analytics-store.ts:115-141 | Appending the parameters step by step builds exactly the request path. Loading is false afterwards, and failures are rethrown. |

## Findings

| source | as written | input that shows it | evidently intended | confidence | as-written member | corrected member |
|---|---|---|---|---|---|---|
| server/api/analytics/index.delete.ts:168 | The link-click delete matches `userLinkId in (selected parents)` and `createdAt in (selected times)`, the cross product of the two lists. | More than 50000 matching clicks, where a click left out of the selection shares its link with one selected click and its createdAt with another (the example: a take of two over `a` on `l1` at 1, `b` on `l2` at 2, `c` on `l1` at 2). `c` is deleted but never archived. The icon-click delete at line 188 has the same shape. | Delete exactly the archived rows, by id, as the page-view delete at line 163 does. | not executed | AnalyticsArchive.CrossProductDeletesUnarchivedExample | AnalyticsArchive.DeleteByIdDeletesExactlyArchived |

The handler model, `AnalyticsArchive.Archived`, keeps the delete as the code writes it, so its other lemmas describe what the code does. Under the cap the two deletes agree (`AnalyticsArchive.ClicksDeletedExactlyUnderCap`). `AnalyticsArchive.DeleteLinkClicksById` and `AnalyticsArchive.DeleteIconClicksById` give the intended delete.

## Left out

- Unicode: `normalize("NFKD")`, non-ASCII case mapping, and UTF-16 lengths.
  - Strings are sequences of characters.
  - Lowercasing and uppercasing cover ASCII letters only.
  - Diacritic removal drops U+0300 to U+036F without first decomposing the input.
- Zod's default message wording: the messages the library makes up itself ("Invalid input", "Expected string" and so on) are placeholder constants. Only the messages the schemas spell out are the source's own.
- URL, cuid and e-mail validity, `new URL`, `new Date(...)`, `Date.now()`, `Math.random()` and `toLocaleDateString` are parameters. Invalid dates are not modelled: a date string always parses to a timestamp.
- Tie order of the database's `orderBy`: the model sorts stably, so rows with equal sort keys stay in table order. The store guarantees no particular order for ties.
- Apache Parquet encoding, temp files, `fs`, and `uploadFile`'s size and MIME checks. An archive file is a list of typed records. An upload is an entry in the cold-storage log, or a failure given as input.
- Redis internals, TTL expiry and the rate limiter's counting. The cache is a map whose entries carry a TTL class. The rate limiter is a boolean verdict given as input.
- Sessions, toasts, `console.error` and navigation: the session is an optional user id given as input.
- Concurrency and transaction isolation: each transaction is one atomic step, so races between overlapping archival or recording requests are not modelled.
- Foreign keys from rows to users: `Model.WellFormed` requires unique ids and slugs, and clicks that resolve to their parents. The schema's cascade rules are not part of this model.
- `updatedAt` columns and `Object.freeze` on client lists: the first carries no logic the core depends on, and the second has no counterpart for immutable values.
- The user and preferences schemas: `shared/schemas/user-schema.ts` is not part of this model. `UserUpdate` and `PreferencesUpdate` take the schema's outcome as input.
- The contents of `SOCIAL_ICONS` and `DEFAULT_PREFERENCES` are inputs (a map from platform to logo, and a map of defaults).
- `server/api/user/index.delete.ts`: it only deletes blobs, swallowing their errors, relies on a database cascade, and clears the session. None of that is logic the rest of the core depends on.
- The envelope objects of the GET responses (`{ icons: … }`, `{ links: … }`, `{ userData: … }`): each handler returns the enveloped value itself.
- `URLSearchParams` encoding of parameter names: the names are fixed ASCII words, so only values go through the `encode` parameter.
- Profile cache entries: the public profile handler that fills them is not part of this model, so profile keys appear only as keys that get invalidated.
- AnalyticsRecorder.RecordAnalytics: the response bodies carry the message and the new row's id. The row's full JSON shape is not modelled.
- Zod.NonNegativeInt: admits every non-negative safe integer as an order. The `order` column is a 32-bit integer, so the store refuses an order above 2147483647. The model counts that write as a success, because store errors are not modelled.
- AnalyticsStore.Lookup: h3's `getQuery` turns a repeated parameter into an array. The handler then answers 400 for a repeated `type`, and passes an array to `new Date` for a repeated date. The model reads the first value. The client store never repeats a parameter, so `AnalyticsStore.QueryRoundTrip` does not depend on this.
- Referrer.FormatSourceLabel: the label table is a plain object. A key such as `constructor` or `toString` finds an inherited member, which is not a string. The source then returns that member; the model treats such keys like any unknown key. `categorizeReferrer` never returns one of them.
- LinkCreate.NewLink: the default order 0 and the default visibility true are the assumed column defaults. The database schema file is not part of this model.
- UserUpdate.Plan: a missing user row, and a slug the code's check does not inspect (the empty string) that the unique index would refuse, both end in a generic store failure. The model does not give the exact Prisma error.
