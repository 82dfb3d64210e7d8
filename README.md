# MeetInfluencers scrape pipeline — a Dafny model

This project models the scrape pipeline of MeetInfluencers. The pipeline
fetches an Instagram profile and its recent posts, decides which posts are
sponsored, stores everything in a relational database and streams progress
to the browser. The model also covers a few selection and normalisation
rules of the web client.

The modules follow the program:

| module | file | what it models |
|---|---|---|
| `Common` | common.dfy | the JavaScript string operations the code relies on (`trim`, `toLowerCase`, `includes`, `replace` of one character, `join`) and `Option` |
| `Narration` | narration.dfy | the texts of scraper log lines and progress messages, as structured values |
| `ScrapeEvents` | scrape_events.dfy | `ScrapeEventEmitter`, the per-session event bus: a class holding `map<string, set<ListenerId>>` |
| `Scraper` | scraper.dfy | `extractProfileData`, `extractPostData` and the feed loop of `scrapeInfluencer` over a finite feed of `Ok`/`Err` items |
| `Schema` | schema.dfy | the `influencer`, `post` and `scrape_log` tables: keys, uniqueness, foreign keys with cascade, the status enumeration and the column defaults |
| `Store` | store.dfy | the three writes of the mutation, with SQLite's semantics: upsert on username, insert-or-skip, plain insert |
| `ScrapeRouter` | scrape_router.dfy | the `scrapeInfluencer` mutation: the event sequence, the end-of-day `dateTo`, persistence and the batched "Saved" events |
| `PartnershipTable` | partnership_table.dfy | the table's statistics, its status column and filter, and the handle columns' search text |
| `InfluencerList` | influencer_list.dfy | the influencer list's search filter and numeric sort |
| `ScrapePage` | scrape_page.dfy | the scrape form: input normalisation, submit and clear, the log built from the event stream, and the completion flags |
| `Header` | header.dfy | the navigation items and their `isActive` predicate |

Stateful parts are classes and loops are methods. Each is proved equal to a
pure specification function of its inputs or of the old state:
- `ScrapeEventEmitter`;
- the scraper's loop (`WalkFeed`);
- the database (`Database`);
- the mutation (`ScrapeRouter.ScrapeInfluencer`);
- the statistics pass;
- the in-place sort;
- the scrape page.

The properties are proved about those functions.

Where the code and its design description disagree, the model follows the
code. In the feed loop, every `Ok` item resets the consecutive-error counter,
pinned posts included. The reset comes before the pinned check
(packages/api/src/services/instaloader-scraper.ts:208-218). The design
description says a pinned post leaves every counter untouched.

## Model

| member | source | states |
|---|---|---|
| ScrapeEvents.Stamp | packages/api/src/services/scrape-events.ts:53-56 | the emitted event is the producer's type, message and data plus the timestamp |
| ScrapeEvents.Subscribed | packages/api/src/services/scrape-events.ts:24-29 | after subscribe, the session's listeners are the old ones plus `l`; other sessions are unchanged; no session maps to an empty set |
| ScrapeEvents.Unsubscribed | packages/api/src/services/scrape-events.ts:39-47 | unsubscribe removes `l`; the key stays iff listeners remain; other sessions are unchanged; no empty set appears |
| ScrapeEvents.ScrapeEventEmitter.Subscribe | packages/api/src/services/scrape-events.ts:24-29 | the map becomes `Subscribed` of the old map and the invariant is kept |
| ScrapeEvents.ScrapeEventEmitter.Unsubscribe | packages/api/src/services/scrape-events.ts:39-47 | the map becomes `Unsubscribed` of the old map and the invariant is kept |
| ScrapeEvents.ScrapeEventEmitter.Emit | packages/api/src/services/scrape-events.ts:49-65 | it reaches exactly the current listeners of the session, none twice and nothing for an unknown session; every listener gets the same stamped event; a throwing listener is recorded and delivery goes on |
| ScrapeEvents.ScrapeEventEmitter.HasListeners | packages/api/src/services/scrape-events.ts:67-69 | true iff the session is a key, which under the invariant means its set is non-empty |
| ScrapeEvents.SubscribeIdempotent | packages/api/src/services/scrape-events.ts:22-28 | listeners form a set: subscribing twice equals subscribing once |
| ScrapeEvents.SubscribeThenUnsubscribe | packages/api/src/services/scrape-events.ts:24-47 | unsubscribing a freshly subscribed listener restores the registry exactly, key eviction included |
| ScrapeEvents.UnsubscribeAbsent | packages/api/src/services/scrape-events.ts:40-41 | unsubscribing from an unknown session or an absent listener changes nothing |
| ScrapeEvents.DeliveryFollowsRegistration | packages/api/src/services/scrape-events.ts:24-65 | an emit made after `subscribe(s, l)` reaches `l`, one made after `unsubscribe(s, l)` does not, and every other listener is reached in both iff it was registered before |
| ScrapeEvents.DeliveryCount | packages/api/src/services/scrape-events.ts:58-64 | one emit makes exactly as many calls as there are listeners |
| Scraper.ExtractProfileData | packages/api/src/services/instaloader-scraper.ts:70-82 | copies the username; an absent full name becomes ""; each other field is copied, absent staying absent |
| Scraper.HasPartnershipHashtag | packages/api/src/services/instaloader-scraper.ts:85-88 | true iff some lower-cased hashtag is in {ad, sponsored, pub, partenariat, collab} |
| Scraper.WithoutOwner | packages/api/src/services/instaloader-scraper.ts:90-93 | a subsequence of the mentions without the owner that keeps every other mention with its multiplicity |
| Scraper.CoauthorNames | packages/api/src/services/instaloader-scraper.ts:95-100 | a name is kept iff it is a non-null, non-empty co-author username; "" is never kept |
| Scraper.CoauthorNamesKeepOrder | packages/api/src/services/instaloader-scraper.ts:95-100 | the kept names are the present usernames in their order, each as often as it occurs, so `map`/`filter` is pinned down |
| Scraper.ExtractPostDataFacts | packages/api/src/services/instaloader-scraper.ts:84-114 | sponsored iff the flag or a partnership hashtag; sponsor users are the mentions minus the owner ("" when absent), in order; the URL falls back to the shortcode URL and is never empty; co-authors are the non-empty usernames in order with their multiplicity |
| Scraper.PartnershipHashtagMeansSponsored | packages/api/src/services/instaloader-scraper.ts:85-88 | any hashtag at any position whose lower-case form is a partnership hashtag makes the post sponsored, with or without the flag; `#AD` is one |
| Scraper.Step | packages/api/src/services/instaloader-scraper.ts:177-251 | one loop iteration: any `Ok` item resets the error count and never aborts for authentication; a pinned post is never collected and leaves the out-of-range count alone; an error collects nothing; the walk faults exactly on a thrown item or an in-window post whose co-author lookup throws |
| Scraper.VisitError | packages/api/src/services/instaloader-scraper.ts:184-205 | an error item is handled as `Step` specifies, whatever the request: it aborts, stops or continues, never faults |
| Scraper.VisitPost | packages/api/src/services/instaloader-scraper.ts:207-250 | a post item is handled as `Step` specifies: the loop goes on, stops, or faults when normalisation throws, but never aborts for authentication |
| Scraper.StepInWindow | packages/api/src/services/instaloader-scraper.ts:207-250 | an in-window pinned post is skipped and leaves the out-of-window run alone; any other in-window post that normalises is collected and resets the run of consecutive out-of-window posts to 0, and the loop stops exactly when it is the hundredth |
| Scraper.CoauthorFailureFaults | packages/api/src/services/instaloader-scraper.ts:207-270 | a co-author lookup that throws on an in-window post faults with its message after the post was counted, logged and had reset both counters; nothing is collected |
| Scraper.CoauthorFailureFailsScrape | packages/api/src/services/instaloader-scraper.ts:144-270 | such a post at the head of the feed makes the scrape fail with the lookup's message, and the log still ends with that post's line |
| Scraper.StepPosts | packages/api/src/services/instaloader-scraper.ts:207-250 | whatever its outcome, a step adds to the collected posts exactly the item's data when it is a non-pinned in-window post, and nothing otherwise |
| Scraper.WalkFeed | packages/api/src/services/instaloader-scraper.ts:177-251 | the loop with mutable counters and early exits computes `RunFeed` |
| Scraper.ScrapeInfluencer | packages/api/src/services/instaloader-scraper.ts:144-275 | returns what `Scrape` specifies; a success carries the normalised profile and at most 100 posts, a prefix of the eligible posts |
| Scraper.RunCollectsEligiblePrefix | packages/api/src/services/instaloader-scraper.ts:214-250 | the posts collected are a prefix of the non-pinned in-window posts, in feed order, at most 100 |
| Scraper.RunCollectsAllInWindow | packages/api/src/services/instaloader-scraper.ts:244-250 | on a feed of in-window posts the loop collects every eligible post, cut at 100 |
| Scraper.ThirdErrorStops | packages/api/src/services/instaloader-scraper.ts:201-205 | the third consecutive error ends the loop normally, keeping the posts collected so far |
| Scraper.FourthOutOfRangeStops | packages/api/src/services/instaloader-scraper.ts:222-242 | the fourth consecutive out-of-window post, on either side, ends the loop without collecting it |
| Scraper.AuthAbortNeedsAuthError | packages/api/src/services/instaloader-scraper.ts:191-199 | the scrape is aborted only when the feed holds an authentication error, and one at the head always aborts it |
| Scraper.Eligible | packages/api/src/services/instaloader-scraper.ts:214-245 | every eligible post (non-pinned, in the window, normalising) is inside the window or undated |
| Schema.NewInfluencer | packages/db/src/schema/influencer.ts:15-39 | the flags default to false and both timestamps to now; given values are stored as given |
| Schema.NewPost | packages/db/src/schema/influencer.ts:45-79 | the flags default to false, the JSON arrays to `[]` and `createdAt` to now; every given value, the three handle lists included, is stored as given |
| Schema.NewScrapeLog | packages/db/src/schema/influencer.ts:85-108 | `scrapedAt` defaults to now and the error message to null; given values are stored as given |
| Schema.DeleteInfluencer | packages/db/src/schema/influencer.ts:49-51 | deleting an influencer removes exactly its posts and scrape logs and nothing else |
| Schema.DeleteKeepsConsistent | packages/db/src/schema/influencer.ts:89-91 | the cascade keeps every key, uniqueness and foreign-key constraint |
| Store.ApplyUpdate | packages/api/src/routers/scrape.ts:102-114 | the conflict update overwrites the mutable fields and keeps id, username and `createdAt` |
| Store.Database.Upsert | packages/api/src/routers/scrape.ts:88-115 | the tables become the upsert's result, or stay unchanged with the violation reported |
| Store.Database.InsertPostOrSkip | packages/api/src/routers/scrape.ts:124-139 | the tables become the insert-or-skip result, or stay unchanged with the violation reported |
| Store.Database.InsertScrapeLog | packages/api/src/routers/scrape.ts:154-161 | the tables become the insert's result, or stay unchanged with the violation reported |
| Store.UpsertByUsername | packages/api/src/routers/scrape.ts:88-115 | afterwards exactly one row holds the username; an existing row keeps its id and creation time and takes the new values; other rows are unchanged and the constraints hold; the upsert fails only on an id clash with another username |
| Store.UpsertExisting | packages/api/src/routers/scrape.ts:88-115 | on a known username the upsert keeps the set of ids and every username, rewrites that row with the update and keeps the constraints |
| Store.UpsertNew | packages/api/src/routers/scrape.ts:88-100 | on a new username and a free id the upsert adds exactly the new row and keeps the constraints |
| Store.InsertPostIdempotent | packages/api/src/routers/scrape.ts:124-139 | inserting the same post twice changes nothing the second time |
| Store.InsertPostKeepsConsistent | packages/db/src/schema/influencer.ts:45-79 | insert-or-skip keeps the constraints, never overwrites a post, and fails only on a missing influencer |
| Store.InsertScrapeLogKeepsConsistent | packages/db/src/schema/influencer.ts:85-108 | the log insert adds exactly its row, keeps the constraints, and fails exactly on a taken id or a missing influencer |
| ScrapeRouter.EndOfLocalDay | packages/api/src/routers/scrape.ts:50-54 | the result is 23:59:59.999 of the same local day, not earlier than the input |
| ScrapeRouter.EndOfLocalDayIdempotent | packages/api/src/routers/scrape.ts:50-54 | adjusting twice equals adjusting once |
| ScrapeRouter.ScraperRequest | packages/api/src/routers/scrape.ts:50-67 | a given `dateTo` is moved to the end of its day, `dateFrom` is passed as parsed, absent dates stay absent |
| ScrapeRouter.Relay | packages/api/src/routers/scrape.ts:61-66 | each scraper log line becomes one progress event, in order |
| ScrapeRouter.SavedEventsCount | packages/api/src/routers/scrape.ts:142-151 | saving n posts emits ceil(n/10) "Saved" events |
| ScrapeRouter.SavedEventsBefore | packages/api/src/routers/scrape.ts:142-151 | before the last post, one "Saved" event per ten posts |
| ScrapeRouter.SavedEventsIncrease | packages/api/src/routers/scrape.ts:142-151 | the saved counts increase strictly, and the last event reports n of n |
| ScrapeRouter.FailureText | packages/api/src/routers/scrape.ts:69-71 | the thrown message is the scraper's error, or "Scraping failed" when that is empty |
| ScrapeRouter.InfluencerValuesOf | packages/api/src/routers/scrape.ts:81-101 | the row id is `influencer_<username>`; null numbers become 0 and null flags false |
| ScrapeRouter.InfluencerUpdateOf | packages/api/src/routers/scrape.ts:102-114 | the conflict update carries the same values and `updatedAt` = now |
| ScrapeRouter.PostValuesOf | packages/api/src/routers/scrape.ts:122-139 | the post id is `post_<shortcode>` and an undated post is dated now; URL, caption, flags, sponsor users, tagged users, caption mentions and co-authors are passed as scraped, and `createdAt` is left to its default |
| ScrapeRouter.ScrapeLogValuesOf | packages/api/src/routers/scrape.ts:154-161 | the log has status success and the post count; its dates are the raw input dates, or now when absent |
| ScrapeRouter.TerminalEvent | packages/api/src/routers/scrape.ts:163-184 | the closing event is terminal, and it is `success` iff the call returns |
| ScrapeRouter.ScrapeInfluencer | packages/api/src/routers/scrape.ts:26-185 | the outcome, the events emitted and the new database are those of `Mutation` |
| ScrapeRouter.PersistScrape | packages/api/src/routers/scrape.ts:75-173 | the upsert, the post loop and the log insert compute `Persist` |
| ScrapeRouter.SaveScrapedPosts | packages/api/src/routers/scrape.ts:122-151 | the post loop leaves the tables `SavePosts` gives, reports the refused insert, and emits the batched "Saved" events up to the post it stopped at |
| ScrapeRouter.ExactlyOneTerminal | packages/api/src/routers/scrape.ts:163-184 | a rejected call emits and writes nothing; every other call emits exactly one terminal event, last: `success` iff it returns, `error` with the rethrown message otherwise |
| ScrapeRouter.OpeningAndScraperFailure | packages/api/src/routers/scrape.ts:40-71 | events open with `start` and "Initializing scraper..." followed by the relayed log lines; a scraper failure throws and writes nothing |
| ScrapeRouter.PostIdInjective | packages/api/src/routers/scrape.ts:127 | distinct shortcodes give distinct post ids |
| ScrapeRouter.SavePostsFacts | packages/api/src/routers/scrape.ts:122-140 | the post loop never overwrites or removes a post and keeps the constraints; when it completes every shortcode is stored |
| ScrapeRouter.RunNarrative | packages/api/src/routers/scrape.ts:40-161 | no event emitted before the terminal one is terminal |
| ScrapeRouter.PersistNarrative | packages/api/src/routers/scrape.ts:75-151 | announcing, saving and the "Saved" events add no terminal event |
| ScrapeRouter.PersistExtends | packages/api/src/routers/scrape.ts:75-151 | after the scraper succeeds the call only appends events |
| ScrapeRouter.RunStartsWithRelayed | packages/api/src/routers/scrape.ts:40-71 | the events start with the opening and the relayed log lines, and a scraper failure ends the narration there with the database untouched |
| ScrapeRouter.RelayedPrefix | packages/api/src/routers/scrape.ts:40-66 | the first event is `start`, the second "Initializing scraper...", then one progress event per log line, in order |
| ScrapeRouter.SaveAndLogFacts | packages/api/src/routers/scrape.ts:122-173 | the post loop and the log insert keep the constraints and every existing row; a return means every post and a new success log with the post count are stored |
| ScrapeRouter.MutationPersists | packages/api/src/routers/scrape.ts:75-173 | a returning call has stored the profile by username, every post by shortcode and one new success log with the post count; any call keeps the constraints and every existing post |
| PartnershipTable.AddAll | apps/web/src/components/partnership-table.tsx:82-90 | adding a list to a set yields the set plus the list's elements |
| PartnershipTable.ComputeStats | apps/web/src/components/partnership-table.tsx:75-101 | the totals are the post count, the sizes of the unions of the three handle columns and the sponsored count |
| PartnershipTable.HandleSetMembers | apps/web/src/components/partnership-table.tsx:76-98 | a handle is counted iff some post's non-null list holds it |
| PartnershipTable.HandleSetBound | apps/web/src/components/partnership-table.tsx:76-98 | duplicates count once: the distinct handles are at most the handles listed |
| PartnershipTable.SponsoredAtMostTotal | apps/web/src/components/partnership-table.tsx:91-99 | sponsored ≤ total, with equality iff every post is sponsored |
| PartnershipTable.Status | apps/web/src/components/partnership-table.tsx:272 | "sponsored" iff sponsored, "organic" iff not |
| PartnershipTable.FilterByStatus | apps/web/src/components/partnership-table.tsx:278-281 | the rows kept are in order, each accepted, and every accepted row is kept |
| PartnershipTable.FilterSponsoredCount | apps/web/src/components/partnership-table.tsx:278-281 | filtering on "sponsored" keeps as many rows as the sponsored count |
| PartnershipTable.FilterOrganicCount | apps/web/src/components/partnership-table.tsx:278-281 | filtering on "organic" keeps the other rows |
| PartnershipTable.FilterAcceptsAll | apps/web/src/components/partnership-table.tsx:278-280 | an absent, empty or "all" value keeps every row |
| PartnershipTable.SearchText | apps/web/src/components/partnership-table.tsx:171 | a null list gives ""; otherwise every handle occurs in the text |
| InfluencerList.SearchFilter | apps/web/src/routes/influencers/index.tsx:38-46 | no data gives nothing; otherwise the matching influencers in order, all and only the matching ones |
| InfluencerList.EmptySearchKeepsAll | apps/web/src/routes/influencers/index.tsx:40-46 | an empty search keeps every influencer |
| InfluencerList.SearchIgnoresCase | apps/web/src/routes/influencers/index.tsx:40-46 | the search text's letter case does not matter |
| InfluencerList.SortedMeansInOrder | apps/web/src/routes/influencers/index.tsx:49-57 | sorted by key means ordered by the chosen field in the chosen direction |
| InfluencerList.SortInPlace | apps/web/src/routes/influencers/index.tsx:48-63 | the array ends sorted and is a permutation of its old contents |
| InfluencerList.FilteredAndSorted | apps/web/src/routes/influencers/index.tsx:37-63 | the result is a permutation of the search result, ordered by the chosen field and direction, and empty without data |
| ScrapePage.OrAbsent | apps/web/src/routes/scrape.tsx:107-108 | an empty field is sent as absent, any other as itself |
| Common.Trim | apps/web/src/routes/scrape.tsx:105-109 | `trim()` keeps a slice of the text with only white space around it, which neither starts nor ends with white space and is empty exactly when the text is all white space |
| ScrapePage.MutationInput | apps/web/src/routes/scrape.tsx:105-109 | the username loses its first "@" and is trimmed; the session username is trimmed and absent when blank; empty dates are absent |
| ScrapePage.Submitted | apps/web/src/routes/scrape.tsx:122-133 | a blank username changes nothing; otherwise the logs and the last id are cleared and one more connection is open |
| ScrapePage.Received | apps/web/src/routes/scrape.tsx:67-87 | each open connection appends the event once, in arrival order; a success or error closes them all |
| ScrapePage.TransportFailed | apps/web/src/routes/scrape.tsx:89-91 | a transport error closes the failing connection |
| ScrapePage.MutationSucceeded | apps/web/src/routes/scrape.tsx:112-116 | the returned influencer id is recorded |
| ScrapePage.Cleared | apps/web/src/routes/scrape.tsx:135-142 | every field, the logs and the last id are reset; connections are untouched |
| ScrapePage.ScrapePageComponent.HandleSubmit | apps/web/src/routes/scrape.tsx:122-133 | the page becomes `Submitted` of its old state; a request is sent iff the submit is allowed, and it is the normalised input |
| ScrapePage.ScrapePageComponent.OnEvent | apps/web/src/routes/scrape.tsx:67-87 | the page becomes `Received` of its old state |
| ScrapePage.ScrapePageComponent.HandleClear | apps/web/src/routes/scrape.tsx:135-142 | the page becomes `Cleared` of its old state |
| ScrapePage.ErrorMeansComplete | apps/web/src/routes/scrape.tsx:157-158 | `hasError` implies `isComplete` |
| ScrapePage.ProfileLinkNeedsSuccess | apps/web/src/routes/scrape.tsx:274 | the profile link needs a recorded id and a success event |
| ScrapePage.SubmitResetsFlags | apps/web/src/routes/scrape.tsx:129-131 | after a valid submit neither flag holds and the link is hidden |
| ScrapePage.TerminalClosesStream | apps/web/src/routes/scrape.tsx:77-87 | after a success or error nothing more is logged; the run is complete iff it was or a connection delivered the event |
| ScrapePage.AtSignPassesCheck | apps/web/src/routes/scrape.tsx:124-127 | a username of "@" passes the page's check but reaches the mutation empty, and the mutation rejects it without any event |
| ScrapePage.DuplicateLogsAfterRejectedSubmit | apps/web/src/routes/scrape.tsx:62-94 | as written: after a silently rejected submit, the next submit logs every event twice |
| ScrapePage.SubmittedClosingPrevious | apps/web/src/routes/scrape.tsx:129-132 | corrected submit: an earlier connection is closed before the new one opens |
| ScrapePage.SingleStreamKept | apps/web/src/routes/scrape.tsx:62-142 | with the corrected submit at most one connection is ever open, so each event is logged at most once |
| ScrapePage.NoDuplicateWithClosingSubmit | apps/web/src/routes/scrape.tsx:62-94 | the same scenario with the corrected submit logs the event once |
| Header.ActiveItems | apps/web/src/components/header.tsx:29-32 | the highlighted items are exactly the nav items active for the path |
| Header.ActiveOnOwnPath | apps/web/src/components/header.tsx:31 | every item is active on its own path |
| Header.DashboardOnlyExact | apps/web/src/components/header.tsx:31-32 | "/dashboard" is active only on exact equality |
| Header.OtherItemsByPrefix | apps/web/src/components/header.tsx:32 | any other item is active exactly when its path is a character prefix of the current one |
| Header.RawPrefixMatch | apps/web/src/components/header.tsx:32 | "/scraper" highlights "/scrape"; "/influencers/abc" highlights exactly "/influencers" |
| Header.FourDistinctItems | apps/web/src/components/header.tsx:8-13 | four distinct items: dashboard, influencers, scrape, history |

## Findings

| source | as written | input that shows it | evidently intended | confidence | as-written member | corrected member |
|---|---|---|---|---|---|---|
| apps/web/src/routes/scrape.tsx:62-94, 122-133 | `connectSSE` opens a new event stream on every submit without closing the previous one. A stream closes only on a success or error event or a transport error. A submit the mutation rejects before emitting anything leaves its stream open: the server keeps it for an hour and the bus keeps its listener. | Submit "@". It passes the blank check, is sent as "", and the input validator rejects it with no event. Then submit "alice": two streams now listen on the same session, and every event of that scrape appears twice in the log. | one open stream per page, each event logged once | medium, not executed | ScrapePage.DuplicateLogsAfterRejectedSubmit | ScrapePage.SubmittedClosingPrevious |

`ScrapePage.AtSignPassesCheck` proves the first half of the scenario: "@"
passes the page's check and the mutation then rejects it. The class
`ScrapePageComponent` performs the submit as written. The corrected submit is
the transition `SubmittedClosingPrevious`. `SingleStreamKept` proves that
every transition keeps at most one stream open under the corrected submit.

## Left out

- The 1-hour auto-unsubscribe timer of `subscribe` (packages/api/src/services/scrape-events.ts:31-36) is a timer. It would be an `Unsubscribe` call at a later time, which the model already has.
- The order in which `emit` calls listeners is a JavaScript `Set`'s insertion order. The model delivers a set and proves it complete and duplicate-free, but not ordered.
- The console messages of `emit` and of the scraper are console output and are not modelled.
- The HTTP streaming endpoint (apps/server/src/index.ts) is not modelled, because it is network I/O. Its effect is modelled instead: one bus listener per open page connection.
- instaloader-ts is not modelled: loader creation, `getProfile`, `getPosts`, co-author lookup and the session file. These are foreign calls and I/O. They become the `Upstream` value: a loader flag, a profile lookup result, and the feed as a finite sequence whose post items carry the outcome of their co-author lookup: the usernames, or the message of the error it rejects with.
- Each `console` line the scraper writes is modelled as a structured `LogLine`. The formatting of dates and numbers in log texts is not modelled.
- JavaScript `Date` parsing is a parameter (`Host.parseDate`). The local time zone is a fixed offset with no daylight-saving changes.
- Every reading of "now" within one mutation is the same instant (`Host.now`).
- The `Date.now()`-based scrape-log id and the page's `sessionId` are opaque given values.
- The database's error texts are a parameter (`Host.describe`). Faults other than constraint violations are not modelled: disk, locking and connection errors.
- Store.InsertPostResult and Store.InsertScrapeLogResult: in the model the foreign keys of `post` and `scrape_log` are enforced. SQLite enforces them only when `PRAGMA foreign_keys` is on, and the connection setup that would turn it on is not part of this model.
- Store.UpsertResult: a primary-key clash that the username conflict target does not cover is a refused write.
- ScrapeRouter.ScraperRequest: every date string is taken to parse (`Host.parseDate` is total). The router accepts any string for `dateFrom` and `dateTo`. One that `new Date` cannot parse gives an Invalid Date: every comparison with it is false, so such a bound filters nothing, and the scrape log would store an invalid date. That case is not modelled.
- The query routers (influencer.ts, post.ts, scrapeLog.ts) are not modelled: they are thin database reads. The partnerships count at packages/api/src/routers/influencer.ts:58-63 is deliberately left without a property.
- `formatNumber` is not modelled, because it uses floating-point formatting.
- The name sort of the influencer list is not modelled, because `localeCompare` depends on the locale.
- `toLowerCase` is ASCII-only in the model.
- `trim` removes the listed white-space characters, not every Unicode space separator.
- TanStack table sorting, pagination and column search matching are not modelled: they are library behaviour.
- JSX rendering, toasts, query invalidation, scrolling and the status badge are not modelled: they are presentation.
- The page's unmount cleanup is not modelled: it closes only the last stream opened.
- Concurrency and async scheduling are not modelled. Each operation is one sequential step, and a page's events arrive in order.
- Common.Join: its contract states that every element occurs in the joined text and that `[]` joins to "", not the exact separator placement.
- PartnershipTable.SearchText: like `Join`, it states containment, not the full joined string.
