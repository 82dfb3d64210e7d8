/** The `scrapeInfluencer` mutation: validate the input, narrate progress on
    the session's event bus, run the scraper, and persist the profile, the
    posts and a scrape log. The emitted events are returned as a sequence, in
    emission order; the database is a `Database` the mutation writes to. */
module ScrapeRouter {
  import opened Common
  import opened Narration
  import opened ScrapeEvents
  import Scraper
  import Schema
  import opened Store

  /** The mutation's input after the validator accepted its shape. */
  datatype ScrapeInput = ScrapeInput(
    username: string,
    dateFrom: Option<string>,
    dateTo: Option<string>,
    sessionId: string,
    sessionUsername: Option<string>)

  /** What the mutation reads from its host beyond the scraper and the
      database: the `Date` parser, the clock (one instant for the whole call),
      the local zone as a fixed offset in milliseconds, the fresh log id, and
      the text of the driver's error for a refused write. */
  datatype Host = Host(
    parseDate: string -> int,
    now: int,
    zoneOffset: int,
    logId: string,
    describe: Violation -> string)

  datatype Outcome =
    | Rejected                                             // the input validator refused the call
    | Returned(influencerId: string, postsScraped: nat)    // `{ success: true, influencerId, postsScraped }`
    | Threw(message: string)                               // the error rethrown to the client

  // ---------------------------------------------------------------------------
  // The end-of-day adjustment of `dateTo`
  // ---------------------------------------------------------------------------

  const DayMs := 86_400_000

  /** `d.setHours(23, 59, 59, 999)` on the instant `t` in a zone `offset`
      milliseconds ahead of UTC: the last millisecond of `t`'s local day. */
  function EndOfLocalDay(t: int, offset: int): (r: int)
    ensures (r + offset) / DayMs == (t + offset) / DayMs
    ensures (r + offset) % DayMs == DayMs - 1
    ensures t <= r < t + DayMs
  {
    ((t + offset) / DayMs) * DayMs + (DayMs - 1) - offset
  }

  /** Adjusting an already adjusted instant changes nothing. */
  lemma EndOfLocalDayIdempotent(t: int, offset: int)
    ensures EndOfLocalDay(EndOfLocalDay(t, offset), offset) == EndOfLocalDay(t, offset)
  {
    var r := EndOfLocalDay(t, offset);
    assert (r + offset) / DayMs == (t + offset) / DayMs;
  }

  /** The request handed to the scraper: `dateFrom` parsed as is, `dateTo`
      moved to the end of its local day, absent or empty dates left out. */
  function ScraperRequest(input: ScrapeInput, host: Host): (r: Scraper.ScrapeRequest)
    ensures r.username == input.username && r.sessionUsername == input.sessionUsername
    ensures r.dateFrom.Some? <==> Truthy(input.dateFrom)
    ensures r.dateTo.Some? <==> Truthy(input.dateTo)
    ensures r.dateFrom.Some? ==> r.dateFrom.value == host.parseDate(input.dateFrom.value)
    ensures r.dateTo.Some? ==>
      var d := host.parseDate(input.dateTo.value);
      d <= r.dateTo.value < d + DayMs && (r.dateTo.value + host.zoneOffset) % DayMs == DayMs - 1
  {
    Scraper.ScrapeRequest(
      input.username,
      if Truthy(input.dateFrom) then Some(host.parseDate(input.dateFrom.value)) else None,
      if Truthy(input.dateTo) then Some(EndOfLocalDay(host.parseDate(input.dateTo.value), host.zoneOffset)) else None,
      input.sessionUsername)
  }

  // ---------------------------------------------------------------------------
  // Events
  // ---------------------------------------------------------------------------

  function Progress(m: Message): EventBody {
    EventBody(EventType.Progress, m, None)
  }

  /** Each scraper log line becomes one progress event, in order. */
  function Relay(logs: seq<LogLine>): (r: seq<EventBody>)
    ensures |r| == |logs|
    ensures forall i :: 0 <= i < |logs| ==> r[i] == Progress(Relayed(logs[i]))
  {
    seq(|logs|, i requires 0 <= i < |logs| => Progress(Relayed(logs[i])))
  }

  /** A "Saved i/n" event is emitted after the post at index `i` exactly when
      `i + 1` is a multiple of ten or `i` is the last index. */
  predicate ReportsAt(i: nat, n: nat) {
    (i + 1) % 10 == 0 || i + 1 == n
  }

  function SavedEvent(done: nat, n: nat): EventBody {
    EventBody(EventType.Progress, Saved(done, n), Some(EventData(Some(done), Some(n), None)))
  }

  /** The "Saved" events emitted while the first `k` of `n` posts are saved. */
  function SavedEvents(n: nat, k: nat): (r: seq<EventBody>)
    ensures forall j :: 0 <= j < |r| ==> r[j].kind == EventType.Progress && r[j].message.Saved?
  {
    if k == 0 then []
    else SavedEvents(n, k - 1) + (if ReportsAt(k - 1, n) then [SavedEvent(k, n)] else [])
  }

  /** While the last post is not reached, one event per ten posts. */
  lemma {:induction false} SavedEventsBefore(n: nat, k: nat)
    requires k < n
    ensures |SavedEvents(n, k)| == k / 10
  {
    if k > 0 {
      SavedEventsBefore(n, k - 1);
    }
  }

  /** Saving `n` posts emits ceil(n/10) "Saved" events. */
  lemma SavedEventsCount(n: nat)
    ensures |SavedEvents(n, n)| == (n + 9) / 10
  {
    if n > 0 {
      SavedEventsBefore(n, n - 1);
    }
  }

  /** `r` reports strictly increasing counts, at most `k`, each with total `n`
      and its count in its data. */
  predicate CountsUp(r: seq<EventBody>, n: nat, k: nat) {
    (forall j :: 0 <= j < |r| ==>
      r[j].message.Saved? && r[j] == SavedEvent(r[j].message.done, n) && 1 <= r[j].message.done <= k) &&
    (forall a, b :: 0 <= a < b < |r| && r[a].message.Saved? && r[b].message.Saved? ==> r[a].message.done < r[b].message.done)
  }

  /** The "Saved" events count up strictly, and once all posts are saved the
      last one reports all `n`. */
  lemma {:induction false} SavedEventsIncrease(n: nat, k: nat)
    requires k <= n
    ensures CountsUp(SavedEvents(n, k), n, k)
    ensures k == n && n > 0 ==> SavedEvents(n, k) != [] && SavedEvents(n, k)[|SavedEvents(n, k)| - 1] == SavedEvent(n, n)
  {
    if k > 0 {
      SavedEventsIncrease(n, k - 1);
      var prev := SavedEvents(n, k - 1);
      if ReportsAt(k - 1, n) {
        var r := prev + [SavedEvent(k, n)];
        assert SavedEvents(n, k) == r;
        assert forall j :: 0 <= j < |prev| ==> r[j] == prev[j];
        assert r[|prev|].message.done == k;
      } else {
        assert SavedEvents(n, k) == prev;
      }
    }
  }

  /** The message of the error thrown when the scraper reports failure. */
  function FailureText(error: string): (r: string)
    ensures r != ""
    ensures error != "" ==> r == error
  {
    if error == "" then "Scraping failed" else error
  }

  // ---------------------------------------------------------------------------
  // The rows the mutation writes
  // ---------------------------------------------------------------------------

  function InfluencerId(username: string): string {
    "influencer_" + username
  }

  function PostId(shortcode: string): string {
    "post_" + shortcode
  }

  /** The insert: nulls become 0 and false; both timestamps take their default. */
  function InfluencerValuesOf(p: Scraper.ProfileData): (v: Schema.InfluencerValues)
    ensures v.id == InfluencerId(p.username) && v.username == p.username && v.fullName == p.fullName
    ensures v.followers == p.followers.GetOr(0) && v.following == p.following.GetOr(0) && v.postsCount == p.postsCount.GetOr(0)
    ensures v.isVerified == Schema.Given(p.isVerified.GetOr(false)) && v.isBusiness == Schema.Given(p.isBusiness.GetOr(false))
    ensures v.createdAt.Omitted? && v.updatedAt.Omitted?
  {
    Schema.InfluencerValues(InfluencerId(p.username), p.username, p.fullName, p.bio,
      p.followers.GetOr(0), p.following.GetOr(0), p.postsCount.GetOr(0), p.profilePicUrl,
      Schema.Given(p.isVerified.GetOr(false)), Schema.Given(p.isBusiness.GetOr(false)),
      Schema.Omitted, Schema.Omitted)
  }

  /** The `set` clause of the upsert: the same field values and `updatedAt := now`. */
  function InfluencerUpdateOf(p: Scraper.ProfileData, now: int): (u: InfluencerUpdate)
    ensures u.fullName == p.fullName && u.bio == p.bio && u.profilePicUrl == p.profilePicUrl && u.updatedAt == now
    ensures u.followers == p.followers.GetOr(0) && u.following == p.following.GetOr(0) && u.postsCount == p.postsCount.GetOr(0)
    ensures u.isVerified == p.isVerified.GetOr(false) && u.isBusiness == p.isBusiness.GetOr(false)
  {
    InfluencerUpdate(p.fullName, p.bio, p.followers.GetOr(0), p.following.GetOr(0), p.postsCount.GetOr(0),
      p.profilePicUrl, p.isVerified.GetOr(false), p.isBusiness.GetOr(false), now)
  }

  /** The insert of one post: id from the shortcode, an undated post dated `now`. */
  function PostValuesOf(p: Scraper.PostData, influencerId: string, now: int): (v: Schema.PostValues)
    ensures v.id == PostId(p.shortcode) && v.shortcode == p.shortcode && v.influencerId == influencerId
    ensures v.date == p.date.GetOr(now)
    ensures v.url == p.url && v.caption == p.caption && v.isVideo == Schema.Given(p.isVideo)
    ensures v.isSponsored == Schema.Given(p.isSponsored) && v.sponsorUsers == Schema.Given(Some(p.sponsorUsers))
    ensures v.taggedUsers == Schema.Given(Some(p.taggedUsers)) && v.captionMentions == Schema.Given(Some(p.captionMentions))
    ensures v.coauthors == Schema.Given(Some(p.coauthors))
    ensures v.createdAt.Omitted?
  {
    Schema.PostValues(PostId(p.shortcode), influencerId, p.shortcode, p.url, p.caption, p.date.GetOr(now),
      Schema.Given(p.isVideo), Schema.Given(Some(p.taggedUsers)), Schema.Given(Some(p.captionMentions)),
      Schema.Given(Some(p.coauthors)), Schema.Given(p.isSponsored), Schema.Given(Some(p.sponsorUsers)),
      Schema.Omitted)
  }

  /** The scrape log: the raw dates as given (no end-of-day adjustment), `now`
      when absent; status success. */
  function ScrapeLogValuesOf(input: ScrapeInput, influencerId: string, postsCount: nat, host: Host): (v: Schema.ScrapeLogValues)
    ensures v.id == host.logId && v.influencerId == influencerId && v.postsCount == postsCount
    ensures v.status == Schema.Success
    ensures v.dateFrom == (if Truthy(input.dateFrom) then host.parseDate(input.dateFrom.value) else host.now)
    ensures v.dateTo == (if Truthy(input.dateTo) then host.parseDate(input.dateTo.value) else host.now)
  {
    Schema.ScrapeLogValues(host.logId, influencerId, Schema.Omitted,
      if Truthy(input.dateFrom) then host.parseDate(input.dateFrom.value) else host.now,
      if Truthy(input.dateTo) then host.parseDate(input.dateTo.value) else host.now,
      postsCount, Schema.Success, Schema.Omitted)
  }

  datatype SaveOutcome =
    | AllSaved(tables: Schema.Tables)
    | SaveFailed(at: nat, violation: Violation, tables: Schema.Tables)

  /** The insert-or-skip loop over `posts[i..]`; it stops at the first refused insert. */
  function SavePosts(t: Schema.Tables, influencerId: string, posts: seq<Scraper.PostData>, i: nat, now: int): SaveOutcome
    decreases |posts| - i
  {
    if i >= |posts| then AllSaved(t)
    else
      match InsertPostResult(t, PostValuesOf(posts[i], influencerId, now), now)
      case Refused(v) => SaveFailed(i, v, t)
      case Applied(next) => SavePosts(next, influencerId, posts, i + 1, now)
  }

  // ---------------------------------------------------------------------------
  // The mutation: a reference definition
  // ---------------------------------------------------------------------------

  /** A call that got past the validator: how it ends, the events emitted
      before the terminal one, and the database afterwards. */
  datatype Trace = Trace(outcome: Outcome, narration: seq<EventBody>, tables: Schema.Tables)

  /** The terminal event: `success` with the post count when the call
      returns, the `error` event of the `catch` block when it throws. */
  function TerminalEvent(outcome: Outcome): (e: EventBody)
    requires !outcome.Rejected?
    ensures e.kind.IsTerminal()
    ensures e.kind == EventType.Success <==> outcome.Returned?
  {
    match outcome
    case Returned(_, n) => EventBody(EventType.Success, Succeeded(n), Some(EventData(Some(n), None, None)))
    case Threw(message) => EventBody(EventType.Error, Failed(message), None)
  }

  /** No start or progress event is terminal. */
  predicate Narrative(events: seq<EventBody>) {
    forall j :: 0 <= j < |events| ==> !events[j].kind.IsTerminal()
  }

  /** The outcome, the emitted events and the database after one call. */
  function Mutation(t: Schema.Tables, input: ScrapeInput, env: Scraper.Upstream, host: Host): (Outcome, seq<EventBody>, Schema.Tables) {
    if |input.username| < 1 then (Rejected, [], t)
    else
      var tr := Run(t, input, env, host);
      (tr.outcome, tr.narration + [TerminalEvent(tr.outcome)], tr.tables)
  }

  function Opening(input: ScrapeInput): seq<EventBody> {
    [EventBody(EventType.Start, Starting(input.username), None), Progress(Initializing)]
  }

  /** Everything from the first event until the terminal one. */
  function Run(t: Schema.Tables, input: ScrapeInput, env: Scraper.Upstream, host: Host): (tr: Trace)
    ensures !tr.outcome.Rejected?
  {
    var (response, logs) := Scraper.Scrape(ScraperRequest(input, host), env);
    var relayed := Opening(input) + Relay(logs);
    match response
    case ScrapeFailed(error) => Trace(Threw(FailureText(error)), relayed, t)
    case Scraped(profile, posts) => Persist(t, input, host, relayed, profile, posts)
  }

  function Announce(profile: Scraper.ProfileData, n: nat): seq<EventBody> {
    [EventBody(EventType.Progress, ProfileFetched(profile.fullName, profile.username), Some(EventData(None, Some(n), None))),
     Progress(SavingProfile)]
  }

  /** From the scraper's success: upsert the profile, then save. */
  function Persist(t: Schema.Tables, input: ScrapeInput, host: Host, before: seq<EventBody>,
                   profile: Scraper.ProfileData, posts: seq<Scraper.PostData>): (tr: Trace)
    ensures !tr.outcome.Rejected?
  {
    var announced := before + Announce(profile, |posts|);
    match UpsertResult(t, InfluencerValuesOf(profile), InfluencerUpdateOf(profile, host.now), host.now)
    case Refused(v) => Trace(Threw(host.describe(v)), announced, t)
    case Applied(t1) =>
      SaveAndLog(t1, input, host, announced + [Progress(SavingPosts(|posts|))], InfluencerId(profile.username), posts)
  }

  /** The post loop, then the scrape log. */
  function SaveAndLog(t: Schema.Tables, input: ScrapeInput, host: Host, before: seq<EventBody>,
                      influencerId: string, posts: seq<Scraper.PostData>): (tr: Trace)
    ensures !tr.outcome.Rejected?
  {
    var n := |posts|;
    match SavePosts(t, influencerId, posts, 0, host.now)
    case SaveFailed(k, v, t2) => Trace(Threw(host.describe(v)), before + SavedEvents(n, k), t2)
    case AllSaved(t2) =>
      match InsertScrapeLogResult(t2, ScrapeLogValuesOf(input, influencerId, n, host), host.now)
      case Refused(v) => Trace(Threw(host.describe(v)), before + SavedEvents(n, n), t2)
      case Applied(t3) => Trace(Returned(influencerId, n), before + SavedEvents(n, n), t3)
  }

  // ---------------------------------------------------------------------------
  // The mutation as the router runs it
  // ---------------------------------------------------------------------------

  method ScrapeInfluencer(db: Database, input: ScrapeInput, env: Scraper.Upstream, host: Host)
    returns (outcome: Outcome, events: seq<EventBody>)
    modifies db
    ensures (outcome, events, db.tables) == Mutation(old(db.tables), input, env, host)
  {
    if |input.username| < 1 {
      return Rejected, [];
    }
    events := [EventBody(EventType.Start, Starting(input.username), None)];
    events := events + [Progress(Initializing)];
    var request := ScraperRequest(input, host);
    var response, logs := Scraper.ScrapeInfluencer(request, env);
    events := events + Relay(logs);
    assert events == Opening(input) + Relay(logs);
    if response.ScrapeFailed? {
      assert Run(old(db.tables), input, env, host) == Trace(Threw(FailureText(response.error)), events, old(db.tables));
      outcome := Threw(FailureText(response.error));
      events := events + [TerminalEvent(outcome)];
      return;
    }
    outcome, events := PersistScrape(db, input, host, events, response.profile, response.posts);
  }

  /** The part of the mutation after the scraper succeeded: announce the
      profile, upsert it, save the posts with batched progress, append the
      log, and end with the terminal event. */
  method PersistScrape(db: Database, input: ScrapeInput, host: Host, before: seq<EventBody>,
                       profile: Scraper.ProfileData, posts: seq<Scraper.PostData>)
    returns (outcome: Outcome, events: seq<EventBody>)
    modifies db
    ensures var tr := Persist(old(db.tables), input, host, before, profile, posts);
      outcome == tr.outcome && events == tr.narration + [TerminalEvent(tr.outcome)] && db.tables == tr.tables
  {
    var n := |posts|;
    events := before + [EventBody(EventType.Progress, ProfileFetched(profile.fullName, profile.username), Some(EventData(None, Some(n), None)))];
    var influencerId := InfluencerId(profile.username);
    events := events + [Progress(SavingProfile)];
    assert events == before + Announce(profile, n);
    var error := db.Upsert(InfluencerValuesOf(profile), InfluencerUpdateOf(profile, host.now), host.now);
    if error.Some? {
      outcome := Threw(host.describe(error.value));
      events := events + [TerminalEvent(outcome)];
      return;
    }
    events := events + [Progress(SavingPosts(n))];
    var failure;
    events, failure := SaveScrapedPosts(db, influencerId, posts, host.now, events);
    if failure.Some? {
      outcome := Threw(host.describe(failure.value));
      events := events + [TerminalEvent(outcome)];
      return;
    }
    error := db.InsertScrapeLog(ScrapeLogValuesOf(input, influencerId, n, host), host.now);
    if error.Some? {
      outcome := Threw(host.describe(error.value));
      events := events + [TerminalEvent(outcome)];
      return;
    }
    outcome := Returned(influencerId, n);
    events := events + [TerminalEvent(outcome)];
  }

  /** The `for` loop over the posts: insert-or-skip each, emitting the
      batched `saved` progress, until an insert is refused. */
  method SaveScrapedPosts(db: Database, influencerId: string, posts: seq<Scraper.PostData>, now: int,
                          before: seq<EventBody>)
    returns (events: seq<EventBody>, failure: Option<Violation>)
    modifies db
    ensures var saved := SavePosts(old(db.tables), influencerId, posts, 0, now);
      db.tables == saved.tables &&
      (saved.AllSaved? <==> failure.None?) &&
      (saved.AllSaved? ==> events == before + SavedEvents(|posts|, |posts|)) &&
      (saved.SaveFailed? ==> failure == Some(saved.violation) && events == before + SavedEvents(|posts|, saved.at))
  {
    var n := |posts|;
    events := before;
    ghost var t1 := db.tables;
    for i := 0 to n
      invariant events == before + SavedEvents(n, i)
      invariant SavePosts(t1, influencerId, posts, 0, now) == SavePosts(db.tables, influencerId, posts, i, now)
    {
      ghost var current := db.tables;
      var error := db.InsertPostOrSkip(PostValuesOf(posts[i], influencerId, now), now);
      if error.Some? {
        assert SavePosts(current, influencerId, posts, i, now) == SaveFailed(i, error.value, db.tables);
        return events, error;
      }
      if (i + 1) % 10 == 0 || i == n - 1 {
        events := events + [SavedEvent(i + 1, n)];
      }
    }
    failure := None;
  }

  // ---------------------------------------------------------------------------
  // Properties of the mutation
  // ---------------------------------------------------------------------------

  lemma NarrativeAppend(a: seq<EventBody>, b: seq<EventBody>)
    requires Narrative(a) && Narrative(b)
    ensures Narrative(a + b)
  {
    assert forall j :: |a| <= j < |a + b| ==> (a + b)[j] == b[j - |a|];
  }

  lemma RunNarrative(t: Schema.Tables, input: ScrapeInput, env: Scraper.Upstream, host: Host)
    ensures Narrative(Run(t, input, env, host).narration)
  {
    var (response, logs) := Scraper.Scrape(ScraperRequest(input, host), env);
    var relayed := Opening(input) + Relay(logs);
    NarrativeAppend(Opening(input), Relay(logs));
    if response.Scraped? {
      PersistNarrative(t, input, host, relayed, response.profile, response.posts);
    }
  }

  /** Persisting adds no terminal event to the narration. */
  lemma PersistNarrative(t: Schema.Tables, input: ScrapeInput, host: Host, before: seq<EventBody>,
                         profile: Scraper.ProfileData, posts: seq<Scraper.PostData>)
    requires Narrative(before)
    ensures Narrative(Persist(t, input, host, before, profile, posts).narration)
  {
    var announced := before + Announce(profile, |posts|);
    NarrativeAppend(before, Announce(profile, |posts|));
    var saving := announced + [Progress(SavingPosts(|posts|))];
    NarrativeAppend(announced, [Progress(SavingPosts(|posts|))]);
    forall k: nat ensures Narrative(saving + SavedEvents(|posts|, k)) {
      NarrativeAppend(saving, SavedEvents(|posts|, k));
    }
  }

  /** A rejected call emits nothing and writes nothing. Every other call emits
      exactly one terminal event, and it is the last: `success` when the call
      returns, `error` with the rethrown message when it throws. */
  lemma ExactlyOneTerminal(t: Schema.Tables, input: ScrapeInput, env: Scraper.Upstream, host: Host)
    ensures var (outcome, events, t') := Mutation(t, input, env, host);
      (outcome.Rejected? <==> |input.username| < 1) &&
      (outcome.Rejected? ==> events == [] && t' == t) &&
      (!outcome.Rejected? ==>
        events != [] &&
        events[|events| - 1].kind.IsTerminal() &&
        (forall j :: 0 <= j < |events| - 1 ==> !events[j].kind.IsTerminal()) &&
        (outcome.Returned? <==> events[|events| - 1].kind == EventType.Success) &&
        (outcome.Threw? ==> events[|events| - 1] == EventBody(EventType.Error, Failed(outcome.message), None)))
  {
    if |input.username| >= 1 {
      RunNarrative(t, input, env, host);
      var tr := Run(t, input, env, host);
      assert forall j :: 0 <= j < |tr.narration| ==> (tr.narration + [TerminalEvent(tr.outcome)])[j] == tr.narration[j];
    }
  }

  /** Every accepted call opens with `start` and "Initializing scraper...",
      then relays each scraper log line in order. When the scraper fails, the
      call throws its error (or "Scraping failed" when it is empty) and the
      database is untouched. */
  lemma OpeningAndScraperFailure(t: Schema.Tables, input: ScrapeInput, env: Scraper.Upstream, host: Host)
    requires |input.username| >= 1
    ensures var (outcome, events, t') := Mutation(t, input, env, host);
      var (response, logs) := Scraper.Scrape(ScraperRequest(input, host), env);
      |events| >= 3 + |logs| &&
      events[0] == EventBody(EventType.Start, Starting(input.username), None) &&
      events[1] == Progress(Initializing) &&
      (forall i :: 0 <= i < |logs| ==> events[2 + i] == Progress(Relayed(logs[i]))) &&
      (response.ScrapeFailed? ==>
        outcome == Threw(FailureText(response.error)) && t' == t && |events| == 3 + |logs|)
  {
    var (response, logs) := Scraper.Scrape(ScraperRequest(input, host), env);
    var relayed := Opening(input) + Relay(logs);
    var tr := Run(t, input, env, host);
    var events := tr.narration + [TerminalEvent(tr.outcome)];
    RunStartsWithRelayed(t, input, env, host);
    assert Mutation(t, input, env, host).1 == events;
    RelayedPrefix(input, logs, tr.narration, TerminalEvent(tr.outcome));
  }

  /** Index by index: a narration that starts with the opening and the
      relayed lines, then the terminal event. */
  lemma RelayedPrefix(input: ScrapeInput, logs: seq<LogLine>, narration: seq<EventBody>, terminal: EventBody)
    requires Opening(input) + Relay(logs) <= narration
    ensures var events := narration + [terminal];
      |events| >= 3 + |logs| &&
      events[0] == EventBody(EventType.Start, Starting(input.username), None) &&
      events[1] == Progress(Initializing) &&
      (forall i :: 0 <= i < |logs| ==> events[2 + i] == Progress(Relayed(logs[i])))
  {
    var relayed := Opening(input) + Relay(logs);
    var events := narration + [terminal];
    forall i | 0 <= i < |logs| ensures events[2 + i] == Progress(Relayed(logs[i])) {
      assert events[2 + i] == relayed[2 + i] == Relay(logs)[i];
    }
    assert events[0] == relayed[0] && events[1] == relayed[1];
  }

  /** The narration of every accepted call starts with the opening events and
      the relayed log lines; when the scraper fails, that is all of it. */
  lemma RunStartsWithRelayed(t: Schema.Tables, input: ScrapeInput, env: Scraper.Upstream, host: Host)
    ensures var (response, logs) := Scraper.Scrape(ScraperRequest(input, host), env);
      var relayed := Opening(input) + Relay(logs);
      relayed <= Run(t, input, env, host).narration &&
      (response.ScrapeFailed? ==> Run(t, input, env, host) == Trace(Threw(FailureText(response.error)), relayed, t))
  {
    var (response, logs) := Scraper.Scrape(ScraperRequest(input, host), env);
    if response.Scraped? {
      PersistExtends(t, input, host, Opening(input) + Relay(logs), response.profile, response.posts);
    }
  }

  /** Persisting only appends to the narration. */
  lemma PersistExtends(t: Schema.Tables, input: ScrapeInput, host: Host, before: seq<EventBody>,
                       profile: Scraper.ProfileData, posts: seq<Scraper.PostData>)
    ensures before <= Persist(t, input, host, before, profile, posts).narration
  {
    var saving := before + Announce(profile, |posts|) + [Progress(SavingPosts(|posts|))];
    assert before <= saving;
    forall k: nat ensures before <= saving + SavedEvents(|posts|, k) {
      assert (saving + SavedEvents(|posts|, k))[..|before|] == before;
    }
  }

  /** The database invariant of the post inserts: every post id is derived
      from its shortcode. */
  predicate PostIdsFromShortcodes(t: Schema.Tables) {
    forall k :: k in t.posts ==> k == PostId(t.posts[k].shortcode)
  }

  lemma PostIdInjective(a: string, b: string)
    requires PostId(a) == PostId(b)
    ensures a == b
  {
    assert a == PostId(a)[5..] && b == PostId(b)[5..];
  }

  /** One insert-or-skip of a scraped post. */
  lemma SaveOneFacts(t: Schema.Tables, influencerId: string, p: Scraper.PostData, now: int)
    requires Schema.Consistent(t) && PostIdsFromShortcodes(t)
    ensures var res := InsertPostResult(t, PostValuesOf(p, influencerId, now), now);
      res.Applied? ==>
        Schema.Consistent(res.tables) && PostIdsFromShortcodes(res.tables) &&
        res.tables.influencers == t.influencers && res.tables.scrapeLogs == t.scrapeLogs &&
        (forall k :: k in t.posts ==> k in res.tables.posts && res.tables.posts[k] == t.posts[k]) &&
        Schema.HasShortcode(res.tables, p.shortcode)
  {
    var v := PostValuesOf(p, influencerId, now);
    InsertPostKeepsConsistent(t, v, now);
    var res := InsertPostResult(t, v, now);
    if res.Applied? && v.id in t.posts {
      PostIdInjective(t.posts[v.id].shortcode, p.shortcode);
    }
  }

  /** The posts of `a` are kept in `b`, so each shortcode of `a` is in `b`. */
  lemma ShortcodeKept(a: Schema.Tables, b: Schema.Tables, s: string)
    requires forall k :: k in a.posts ==> k in b.posts && b.posts[k] == a.posts[k]
    requires Schema.HasShortcode(a, s)
    ensures Schema.HasShortcode(b, s)
  {
    var k :| k in a.posts && a.posts[k].shortcode == s;
    assert k in b.posts;
  }

  /** Keeping every post across two inserts-or-skips keeps it across both, and
      a shortcode stored by the first is still there after the second. */
  lemma KeptThrough(t: Schema.Tables, next: Schema.Tables, r: Schema.Tables, posts: seq<Scraper.PostData>, i: nat)
    requires i < |posts|
    requires next.influencers == t.influencers && next.scrapeLogs == t.scrapeLogs
    requires forall k :: k in t.posts ==> k in next.posts && next.posts[k] == t.posts[k]
    requires Schema.HasShortcode(next, posts[i].shortcode)
    requires r.influencers == next.influencers && r.scrapeLogs == next.scrapeLogs
    requires forall k :: k in next.posts ==> k in r.posts && r.posts[k] == next.posts[k]
    ensures r.influencers == t.influencers && r.scrapeLogs == t.scrapeLogs
    ensures forall k :: k in t.posts ==> k in r.posts && r.posts[k] == t.posts[k]
    ensures (forall j :: i + 1 <= j < |posts| ==> Schema.HasShortcode(r, posts[j].shortcode)) ==>
      forall j :: i <= j < |posts| ==> Schema.HasShortcode(r, posts[j].shortcode)
  {
    ShortcodeKept(next, r, posts[i].shortcode);
  }

  /** The insert loop never overwrites or removes a post, keeps the
      constraints and the id invariant, and when it completes every saved
      post's shortcode is in the table. */
  lemma {:induction false} SavePostsFacts(t: Schema.Tables, influencerId: string, posts: seq<Scraper.PostData>, i: nat, now: int)
    requires Schema.Consistent(t) && PostIdsFromShortcodes(t)
    ensures var r := SavePosts(t, influencerId, posts, i, now).tables;
      Schema.Consistent(r) && PostIdsFromShortcodes(r) &&
      r.influencers == t.influencers && r.scrapeLogs == t.scrapeLogs &&
      (forall k :: k in t.posts ==> k in r.posts && r.posts[k] == t.posts[k])
    ensures SavePosts(t, influencerId, posts, i, now).AllSaved? ==>
      forall j :: i <= j < |posts| ==> Schema.HasShortcode(SavePosts(t, influencerId, posts, i, now).tables, posts[j].shortcode)
    decreases |posts| - i
  {
    if i < |posts| {
      SaveOneFacts(t, influencerId, posts[i], now);
      var res := InsertPostResult(t, PostValuesOf(posts[i], influencerId, now), now);
      if res.Applied? {
        var next := res.tables;
        SavePostsFacts(next, influencerId, posts, i + 1, now);
        var out := SavePosts(next, influencerId, posts, i + 1, now);
        assert SavePosts(t, influencerId, posts, i, now) == out;
        KeptThrough(t, next, out.tables, posts, i);
      } else {
        assert SavePosts(t, influencerId, posts, i, now).tables == t;
      }
    }
  }

  /** A call that returns has stored the profile under its username, every
      scraped post by shortcode, and one new log with status success, the post
      count and the unadjusted `dateTo`. Whatever the outcome, the constraints
      hold afterwards and no existing post is overwritten or removed. */
  lemma MutationPersists(t: Schema.Tables, input: ScrapeInput, env: Scraper.Upstream, host: Host)
    requires Schema.Consistent(t) && PostIdsFromShortcodes(t)
    ensures var (outcome, events, t') := Mutation(t, input, env, host);
      Schema.Consistent(t') && PostIdsFromShortcodes(t') &&
      (forall k :: k in t.posts ==> k in t'.posts && t'.posts[k] == t.posts[k])
    ensures var (outcome, events, t') := Mutation(t, input, env, host);
      var (response, logs) := Scraper.Scrape(ScraperRequest(input, host), env);
      outcome.Returned? ==>
        response.Scraped? &&
        outcome == Returned(InfluencerId(response.profile.username), |response.posts|) &&
        Schema.HasUsername(t', response.profile.username) &&
        (forall j :: 0 <= j < |response.posts| ==> Schema.HasShortcode(t', response.posts[j].shortcode)) &&
        host.logId in t'.scrapeLogs && host.logId !in t.scrapeLogs &&
        t'.scrapeLogs[host.logId].status == Schema.Success &&
        t'.scrapeLogs[host.logId].postsCount == |response.posts| &&
        t'.scrapeLogs[host.logId].dateTo == (if Truthy(input.dateTo) then host.parseDate(input.dateTo.value) else host.now)
  {
    var (response, logs) := Scraper.Scrape(ScraperRequest(input, host), env);
    if |input.username| >= 1 && response.Scraped? {
      var profile, posts := response.profile, response.posts;
      var relayed := Opening(input) + Relay(logs);
      assert Run(t, input, env, host) == Persist(t, input, host, relayed, profile, posts);
      var up := UpsertResult(t, InfluencerValuesOf(profile), InfluencerUpdateOf(profile, host.now), host.now);
      UpsertByUsername(t, InfluencerValuesOf(profile), InfluencerUpdateOf(profile, host.now), host.now);
      if up.Applied? {
        var announced := relayed + Announce(profile, |posts|);
        SaveAndLogFacts(up.tables, input, host, announced + [Progress(SavingPosts(|posts|))],
                        InfluencerId(profile.username), posts);
      }
    }
  }

  /** The post loop and the scrape log insert, from the tables the upsert
      left: they keep the constraints and every existing row, and a return
      means every post and a new success log are stored. */
  lemma SaveAndLogFacts(t: Schema.Tables, input: ScrapeInput, host: Host, before: seq<EventBody>,
                        influencerId: string, posts: seq<Scraper.PostData>)
    requires Schema.Consistent(t) && PostIdsFromShortcodes(t)
    ensures var t' := SaveAndLog(t, input, host, before, influencerId, posts).tables;
      Schema.Consistent(t') && PostIdsFromShortcodes(t') &&
      t'.influencers == t.influencers &&
      (forall k :: k in t.posts ==> k in t'.posts && t'.posts[k] == t.posts[k])
    ensures var tr := SaveAndLog(t, input, host, before, influencerId, posts);
      tr.outcome.Returned? ==>
        tr.outcome == Returned(influencerId, |posts|) &&
        (forall j :: 0 <= j < |posts| ==> Schema.HasShortcode(tr.tables, posts[j].shortcode)) &&
        host.logId in tr.tables.scrapeLogs && host.logId !in t.scrapeLogs &&
        tr.tables.scrapeLogs[host.logId].status == Schema.Success &&
        tr.tables.scrapeLogs[host.logId].postsCount == |posts| &&
        tr.tables.scrapeLogs[host.logId].dateTo == (if Truthy(input.dateTo) then host.parseDate(input.dateTo.value) else host.now)
  {
    SavePostsFacts(t, influencerId, posts, 0, host.now);
    var saved := SavePosts(t, influencerId, posts, 0, host.now);
    if saved.AllSaved? {
      var lv := ScrapeLogValuesOf(input, influencerId, |posts|, host);
      InsertScrapeLogKeepsConsistent(saved.tables, lv, host.now);
      var logged := InsertScrapeLogResult(saved.tables, lv, host.now);
      if logged.Applied? {
        var t' := logged.tables;
        assert SaveAndLog(t, input, host, before, influencerId, posts).tables == t';
        forall j | 0 <= j < |posts| ensures Schema.HasShortcode(t', posts[j].shortcode) {
          ShortcodeKept(saved.tables, t', posts[j].shortcode);
        }
      }
    }
  }
}
