/** The scrape page: the form's input normalisation, the log the page builds
    from the progress stream, the flags derived from that log, and the
    connections to the stream the page keeps open. The page's state is a
    `PageState` value; each handler is a transition on it, and the
    `ScrapePage` class performs those transitions on its fields. */
module ScrapePage {
  import opened Common
  import opened Narration
  import opened ScrapeEvents
  import ScrapeRouter
  import Scraper
  import Schema

  /** The page's state. `openSources` counts the event-stream connections
      this page opened that are still open; each of them is subscribed to the
      page's session id and appends every event it receives. */
  datatype PageState = PageState(
    username: string,
    sessionUsername: string,
    dateFrom: string,
    dateTo: string,
    logs: seq<ScrapeEvent>,
    lastScrapedId: Option<string>,
    openSources: nat)

  const InitialState := PageState("", "", "", "", [], None, 0)

  // ---------------------------------------------------------------------------
  // Input normalisation
  // ---------------------------------------------------------------------------

  /** An empty text field is sent as absent. */
  function OrAbsent(s: string): (r: Option<string>)
    ensures r.None? <==> s == ""
    ensures r.Some? ==> r.value == s
  {
    if s == "" then None else Some(s)
  }

  /** The mutation's input, built from the form fields: the username loses
      its first "@" and is trimmed, the session username is trimmed, and an
      empty field becomes absent. */
  function MutationInput(st: PageState, sessionId: string): (r: ScrapeRouter.ScrapeInput)
    ensures r.username == Trim(RemoveFirst(st.username, '@'))
    ensures r.sessionId == sessionId
    ensures r.dateFrom.None? <==> st.dateFrom == ""
    ensures r.dateTo.None? <==> st.dateTo == ""
    ensures r.dateFrom.Some? ==> r.dateFrom.value == st.dateFrom
    ensures r.dateTo.Some? ==> r.dateTo.value == st.dateTo
    ensures r.sessionUsername.None? <==> AllWhitespace(st.sessionUsername)
    ensures r.sessionUsername.Some? ==> r.sessionUsername.value == Trim(st.sessionUsername)
  {
    ScrapeRouter.ScrapeInput(
      Trim(RemoveFirst(st.username, '@')),
      OrAbsent(st.dateFrom),
      OrAbsent(st.dateTo),
      sessionId,
      OrAbsent(Trim(st.sessionUsername)))
  }

  /** The check `handleSubmit` makes before submitting: the username, trimmed,
      is not empty. The "@" is not removed for this check. */
  predicate SubmitAllowed(st: PageState) {
    Trim(st.username) != ""
  }

  // ---------------------------------------------------------------------------
  // Transitions
  // ---------------------------------------------------------------------------

  /** `handleSubmit`: a refused submit changes nothing; otherwise the logs and
      the last scraped id are cleared and a new connection is opened. The
      connection opened by an earlier submit is not closed. */
  function Submitted(st: PageState): (r: PageState)
    ensures !SubmitAllowed(st) ==> r == st
    ensures SubmitAllowed(st) ==> r.logs == [] && r.lastScrapedId.None? && r.openSources == st.openSources + 1
    ensures r.username == st.username && r.sessionUsername == st.sessionUsername
    ensures r.dateFrom == st.dateFrom && r.dateTo == st.dateTo
  {
    if SubmitAllowed(st) then st.(logs := [], lastScrapedId := None, openSources := st.openSources + 1)
    else st
  }

  /** `n` copies of `e`. */
  function Copies(e: ScrapeEvent, n: nat): (r: seq<ScrapeEvent>)
    ensures |r| == n && forall i :: 0 <= i < n ==> r[i] == e
  {
    if n == 0 then [] else Copies(e, n - 1) + [e]
  }

  /** An event published on the page's session reaches every open connection;
      each appends it to the logs, and on a success or error event each closes
      itself. */
  function Received(st: PageState, e: ScrapeEvent): (r: PageState)
    ensures |r.logs| == |st.logs| + st.openSources
    ensures r.logs[..|st.logs|] == st.logs
    ensures forall i :: |st.logs| <= i < |r.logs| ==> r.logs[i] == e
    ensures r.openSources == (if e.kind.IsTerminal() then 0 else st.openSources)
    ensures r.lastScrapedId == st.lastScrapedId && r.username == st.username
  {
    st.(logs := st.logs + Copies(e, st.openSources),
        openSources := if e.kind.IsTerminal() then 0 else st.openSources)
  }

  /** `onerror`: the failing connection closes itself. */
  function TransportFailed(st: PageState): (r: PageState)
    ensures r.openSources == (if st.openSources == 0 then 0 else st.openSources - 1)
    ensures r.logs == st.logs && r.lastScrapedId == st.lastScrapedId
  {
    st.(openSources := if st.openSources == 0 then 0 else st.openSources - 1)
  }

  /** `onSuccess` of the mutation records the influencer's id. */
  function MutationSucceeded(st: PageState, influencerId: string): (r: PageState)
    ensures r.lastScrapedId == Some(influencerId)
    ensures r.logs == st.logs && r.openSources == st.openSources
  {
    st.(lastScrapedId := Some(influencerId))
  }

  /** `handleClear`: every field back to empty; connections are untouched. */
  function Cleared(st: PageState): (r: PageState)
    ensures r.username == "" && r.sessionUsername == "" && r.dateFrom == "" && r.dateTo == ""
    ensures r.logs == [] && r.lastScrapedId.None?
    ensures r.openSources == st.openSources
  {
    st.(username := "", sessionUsername := "", dateFrom := "", dateTo := "", logs := [], lastScrapedId := None)
  }

  // ---------------------------------------------------------------------------
  // Flags
  // ---------------------------------------------------------------------------

  /** `isComplete`: some log is a success or an error. */
  predicate IsComplete(logs: seq<ScrapeEvent>) {
    exists i :: 0 <= i < |logs| && logs[i].kind.IsTerminal()
  }

  /** `hasError`: some log is an error. */
  predicate HasError(logs: seq<ScrapeEvent>) {
    exists i :: 0 <= i < |logs| && logs[i].kind == Error
  }

  /** The link to the scraped profile. */
  predicate ShowsProfileLink(st: PageState) {
    st.lastScrapedId.Some? && IsComplete(st.logs) && !HasError(st.logs)
  }

  // ---------------------------------------------------------------------------
  // The page
  // ---------------------------------------------------------------------------

  class ScrapePageComponent {
    var username: string
    var sessionUsername: string
    var dateFrom: string
    var dateTo: string
    var logs: seq<ScrapeEvent>
    var lastScrapedId: Option<string>
    var openSources: nat
    /** Drawn once when the page mounts. */
    const sessionId: string

    function State(): PageState
      reads this
    {
      PageState(username, sessionUsername, dateFrom, dateTo, logs, lastScrapedId, openSources)
    }

    constructor (sessionId: string)
      ensures State() == InitialState && this.sessionId == sessionId
    {
      username, sessionUsername, dateFrom, dateTo := "", "", "", "";
      logs, lastScrapedId, openSources := [], None, 0;
      this.sessionId := sessionId;
    }

    /** Returns the input the mutation is called with, or nothing when the
        submit is refused. */
    method HandleSubmit() returns (request: Option<ScrapeRouter.ScrapeInput>)
      modifies this
      ensures State() == Submitted(old(State()))
      ensures request.Some? <==> SubmitAllowed(old(State()))
      ensures request.Some? ==> request.value == MutationInput(old(State()), sessionId)
    {
      var before := State();
      if !SubmitAllowed(before) {
        assert Submitted(before) == before;
        return None;
      }
      request := Some(MutationInput(before, sessionId));
      var next := Submitted(before);
      logs, lastScrapedId, openSources := next.logs, next.lastScrapedId, next.openSources;
      assert State() == next;
    }

    method OnEvent(e: ScrapeEvent)
      modifies this
      ensures State() == Received(old(State()), e)
    {
      var delivered := 0;
      while delivered < openSources
        invariant 0 <= delivered <= openSources
        invariant logs == old(logs) + Copies(e, delivered)
        invariant openSources == old(openSources) && lastScrapedId == old(lastScrapedId)
        invariant username == old(username) && sessionUsername == old(sessionUsername)
        invariant dateFrom == old(dateFrom) && dateTo == old(dateTo)
      {
        logs := logs + [e];
        delivered := delivered + 1;
      }
      assert logs == old(logs) + Copies(e, old(openSources));
      if e.kind.IsTerminal() {
        openSources := 0;
      }
    }

    method OnTransportError()
      modifies this
      ensures State() == TransportFailed(old(State()))
    {
      if openSources > 0 {
        openSources := openSources - 1;
      }
    }

    method OnMutationSuccess(influencerId: string)
      modifies this
      ensures State() == MutationSucceeded(old(State()), influencerId)
    {
      lastScrapedId := Some(influencerId);
    }

    method HandleClear()
      modifies this
      ensures State() == Cleared(old(State()))
    {
      username, sessionUsername, dateFrom, dateTo := "", "", "", "";
      logs := [];
      lastScrapedId := None;
    }
  }

  // ---------------------------------------------------------------------------
  // Properties
  // ---------------------------------------------------------------------------

  /** An error is a terminal event, so `hasError` implies `isComplete`, and the
      profile link is never shown next to an error. */
  lemma ErrorMeansComplete(logs: seq<ScrapeEvent>)
    ensures HasError(logs) ==> IsComplete(logs)
  {
    if HasError(logs) {
      var i :| 0 <= i < |logs| && logs[i].kind == Error;
      assert logs[i].kind.IsTerminal();
    }
  }

  /** The profile link needs a recorded id and a success event in the logs. */
  lemma ProfileLinkNeedsSuccess(st: PageState)
    requires ShowsProfileLink(st)
    ensures st.lastScrapedId.Some?
    ensures exists i :: 0 <= i < |st.logs| && st.logs[i].kind == Success
  {
    var i :| 0 <= i < |st.logs| && st.logs[i].kind.IsTerminal();
    assert st.logs[i].kind != Error;
  }

  /** A valid submit starts with an empty log, so no flag of an earlier run
      survives it and the profile link disappears. */
  lemma SubmitResetsFlags(st: PageState)
    requires SubmitAllowed(st)
    ensures !IsComplete(Submitted(st).logs) && !HasError(Submitted(st).logs)
    ensures !ShowsProfileLink(Submitted(st))
  {
  }

  /** Once a terminal event arrived on a page with one connection, the
      connection is closed and later events are not logged. */
  lemma TerminalClosesStream(st: PageState, done: ScrapeEvent, later: ScrapeEvent)
    requires done.kind.IsTerminal()
    ensures Received(Received(st, done), later).logs == Received(st, done).logs
    ensures IsComplete(Received(st, done).logs) <==> IsComplete(st.logs) || st.openSources > 0
  {
    var r := Received(st, done);
    assert r.logs == st.logs + Copies(done, st.openSources);
    if st.openSources > 0 {
      assert r.logs[|st.logs|] == done;
    }
    if IsComplete(r.logs) && st.openSources == 0 {
      assert r.logs == st.logs;
    }
  }

  /** A username that is only an "@" passes the page's check, but the input it
      produces has an empty username, which the mutation rejects before any
      event is published. */
  lemma AtSignPassesCheck(st: PageState, sessionId: string, t: Schema.Tables, env: Scraper.Upstream, host: ScrapeRouter.Host)
    requires st.username == "@"
    ensures SubmitAllowed(st)
    ensures MutationInput(st, sessionId).username == ""
    ensures ScrapeRouter.Mutation(t, MutationInput(st, sessionId), env, host) == (ScrapeRouter.Rejected, [], t)
  {
    VisibleFirstChar("@");
    AtSignRemoved();
    var input := MutationInput(st, sessionId);
    assert input.username == "";
    ScrapeRouter.ExactlyOneTerminal(t, input, env, host);
  }

  lemma AtSignRemoved()
    ensures Trim(RemoveFirst("@", '@')) == ""
  {
    assert RemoveFirst("@", '@') == "";
    assert AllWhitespace("");
  }

  /** A text starting with a visible character does not trim to empty. */
  lemma VisibleFirstChar(s: string)
    requires |s| > 0 && !IsWhitespace(s[0])
    ensures Trim(s) != ""
  {
    assert !AllWhitespace(s);
  }

  /** As written: a submit that the mutation rejects without publishing any
      event leaves its connection open, and the next submit opens a second
      one, so every event of the next scrape is logged twice. */
  lemma DuplicateLogsAfterRejectedSubmit(e: ScrapeEvent)
    ensures
      var first := Submitted(InitialState.(username := "@"));
      var second := Submitted(first.(username := "alice"));
      first.openSources == 1 && Received(second, e).logs == [e, e]
  {
    VisibleFirstChar("@");
    VisibleFirstChar("alice");
    var first := Submitted(InitialState.(username := "@"));
    assert first.openSources == 1;
    var second := Submitted(first.(username := "alice"));
    assert second.openSources == 2 && second.logs == [];
    assert Copies(e, 2) == [e, e];
  }

  // ---------------------------------------------------------------------------
  // Corrected submit
  // ---------------------------------------------------------------------------

  /** The submit the page evidently intends: the connection of an earlier
      submit is closed before the new one is opened. */
  function SubmittedClosingPrevious(st: PageState): (r: PageState)
    ensures !SubmitAllowed(st) ==> r == st
    ensures SubmitAllowed(st) ==> r.logs == [] && r.lastScrapedId.None? && r.openSources == 1
    ensures r.username == st.username && r.sessionUsername == st.sessionUsername
    ensures r.dateFrom == st.dateFrom && r.dateTo == st.dateTo
  {
    if SubmitAllowed(st) then st.(logs := [], lastScrapedId := None, openSources := 1)
    else st
  }

  /** The page never holds more than one open connection. */
  predicate SingleStream(st: PageState) {
    st.openSources <= 1
  }

  /** With the corrected submit every transition keeps a single connection,
      and each event is therefore logged at most once. */
  lemma SingleStreamKept(st: PageState, e: ScrapeEvent, influencerId: string)
    requires SingleStream(st)
    ensures SingleStream(SubmittedClosingPrevious(st))
    ensures SingleStream(Received(st, e)) && SingleStream(TransportFailed(st))
    ensures SingleStream(MutationSucceeded(st, influencerId)) && SingleStream(Cleared(st))
    ensures |Received(st, e).logs| <= |st.logs| + 1
  {
  }

  /** The scenario of the as-written lemma, with the corrected submit: the
      event is logged once. */
  lemma NoDuplicateWithClosingSubmit(e: ScrapeEvent)
    ensures
      var first := SubmittedClosingPrevious(InitialState.(username := "@"));
      var second := SubmittedClosingPrevious(first.(username := "alice"));
      Received(second, e).logs == [e]
  {
    VisibleFirstChar("@");
    VisibleFirstChar("alice");
    var first := SubmittedClosingPrevious(InitialState.(username := "@"));
    var second := SubmittedClosingPrevious(first.(username := "alice"));
    assert second.openSources == 1 && second.logs == [];
    assert Copies(e, 1) == [e];
  }
}
