/** The scraper service (`InstaloaderTsService.scrapeInfluencer`): fetch a
    profile, walk its post feed under the filter and termination policy, and
    normalise profile and posts. The Instagram client is not modelled: the
    outcome of creating it, the profile lookup and the feed (a finite sequence
    of items) are inputs. Times are integer milliseconds since the epoch. */
module Scraper {
  import opened Common
  import opened Narration

  // ---------------------------------------------------------------------------
  // What the Instagram client hands back
  // ---------------------------------------------------------------------------

  /** A profile as the client returns it; `Option` stands for its `Some`/`None` wrappers. */
  datatype RawProfile = RawProfile(
    username: string,
    fullName: Option<string>,
    biography: Option<string>,
    followers: Option<int>,
    followees: Option<int>,
    mediacount: Option<int>,
    profilePicUrl: Option<string>,
    isVerified: Option<bool>,
    isBusinessAccount: Option<bool>)

  /** A post as the client returns it. `coauthorProducers` is what
      `getCoauthorProducers()` resolves to: the usernames of the co-author
      profiles, each possibly null. `coauthorsFailure` is the message of the
      error that call rejects with instead, when it does. */
  datatype RawPost = RawPost(
    shortcode: string,
    url: string,
    caption: Option<string>,
    dateUtc: Option<int>,
    isVideo: bool,
    isPinned: bool,
    isSponsored: bool,
    captionHashtags: seq<string>,
    captionMentions: seq<string>,
    taggedUsers: seq<string>,
    ownerUsername: Option<string>,
    coauthorProducers: seq<Option<string>>,
    coauthorsFailure: Option<string>)

  /** One item of the lazy post feed: a post, an error result (its `_tag` or
      constructor name, and its message), or an exception thrown while the item
      was fetched. An exception thrown while a fetched post is normalised is
      the post's `coauthorsFailure`. */
  datatype FeedItem =
    | Ok(post: RawPost)
    | Err(tag: string, message: string)
    | Thrown(message: string)

  /** Result of `getProfile`; an empty `tag` stands for an error without `_tag`. */
  datatype ProfileLookup = Found(profile: RawProfile) | NotFound(tag: string)

  /** Everything the scraper reads from the outside world in one call. */
  datatype Upstream = Upstream(loaderCreated: bool, profile: ProfileLookup, feed: seq<FeedItem>)

  datatype ScrapeRequest = ScrapeRequest(
    username: string,
    dateFrom: Option<int>,
    dateTo: Option<int>,
    sessionUsername: Option<string>)

  // ---------------------------------------------------------------------------
  // Normalised records
  // ---------------------------------------------------------------------------

  datatype ProfileData = ProfileData(
    username: string,
    fullName: string,
    bio: Option<string>,
    followers: Option<int>,
    following: Option<int>,
    postsCount: Option<int>,
    profilePicUrl: Option<string>,
    isVerified: Option<bool>,
    isBusiness: Option<bool>)

  datatype PostData = PostData(
    shortcode: string,
    url: string,
    caption: Option<string>,
    date: Option<int>,
    isVideo: bool,
    taggedUsers: seq<string>,
    captionMentions: seq<string>,
    coauthors: seq<string>,
    isSponsored: bool,
    sponsorUsers: seq<string>)

  datatype ScrapeResponse =
    | Scraped(profile: ProfileData, posts: seq<PostData>)
    | ScrapeFailed(error: string)

  const LoaderFailedMessage := "Failed to create Instaloader instance"
  const AuthRequiredMessage := "Authentification requise pour récupérer les posts. Veuillez configurer une session Instagram (voir README)."
  const MaxPosts := 100
  const MaxConsecutiveErrors := 3
  const MaxConsecutiveOutOfRange := 4

  function ProfileNotFoundMessage(tag: string): string {
    "Profile not found: " + (if tag == "" then "UnknownError" else tag)
  }

  // ---------------------------------------------------------------------------
  // extractProfileData
  // ---------------------------------------------------------------------------

  /** Copies the username; an absent full name becomes "", every other absent
      attribute becomes null. */
  function ExtractProfileData(p: RawProfile): (r: ProfileData)
    ensures r.username == p.username
    ensures r.fullName == (if p.fullName.Some? then p.fullName.value else "")
    ensures r.bio == p.biography && r.profilePicUrl == p.profilePicUrl
    ensures r.followers == p.followers && r.following == p.followees && r.postsCount == p.mediacount
    ensures r.isVerified == p.isVerified && r.isBusiness == p.isBusinessAccount
  {
    ProfileData(p.username, p.fullName.GetOr(""), p.biography, p.followers, p.followees,
                p.mediacount, p.profilePicUrl, p.isVerified, p.isBusinessAccount)
  }

  // ---------------------------------------------------------------------------
  // extractPostData
  // ---------------------------------------------------------------------------

  /** Hashtags that mark a paid partnership. */
  const PartnershipHashtags: seq<string> := ["ad", "sponsored", "pub", "partenariat", "collab"]

  /** `captionHashtags.some(tag => PartnershipHashtags.includes(tag.toLowerCase()))`. */
  function HasPartnershipHashtag(tags: seq<string>): (r: bool)
    ensures r <==> exists i :: 0 <= i < |tags| && ToLower(tags[i]) in PartnershipHashtags
  {
    if tags == [] then false
    else if ToLower(tags[0]) in PartnershipHashtags then true
    else
      var r := HasPartnershipHashtag(tags[1..]);
      assert forall i :: 1 <= i < |tags| ==> tags[i] == tags[1..][i - 1];
      r
  }

  /** `mentions.filter(m => m !== owner)`: the mentions in order, with every
      occurrence of the owner's handle left out. */
  function WithoutOwner(mentions: seq<string>, owner: string): (r: seq<string>)
    ensures IsSubsequence(r, mentions)
    ensures owner !in r
    ensures forall m :: m != owner ==> multiset(r)[m] == multiset(mentions)[m]
  {
    if mentions == [] then []
    else
      var rest := WithoutOwner(mentions[1..], owner);
      assert mentions == [mentions[0]] + mentions[1..];
      if mentions[0] == owner then rest else [mentions[0]] + rest
  }

  /** `producers.map(p => p.username).filter(u => u !== null && u !== "")`:
      the present, non-empty usernames; `CoauthorNamesKeepOrder` adds that
      they keep their order and multiplicity. */
  function CoauthorNames(producers: seq<Option<string>>): (r: seq<string>)
    ensures "" !in r
    ensures forall u :: u in r <==> (u != "" && Some(u) in producers)
    ensures |r| <= |producers|
  {
    if producers == [] then []
    else
      var rest := CoauthorNames(producers[1..]);
      assert producers == [producers[0]] + producers[1..];
      if producers[0].Some? && producers[0].value != "" then [producers[0].value] + rest else rest
  }

  /** The co-author names are the present usernames in their order, each as
      often as it occurs. */
  lemma CoauthorNamesKeepOrder(producers: seq<Option<string>>)
    ensures IsSubsequence(Present(CoauthorNames(producers)), producers)
    ensures forall u :: u != "" ==> multiset(CoauthorNames(producers))[u] == multiset(producers)[Some(u)]
  {
    CoauthorNamesInOrder(producers);
    CoauthorNamesCount(producers);
  }

  lemma {:induction false} CoauthorNamesInOrder(producers: seq<Option<string>>)
    ensures IsSubsequence(Present(CoauthorNames(producers)), producers)
  {
    if producers != [] {
      var rest := CoauthorNames(producers[1..]);
      CoauthorNamesInOrder(producers[1..]);
      if producers[0].Some? && producers[0].value != "" {
        var r := [producers[0].value] + rest;
        assert CoauthorNames(producers) == r;
        assert Present(r)[0] == producers[0] && Present(r)[1..] == Present(rest);
      } else {
        assert CoauthorNames(producers) == rest;
        assert Present(rest) == [] || Present(rest)[0] != producers[0];
      }
    }
  }

  lemma {:induction false} CoauthorNamesCount(producers: seq<Option<string>>)
    ensures forall u :: u != "" ==> multiset(CoauthorNames(producers))[u] == multiset(producers)[Some(u)]
  {
    if producers != [] {
      var rest := CoauthorNames(producers[1..]);
      CoauthorNamesCount(producers[1..]);
      assert producers == [producers[0]] + producers[1..];
      assert multiset(producers) == multiset{producers[0]} + multiset(producers[1..]);
      if producers[0].Some? && producers[0].value != "" {
        assert CoauthorNames(producers) == [producers[0].value] + rest;
      } else {
        assert CoauthorNames(producers) == rest;
      }
    }
  }

  /** Usernames as the present values they were read from. */
  function Present(names: seq<string>): (r: seq<Option<string>>)
    ensures |r| == |names| && forall i :: 0 <= i < |names| ==> r[i] == Some(names[i])
  {
    seq(|names|, i requires 0 <= i < |names| => Some(names[i]))
  }

  function PostUrl(shortcode: string): string {
    "https://www.instagram.com/p/" + shortcode + "/"
  }

  /** Normalises one post. Sponsorship is the explicit flag or a partnership
      hashtag; sponsor users are the caption mentions other than the owner (an
      absent owner counts as ""); the URL falls back to the canonical post URL. */
  function ExtractPostData(p: RawPost): (r: PostData)
    ensures r.shortcode == p.shortcode && r.date == p.dateUtc
  {
    PostData(
      p.shortcode,
      if p.url != "" then p.url else PostUrl(p.shortcode),
      p.caption,
      p.dateUtc,
      p.isVideo,
      p.taggedUsers,
      p.captionMentions,
      CoauthorNames(p.coauthorProducers),
      p.isSponsored || HasPartnershipHashtag(p.captionHashtags),
      WithoutOwner(p.captionMentions, p.ownerUsername.GetOr("")))
  }

  /** What normalisation promises about every post. */
  lemma ExtractPostDataFacts(p: RawPost)
    ensures var r := ExtractPostData(p);
      r.caption == p.caption && r.isVideo == p.isVideo &&
      r.taggedUsers == p.taggedUsers && r.captionMentions == p.captionMentions
    ensures var r := ExtractPostData(p);
      r.isSponsored <==> p.isSponsored || exists i :: 0 <= i < |p.captionHashtags| && ToLower(p.captionHashtags[i]) in PartnershipHashtags
    ensures var r := ExtractPostData(p);
      IsSubsequence(r.sponsorUsers, r.captionMentions) && p.ownerUsername.GetOr("") !in r.sponsorUsers
    ensures var r := ExtractPostData(p);
      forall m :: m in p.captionMentions && m != p.ownerUsername.GetOr("") ==> m in r.sponsorUsers
    ensures var r := ExtractPostData(p);
      r.url == (if p.url != "" then p.url else PostUrl(p.shortcode)) && r.url != ""
    ensures var r := ExtractPostData(p);
      forall u :: u in r.coauthors <==> (u != "" && Some(u) in p.coauthorProducers)
    ensures var r := ExtractPostData(p);
      IsSubsequence(Present(r.coauthors), p.coauthorProducers) &&
      forall u :: u != "" ==> multiset(r.coauthors)[u] == multiset(p.coauthorProducers)[Some(u)]
  {
    var r := ExtractPostData(p);
    CoauthorNamesKeepOrder(p.coauthorProducers);
    var owner := p.ownerUsername.GetOr("");
    assert forall m :: m in p.captionMentions && m != owner ==> multiset(r.sponsorUsers)[m] > 0;
  }

  /** Any caption hashtag whose lower-case form is a partnership hashtag, at
      any position and in any letter case, marks the post as sponsored, with or
      without the explicit flag; `#AD` is one. */
  lemma PartnershipHashtagMeansSponsored(p: RawPost, i: int)
    requires 0 <= i < |p.captionHashtags| && ToLower(p.captionHashtags[i]) in PartnershipHashtags
    ensures ExtractPostData(p).isSponsored
    ensures ExtractPostData(p.(isSponsored := false)).isSponsored
    ensures ToLower("AD") in PartnershipHashtags
  {
    ExtractPostDataFacts(p.(isSponsored := false));
    assert ToLower("AD") == "ad";
  }

  // ---------------------------------------------------------------------------
  // The feed loop: a reference definition
  // ---------------------------------------------------------------------------

  /** An error that asks for a logged-in session; it aborts the whole scrape. */
  predicate IsAuthError(tag: string, message: string) {
    Contains(message, "undefined is not an object") || Contains(message, "d.data.user") || tag == "LoginRequiredError"
  }

  predicate IsAfterDateTo(req: ScrapeRequest, date: Option<int>) {
    req.dateTo.Some? && date.Some? && date.value > req.dateTo.value
  }

  predicate IsBeforeDateFrom(req: ScrapeRequest, date: Option<int>) {
    req.dateFrom.Some? && date.Some? && date.value < req.dateFrom.value
  }

  /** An undated post, or any post when no bound is given, is in the window. */
  predicate InWindow(req: ScrapeRequest, date: Option<int>) {
    date.None? ||
    ((req.dateFrom.None? || req.dateFrom.value <= date.value) &&
     (req.dateTo.None? || date.value <= req.dateTo.value))
  }

  /** The loop's variables: collected posts, the number of posts seen (pinned
      included), consecutive errors, skipped pinned posts, consecutive
      out-of-window posts, and the log lines written so far. */
  datatype LoopState = LoopState(
    posts: seq<PostData>,
    postCount: nat,
    errorCount: nat,
    skippedPinned: nat,
    outOfRange: nat,
    logs: seq<LogLine>)

  datatype StepResult =
    | Continue(st: LoopState)
    | Stop(st: LoopState)
    | AuthAbort(st: LoopState)
    | Fault(message: string, st: LoopState)

  /** One iteration of the `for await` loop over the feed. */
  function Step(req: ScrapeRequest, st: LoopState, item: FeedItem): (r: StepResult)
    ensures item.Ok? ==> !r.AuthAbort? && r.st.errorCount == 0
    ensures r.Fault? <==>
      (item.Thrown? ||
       (item.Ok? && !item.post.isPinned && InWindow(req, item.post.dateUtc) && item.post.coauthorsFailure.Some?))
    ensures item.Ok? && item.post.isPinned ==>
      r.Continue? && r.st.posts == st.posts && r.st.outOfRange == st.outOfRange
    ensures !item.Ok? ==> r.st.posts == st.posts
  {
    match item
    case Thrown(message) => Fault(message, st)
    case Err(tag, message) =>
      var errorCount := st.errorCount + 1;
      if IsAuthError(tag, message) then AuthAbort(st.(errorCount := errorCount))
      else if errorCount >= MaxConsecutiveErrors then Stop(st.(errorCount := errorCount))
      else Continue(st.(errorCount := errorCount))
    case Ok(post) =>
      var postCount := st.postCount + 1;
      var seen := st.(errorCount := 0, postCount := postCount);
      if post.isPinned then
        Continue(seen.(skippedPinned := st.skippedPinned + 1,
                       logs := st.logs + [SkippingPinned(postCount, post.shortcode)]))
      else
        var logged := seen.(logs := st.logs + [PostSeen(postCount, post.shortcode, post.dateUtc)]);
        if IsAfterDateTo(req, post.dateUtc) then
          var k := st.outOfRange + 1;
          var skipped := logged.(outOfRange := k, logs := logged.logs + [AfterDateTo(k)]);
          if k >= MaxConsecutiveOutOfRange then Stop(skipped.(logs := skipped.logs + [StopAfterDateTo]))
          else Continue(skipped)
        else if IsBeforeDateFrom(req, post.dateUtc) then
          var k := st.outOfRange + 1;
          var skipped := logged.(outOfRange := k, logs := logged.logs + [BeforeDateFrom(k)]);
          if k >= MaxConsecutiveOutOfRange then Stop(skipped.(logs := skipped.logs + [StopBeforeDateFrom]))
          else Continue(skipped)
        else if post.coauthorsFailure.Some? then
          Fault(post.coauthorsFailure.value, logged.(outOfRange := 0))
        else
          var collected := logged.(outOfRange := 0, posts := st.posts + [ExtractPostData(post)]);
          if |collected.posts| >= MaxPosts then Stop(collected.(logs := collected.logs + [PostLimitReached]))
          else Continue(collected)
  }

  datatype FeedOutcome =
    | Finished(st: LoopState)
    | AuthAborted(st: LoopState)
    | Faulted(message: string, st: LoopState)

  /** The loop over the whole remaining feed. */
  function RunFeed(req: ScrapeRequest, feed: seq<FeedItem>, st: LoopState): FeedOutcome
    decreases |feed|
  {
    if feed == [] then Finished(st)
    else
      match Step(req, st, feed[0])
      case Continue(next) => RunFeed(req, feed[1..], next)
      case Stop(next) => Finished(next)
      case AuthAbort(next) => AuthAborted(next)
      case Fault(message, next) => Faulted(message, next)
  }

  const InitialLoopState := LoopState([], 0, 0, 0, 0, [])

  /** The lines logged before the feed is walked. */
  function OpeningLogs(req: ScrapeRequest): seq<LogLine> {
    (if Truthy(req.sessionUsername) then [LoadingSession(req.sessionUsername.value)] else [])
    + [GettingProfile(req.username)]
  }

  /** The lines logged after the feed loop ends normally. */
  function ClosingLogs(st: LoopState): seq<LogLine> {
    (if st.skippedPinned > 0 then [SkippedPinnedTotal(st.skippedPinned)] else []) + [Done(|st.posts|)]
  }

  /** What one call of `scrapeInfluencer` returns and logs. */
  function Scrape(req: ScrapeRequest, env: Upstream): (ScrapeResponse, seq<LogLine>) {
    if !env.loaderCreated then (ScrapeFailed(LoaderFailedMessage), [])
    else
      var opening := OpeningLogs(req);
      match env.profile
      case NotFound(tag) => (ScrapeFailed(ProfileNotFoundMessage(tag)), opening)
      case Found(raw) =>
        var profile := ExtractProfileData(raw);
        var start := InitialLoopState.(logs := opening + [ProfileRetrieved(profile.fullName, profile.username), FetchingPosts]);
        match RunFeed(req, env.feed, start)
        case AuthAborted(st) => (ScrapeFailed(AuthRequiredMessage), st.logs)
        case Faulted(message, st) => (ScrapeFailed(message), st.logs)
        case Finished(st) => (Scraped(profile, st.posts), st.logs + ClosingLogs(st))
  }

  // ---------------------------------------------------------------------------
  // The feed loop as the service runs it
  // ---------------------------------------------------------------------------

  /** `scrapeInfluencer`: the same walk, with mutable counters and early exits. */
  method ScrapeInfluencer(req: ScrapeRequest, env: Upstream) returns (response: ScrapeResponse, logs: seq<LogLine>)
    ensures (response, logs) == Scrape(req, env)
    ensures response.Scraped? ==> env.profile.Found? && response.profile == ExtractProfileData(env.profile.profile)
    ensures response.Scraped? ==> |response.posts| <= MaxPosts && response.posts <= Eligible(req, env.feed)
  {
    logs := [];
    if !env.loaderCreated {
      response := ScrapeFailed(LoaderFailedMessage);
      return;
    }
    if Truthy(req.sessionUsername) {
      logs := logs + [LoadingSession(req.sessionUsername.value)];
    }
    logs := logs + [GettingProfile(req.username)];
    assert logs == OpeningLogs(req);
    if env.profile.NotFound? {
      response := ScrapeFailed(ProfileNotFoundMessage(env.profile.tag));
      return;
    }
    var profileData := ExtractProfileData(env.profile.profile);
    logs := logs + [ProfileRetrieved(profileData.fullName, profileData.username), FetchingPosts];
    var start := InitialLoopState.(logs := logs);
    var outcome := WalkFeed(req, env.feed, start);
    match outcome
    case AuthAborted(st) =>
      response, logs := ScrapeFailed(AuthRequiredMessage), st.logs;
    case Faulted(message, st) =>
      response, logs := ScrapeFailed(message), st.logs;
    case Finished(st) =>
      logs := st.logs;
      if st.skippedPinned > 0 {
        logs := logs + [SkippedPinnedTotal(st.skippedPinned)];
      }
      logs := logs + [Done(|st.posts|)];
      assert logs == st.logs + ClosingLogs(st);
      response := Scraped(profileData, st.posts);
      RunCollectsEligiblePrefix(req, env.feed, start);
  }

  /** The `for await` loop over the feed, with its mutable counters and early
      exits; it computes what `RunFeed` defines. */
  method WalkFeed(req: ScrapeRequest, feed: seq<FeedItem>, start: LoopState) returns (outcome: FeedOutcome)
    ensures outcome == RunFeed(req, feed, start)
  {
    var st := start;
    var i := 0;
    while i < |feed|
      invariant 0 <= i <= |feed|
      invariant RunFeed(req, feed, start) == RunFeed(req, feed[i..], st)
    {
      var item := feed[i];
      RunFeedUnfold(req, feed[i..], st);
      assert feed[i..][0] == item && feed[i..][1..] == feed[i + 1..];
      var r: StepResult;
      if item.Thrown? {
        return Faulted(item.message, st);
      } else if item.Err? {
        r := VisitError(st, item.tag, item.message);
        assert r == Step(req, st, item);
      } else {
        r := VisitPost(req, st, item.post);
      }
      if r.Continue? {
        st := r.st;
        i := i + 1;
      } else if r.Stop? {
        return Finished(r.st);
      } else if r.AuthAbort? {
        return AuthAborted(r.st);
      } else {
        return Faulted(r.message, r.st);
      }
    }
    return Finished(st);
  }

  /** The loop body for an error item: count it, abort on an authentication
      error, stop at the third in a row. */
  method VisitError(st: LoopState, tag: string, message: string) returns (r: StepResult)
    ensures forall req :: r == Step(req, st, Err(tag, message))
    ensures r.Continue? || r.Stop? || r.AuthAbort?
  {
    var errorCount := st.errorCount + 1;
    if IsAuthError(tag, message) {
      return AuthAbort(st.(errorCount := errorCount));
    }
    if errorCount >= MaxConsecutiveErrors {
      return Stop(st.(errorCount := errorCount));
    }
    return Continue(st.(errorCount := errorCount));
  }

  /** The loop body for a post: reset the error count, skip a pinned post,
      count an out-of-window post and stop at the fourth in a row, collect an
      in-window post and stop at 100. A co-author lookup that throws while an
      in-window post is normalised ends the walk with that error. */
  method VisitPost(req: ScrapeRequest, st: LoopState, post: RawPost) returns (r: StepResult)
    ensures r == Step(req, st, Ok(post))
    ensures !r.AuthAbort?
  {
    var postCount := st.postCount + 1;
    var seen := st.(errorCount := 0, postCount := postCount);
    if post.isPinned {
      return Continue(seen.(skippedPinned := st.skippedPinned + 1,
                            logs := st.logs + [SkippingPinned(postCount, post.shortcode)]));
    }
    var logs := st.logs + [PostSeen(postCount, post.shortcode, post.dateUtc)];
    if IsAfterDateTo(req, post.dateUtc) || IsBeforeDateFrom(req, post.dateUtc) {
      var consecutiveOutOfRange := st.outOfRange + 1;
      if IsAfterDateTo(req, post.dateUtc) {
        logs := logs + [AfterDateTo(consecutiveOutOfRange)];
        if consecutiveOutOfRange >= MaxConsecutiveOutOfRange {
          logs := logs + [StopAfterDateTo];
        }
      } else {
        logs := logs + [BeforeDateFrom(consecutiveOutOfRange)];
        if consecutiveOutOfRange >= MaxConsecutiveOutOfRange {
          logs := logs + [StopBeforeDateFrom];
        }
      }
      var skipped := seen.(outOfRange := consecutiveOutOfRange, logs := logs);
      if consecutiveOutOfRange >= MaxConsecutiveOutOfRange {
        return Stop(skipped);
      }
      return Continue(skipped);
    }
    if post.coauthorsFailure.Some? {
      return Fault(post.coauthorsFailure.value, seen.(outOfRange := 0, logs := logs));
    }
    var collected := seen.(outOfRange := 0, posts := st.posts + [ExtractPostData(post)], logs := logs);
    if |collected.posts| >= MaxPosts {
      return Stop(collected.(logs := logs + [PostLimitReached]));
    }
    return Continue(collected);
  }

  /** One unfolding of `RunFeed` on a non-empty feed. */
  lemma RunFeedUnfold(req: ScrapeRequest, feed: seq<FeedItem>, st: LoopState)
    requires feed != []
    ensures RunFeed(req, feed, st) == match Step(req, st, feed[0])
      case Continue(next) => RunFeed(req, feed[1..], next)
      case Stop(next) => Finished(next)
      case AuthAbort(next) => AuthAborted(next)
      case Fault(message, next) => Faulted(message, next)
  {
  }

  // ---------------------------------------------------------------------------
  // Properties of the feed loop
  // ---------------------------------------------------------------------------

  /** The posts the loop would collect if nothing stopped it: every non-pinned
      post inside the window whose normalisation succeeds, normalised, in feed
      order. */
  function Eligible(req: ScrapeRequest, feed: seq<FeedItem>): (r: seq<PostData>)
    ensures forall i :: 0 <= i < |r| ==> InWindow(req, r[i].date)
    ensures |r| <= |feed|
  {
    if feed == [] then [] else Collected(req, feed[0]) + Eligible(req, feed[1..])
  }

  /** What one item adds to the collected posts: its data when it is a post
      that is neither pinned nor outside the window and normalises. */
  function Collected(req: ScrapeRequest, item: FeedItem): seq<PostData> {
    if item.Ok? && !item.post.isPinned && InWindow(req, item.post.dateUtc) && item.post.coauthorsFailure.None? then
      [ExtractPostData(item.post)]
    else []
  }

  /** Whatever the outcome of a step, it adds exactly the item's contribution. */
  lemma StepPosts(req: ScrapeRequest, st: LoopState, item: FeedItem)
    ensures Step(req, st, item).st.posts == st.posts + Collected(req, item)
  {
    if item.Ok? && !item.post.isPinned {
      assert InWindow(req, item.post.dateUtc) <==>
        !IsAfterDateTo(req, item.post.dateUtc) && !IsBeforeDateFrom(req, item.post.dateUtc);
    }
  }

  /** The loop collects a prefix of the eligible posts, never more than 100:
      collected posts keep feed order, lie inside the window (or are undated),
      and none is pinned. */
  lemma {:induction false} RunCollectsEligiblePrefix(req: ScrapeRequest, feed: seq<FeedItem>, st: LoopState)
    requires |st.posts| < MaxPosts
    ensures RunFeed(req, feed, st).Finished? ==>
      var done := RunFeed(req, feed, st).st.posts;
      st.posts <= done && done <= st.posts + Eligible(req, feed) && |done| <= MaxPosts
    decreases |feed|
  {
    if feed != [] {
      var step := Step(req, st, feed[0]);
      var rest := Eligible(req, feed[1..]);
      var added := Collected(req, feed[0]);
      StepPosts(req, st, feed[0]);
      assert Eligible(req, feed) == added + rest;
      if step.Continue? {
        RunCollectsEligiblePrefix(req, feed[1..], step.st);
        assert RunFeed(req, feed, st) == RunFeed(req, feed[1..], step.st) by {
          RunFeedUnfold(req, feed, st);
        }
        if RunFeed(req, feed, st).Finished? {
          PrefixThrough(st.posts, added, rest, RunFeed(req, feed, st).st.posts);
        }
      } else if step.Stop? {
        assert RunFeed(req, feed, st) == Finished(step.st) by {
          RunFeedUnfold(req, feed, st);
        }
        PrefixThrough(st.posts, added, rest, step.st.posts);
        assert |added| <= 1;
      } else {
        assert !RunFeed(req, feed, st).Finished? by {
          RunFeedUnfold(req, feed, st);
        }
      }
    }
  }

  /** Prefix bounds that hold after one step carry over to the whole. */
  lemma PrefixThrough(before: seq<PostData>, added: seq<PostData>, rest: seq<PostData>, done: seq<PostData>)
    requires before + added <= done && done <= (before + added) + rest
    ensures before <= done && done <= before + (added + rest)
  {
    assert (before + added) + rest == before + (added + rest);
  }

  /** Every item of the feed is a post inside the window whose co-author
      lookup succeeds. */
  predicate AllPostsInWindow(req: ScrapeRequest, feed: seq<FeedItem>) {
    forall i :: 0 <= i < |feed| ==>
      feed[i].Ok? && InWindow(req, feed[i].post.dateUtc) && feed[i].post.coauthorsFailure.None?
  }

  /** The first `n` elements of `s`, or all of them when there are fewer. */
  function Take(s: seq<PostData>, n: nat): (r: seq<PostData>)
    ensures r <= s && |r| == (if |s| < n then |s| else n)
  {
    s[..if |s| < n then |s| else n]
  }

  lemma TakeFront(x: PostData, rest: seq<PostData>, n: nat)
    requires n >= 1
    ensures Take([x] + rest, n) == [x] + Take(rest, n - 1)
  {
  }

  /** With every item a post inside the window (pinned ones allowed), the loop
      collects exactly the eligible posts, cut at 100. */
  lemma {:induction false} RunCollectsAllInWindow(req: ScrapeRequest, feed: seq<FeedItem>, st: LoopState)
    requires |st.posts| < MaxPosts
    requires AllPostsInWindow(req, feed)
    ensures RunFeed(req, feed, st).Finished?
    ensures RunFeed(req, feed, st).st.posts == st.posts + Take(Eligible(req, feed), MaxPosts - |st.posts|)
    decreases |feed|
  {
    if feed != [] {
      assert feed[0].Ok? && InWindow(req, feed[0].post.dateUtc) && feed[0].post.coauthorsFailure.None?;
      var step := Step(req, st, feed[0]);
      StepInWindow(req, st, feed[0]);
      if step.Continue? {
        assert AllPostsInWindow(req, feed[1..]) by {
          assert forall i :: 0 <= i < |feed[1..]| ==> feed[1..][i] == feed[i + 1];
        }
        RunCollectsAllInWindow(req, feed[1..], step.st);
        InWindowContinue(req, feed, st);
      } else {
        InWindowStop(req, feed, st);
      }
    }
  }

  /** The inductive step of `RunCollectsAllInWindow` when the loop goes on. */
  lemma InWindowContinue(req: ScrapeRequest, feed: seq<FeedItem>, st: LoopState)
    requires feed != [] && feed[0].Ok? && InWindow(req, feed[0].post.dateUtc) && feed[0].post.coauthorsFailure.None?
    requires |st.posts| < MaxPosts
    requires Step(req, st, feed[0]).Continue?
    requires var next := Step(req, st, feed[0]).st;
      RunFeed(req, feed[1..], next).Finished? &&
      RunFeed(req, feed[1..], next).st.posts == next.posts + Take(Eligible(req, feed[1..]), MaxPosts - |next.posts|)
    ensures RunFeed(req, feed, st).Finished?
    ensures RunFeed(req, feed, st).st.posts == st.posts + Take(Eligible(req, feed), MaxPosts - |st.posts|)
  {
    var next := Step(req, st, feed[0]).st;
    assert RunFeed(req, feed, st) == RunFeed(req, feed[1..], next) by {
      RunFeedUnfold(req, feed, st);
    }
    StepInWindow(req, st, feed[0]);
    if feed[0].post.isPinned {
      assert next.posts == st.posts;
      assert Eligible(req, feed) == Eligible(req, feed[1..]);
    } else {
      ContinueCollects(req, feed, st.posts, next.posts);
    }
  }

  /** The collected posts after a non-pinned in-window post that does not
      reach the limit. */
  lemma ContinueCollects(req: ScrapeRequest, feed: seq<FeedItem>, before: seq<PostData>, after: seq<PostData>)
    requires feed != [] && feed[0].Ok? && !feed[0].post.isPinned && InWindow(req, feed[0].post.dateUtc)
    requires feed[0].post.coauthorsFailure.None?
    requires after == before + [ExtractPostData(feed[0].post)] && |after| < MaxPosts
    ensures after + Take(Eligible(req, feed[1..]), MaxPosts - |after|)
      == before + Take(Eligible(req, feed), MaxPosts - |before|)
  {
    var x := ExtractPostData(feed[0].post);
    assert Collected(req, feed[0]) == [x];
    assert Eligible(req, feed) == [x] + Eligible(req, feed[1..]);
    TakeAfterCollect(before, x, Eligible(req, feed[1..]));
  }

  /** Collecting `x` and then taking from the rest is taking from `[x] + rest`. */
  lemma TakeAfterCollect(before: seq<PostData>, x: PostData, rest: seq<PostData>)
    requires |before| + 1 < MaxPosts
    ensures (before + [x]) + Take(rest, MaxPosts - |before + [x]|) == before + Take([x] + rest, MaxPosts - |before|)
  {
    var n := MaxPosts - |before|;
    TakeFront(x, rest, n);
    assert (before + [x]) + Take(rest, n - 1) == before + ([x] + Take(rest, n - 1));
  }

  /** The last step of `RunCollectsAllInWindow`: the hundredth post is collected. */
  lemma InWindowStop(req: ScrapeRequest, feed: seq<FeedItem>, st: LoopState)
    requires feed != [] && feed[0].Ok? && InWindow(req, feed[0].post.dateUtc) && feed[0].post.coauthorsFailure.None?
    requires |st.posts| < MaxPosts
    requires !Step(req, st, feed[0]).Continue?
    ensures RunFeed(req, feed, st).Finished?
    ensures RunFeed(req, feed, st).st.posts == st.posts + Take(Eligible(req, feed), MaxPosts - |st.posts|)
  {
    var head := feed[0].post;
    var rest := Eligible(req, feed[1..]);
    RunFeedUnfold(req, feed, st);
    StepInWindow(req, st, feed[0]);
    assert RunFeed(req, feed, st) == Finished(Step(req, st, feed[0]).st);
    var x := ExtractPostData(head);
    assert Eligible(req, feed) == [x] + rest;
    TakeFront(x, rest, 1);
    assert Take(rest, 0) == [];
  }

  /** One step on an in-window post that normalises: a pinned post continues
      with nothing collected and the out-of-window run untouched; any other
      post is collected, ends the run of out-of-window posts, and the loop
      stops exactly when that makes 100. */
  lemma StepInWindow(req: ScrapeRequest, st: LoopState, item: FeedItem)
    requires item.Ok? && InWindow(req, item.post.dateUtc) && item.post.coauthorsFailure.None?
    ensures var r := Step(req, st, item);
      (r.Continue? || r.Stop?) &&
      (item.post.isPinned ==> r.Continue? && r.st.posts == st.posts && r.st.outOfRange == st.outOfRange) &&
      (!item.post.isPinned ==>
        r.st.posts == st.posts + [ExtractPostData(item.post)] && r.st.outOfRange == 0 &&
        (r.Stop? <==> |st.posts| + 1 >= MaxPosts))
  {
    assert !IsAfterDateTo(req, item.post.dateUtc) && !IsBeforeDateFrom(req, item.post.dateUtc);
  }

  /** A co-author lookup that throws on an in-window post ends the walk with
      its message, after the post was counted and logged and the run of
      out-of-window posts was reset; nothing is collected for it. */
  lemma CoauthorFailureFaults(req: ScrapeRequest, st: LoopState, item: FeedItem)
    requires item.Ok? && !item.post.isPinned && InWindow(req, item.post.dateUtc)
    requires item.post.coauthorsFailure.Some?
    ensures var r := Step(req, st, item);
      r.Fault? && r.message == item.post.coauthorsFailure.value &&
      r.st.posts == st.posts && r.st.errorCount == 0 && r.st.outOfRange == 0 &&
      r.st.postCount == st.postCount + 1 &&
      r.st.logs == st.logs + [PostSeen(st.postCount + 1, item.post.shortcode, item.post.dateUtc)]
  {
    assert !IsAfterDateTo(req, item.post.dateUtc) && !IsBeforeDateFrom(req, item.post.dateUtc);
  }

  /** A scrape whose feed starts with such a post fails with the lookup's
      message, and its log still reports the post. */
  lemma CoauthorFailureFailsScrape(req: ScrapeRequest, env: Upstream)
    requires env.loaderCreated && env.profile.Found? && env.feed != []
    requires var item := env.feed[0];
      item.Ok? && !item.post.isPinned && InWindow(req, item.post.dateUtc) && item.post.coauthorsFailure.Some?
    ensures var (response, logs) := Scrape(req, env);
      var post := env.feed[0].post;
      response == ScrapeFailed(post.coauthorsFailure.value) &&
      logs != [] && logs[|logs| - 1] == PostSeen(1, post.shortcode, post.dateUtc)
  {
    var profile := ExtractProfileData(env.profile.profile);
    var start := InitialLoopState.(logs := OpeningLogs(req) + [ProfileRetrieved(profile.fullName, profile.username), FetchingPosts]);
    CoauthorFailureFaults(req, start, env.feed[0]);
    RunFeedUnfold(req, env.feed, start);
  }

  /** The third consecutive error (counting those already seen) stops the
      loop: the result is a success with what was collected, whatever follows
      in the feed. */
  lemma {:induction false} ThirdErrorStops(req: ScrapeRequest, feed: seq<FeedItem>, st: LoopState)
    requires st.errorCount < MaxConsecutiveErrors
    requires MaxConsecutiveErrors - st.errorCount <= |feed|
    requires forall i :: 0 <= i < MaxConsecutiveErrors - st.errorCount ==>
      feed[i].Err? && !IsAuthError(feed[i].tag, feed[i].message)
    ensures RunFeed(req, feed, st) == Finished(st.(errorCount := MaxConsecutiveErrors))
    decreases MaxConsecutiveErrors - st.errorCount
  {
    var next := st.(errorCount := st.errorCount + 1);
    if st.errorCount + 1 < MaxConsecutiveErrors {
      assert Step(req, st, feed[0]) == Continue(next);
      ThirdErrorStops(req, feed[1..], next);
    }
  }

  /** Four consecutive non-pinned posts outside the window (counting those
      already seen) stop the loop with nothing more collected. */
  lemma {:induction false} FourthOutOfRangeStops(req: ScrapeRequest, feed: seq<FeedItem>, st: LoopState)
    requires st.outOfRange < MaxConsecutiveOutOfRange
    requires MaxConsecutiveOutOfRange - st.outOfRange <= |feed|
    requires forall i :: 0 <= i < MaxConsecutiveOutOfRange - st.outOfRange ==>
      feed[i].Ok? && !feed[i].post.isPinned && !InWindow(req, feed[i].post.dateUtc)
    ensures RunFeed(req, feed, st).Finished?
    ensures RunFeed(req, feed, st).st.posts == st.posts
    ensures RunFeed(req, feed, st).st.outOfRange == MaxConsecutiveOutOfRange
    decreases MaxConsecutiveOutOfRange - st.outOfRange
  {
    var step := Step(req, st, feed[0]);
    assert step.st.outOfRange == st.outOfRange + 1 && step.st.posts == st.posts;
    if step.Continue? {
      FourthOutOfRangeStops(req, feed[1..], step.st);
    }
  }

  /** The scrape is aborted for authentication only when the feed holds an
      authentication error, and an authentication error as the first item
      always aborts it. */
  lemma {:induction false} AuthAbortNeedsAuthError(req: ScrapeRequest, feed: seq<FeedItem>, st: LoopState)
    ensures RunFeed(req, feed, st).AuthAborted? ==>
      exists i :: 0 <= i < |feed| && feed[i].Err? && IsAuthError(feed[i].tag, feed[i].message)
    ensures feed != [] && feed[0].Err? && IsAuthError(feed[0].tag, feed[0].message) ==>
      RunFeed(req, feed, st).AuthAborted?
    decreases |feed|
  {
    if feed != [] {
      var step := Step(req, st, feed[0]);
      if step.Continue? {
        AuthAbortNeedsAuthError(req, feed[1..], step.st);
        if RunFeed(req, feed, st).AuthAborted? {
          var i :| 0 <= i < |feed[1..]| && feed[1..][i].Err? && IsAuthError(feed[1..][i].tag, feed[1..][i].message);
          assert feed[i + 1] == feed[1..][i];
        }
      }
    }
  }
}
