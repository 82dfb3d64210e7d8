/** The relational schema: the `influencer`, `post` and `scrape_log` tables,
    their keys, uniqueness and foreign-key constraints, the status enumeration
    and the column defaults. A table is a map from primary key to row.
    Timestamps are integer milliseconds since the epoch. */
module Schema {
  import opened Common

  /** `scrape_log.status`: the text enumeration {success, partial, failed}. */
  datatype ScrapeStatus = Success | Partial | Failed

  datatype InfluencerRow = InfluencerRow(
    id: string,
    username: string,
    fullName: string,
    bio: Option<string>,
    followers: int,
    following: int,
    postsCount: int,
    profilePicUrl: Option<string>,
    isVerified: bool,
    isBusiness: bool,
    createdAt: int,
    updatedAt: int)

  /** The JSON array columns are nullable: `None` is SQL NULL. */
  datatype PostRow = PostRow(
    id: string,
    influencerId: string,
    shortcode: string,
    url: string,
    caption: Option<string>,
    date: int,
    isVideo: bool,
    taggedUsers: Option<seq<string>>,
    captionMentions: Option<seq<string>>,
    coauthors: Option<seq<string>>,
    isSponsored: bool,
    sponsorUsers: Option<seq<string>>,
    createdAt: int)

  datatype ScrapeLogRow = ScrapeLogRow(
    id: string,
    influencerId: string,
    scrapedAt: int,
    dateFrom: int,
    dateTo: int,
    postsCount: int,
    status: ScrapeStatus,
    errorMessage: Option<string>)

  /** The three tables, each keyed by its primary key `id`. */
  datatype Tables = Tables(
    influencers: map<string, InfluencerRow>,
    posts: map<string, PostRow>,
    scrapeLogs: map<string, ScrapeLogRow>)

  const EmptyTables := Tables(map[], map[], map[])

  // ---------------------------------------------------------------------------
  // Constraints
  // ---------------------------------------------------------------------------

  /** Every row is stored under its own primary key. */
  predicate KeysAreIds(t: Tables) {
    (forall k :: k in t.influencers ==> t.influencers[k].id == k) &&
    (forall k :: k in t.posts ==> t.posts[k].id == k) &&
    (forall k :: k in t.scrapeLogs ==> t.scrapeLogs[k].id == k)
  }

  /** `influencer.username` is unique. */
  predicate UniqueUsernames(t: Tables) {
    forall a, b :: a in t.influencers && b in t.influencers && t.influencers[a].username == t.influencers[b].username ==> a == b
  }

  /** `post.shortcode` is unique. */
  predicate UniqueShortcodes(t: Tables) {
    forall a, b :: a in t.posts && b in t.posts && t.posts[a].shortcode == t.posts[b].shortcode ==> a == b
  }

  /** Every post and every scrape log references an existing influencer. */
  predicate ForeignKeys(t: Tables) {
    (forall k :: k in t.posts ==> t.posts[k].influencerId in t.influencers) &&
    (forall k :: k in t.scrapeLogs ==> t.scrapeLogs[k].influencerId in t.influencers)
  }

  predicate Consistent(t: Tables) {
    KeysAreIds(t) && UniqueUsernames(t) && UniqueShortcodes(t) && ForeignKeys(t)
  }

  predicate HasUsername(t: Tables, username: string) {
    exists k :: k in t.influencers && t.influencers[k].username == username
  }

  predicate HasShortcode(t: Tables, shortcode: string) {
    exists k :: k in t.posts && t.posts[k].shortcode == shortcode
  }

  // ---------------------------------------------------------------------------
  // Column defaults
  // ---------------------------------------------------------------------------

  /** A column in an insert's `values`: left out (the default applies) or given. */
  datatype Column<T> = Omitted | Given(value: T) {
    function Or(default: T): T {
      match this
      case Omitted => default
      case Given(v) => v
    }
  }

  /** `db.insert(influencer).values(...)`. */
  datatype InfluencerValues = InfluencerValues(
    id: string,
    username: string,
    fullName: string,
    bio: Option<string>,
    followers: int,
    following: int,
    postsCount: int,
    profilePicUrl: Option<string>,
    isVerified: Column<bool>,
    isBusiness: Column<bool>,
    createdAt: Column<int>,
    updatedAt: Column<int>)

  /** `db.insert(post).values(...)`. */
  datatype PostValues = PostValues(
    id: string,
    influencerId: string,
    shortcode: string,
    url: string,
    caption: Option<string>,
    date: int,
    isVideo: Column<bool>,
    taggedUsers: Column<Option<seq<string>>>,
    captionMentions: Column<Option<seq<string>>>,
    coauthors: Column<Option<seq<string>>>,
    isSponsored: Column<bool>,
    sponsorUsers: Column<Option<seq<string>>>,
    createdAt: Column<int>)

  /** `db.insert(scrapeLog).values(...)`. */
  datatype ScrapeLogValues = ScrapeLogValues(
    id: string,
    influencerId: string,
    scrapedAt: Column<int>,
    dateFrom: int,
    dateTo: int,
    postsCount: int,
    status: ScrapeStatus,
    errorMessage: Column<Option<string>>)

  /** The row an influencer insert creates at time `now`: both flags default
      to false, both timestamps to `now`. */
  function NewInfluencer(v: InfluencerValues, now: int): (r: InfluencerRow)
    ensures r.id == v.id && r.username == v.username && r.fullName == v.fullName && r.bio == v.bio
    ensures r.followers == v.followers && r.following == v.following && r.postsCount == v.postsCount
    ensures r.profilePicUrl == v.profilePicUrl
    ensures v.isVerified.Omitted? ==> !r.isVerified
    ensures v.isBusiness.Omitted? ==> !r.isBusiness
    ensures v.createdAt.Omitted? ==> r.createdAt == now
    ensures v.updatedAt.Omitted? ==> r.updatedAt == now
    ensures v.isVerified.Given? ==> r.isVerified == v.isVerified.value
    ensures v.isBusiness.Given? ==> r.isBusiness == v.isBusiness.value
    ensures v.createdAt.Given? ==> r.createdAt == v.createdAt.value
    ensures v.updatedAt.Given? ==> r.updatedAt == v.updatedAt.value
  {
    InfluencerRow(v.id, v.username, v.fullName, v.bio, v.followers, v.following, v.postsCount,
                  v.profilePicUrl, v.isVerified.Or(false), v.isBusiness.Or(false),
                  v.createdAt.Or(now), v.updatedAt.Or(now))
  }

  /** The row a post insert creates at time `now`: the flags default to false
      and the JSON array columns to the empty array (an explicit null stays
      null). */
  function NewPost(v: PostValues, now: int): (r: PostRow)
    ensures r.id == v.id && r.influencerId == v.influencerId && r.shortcode == v.shortcode
    ensures r.url == v.url && r.caption == v.caption && r.date == v.date
    ensures v.isVideo.Omitted? ==> !r.isVideo
    ensures v.isSponsored.Omitted? ==> !r.isSponsored
    ensures v.taggedUsers.Omitted? ==> r.taggedUsers == Some([])
    ensures v.captionMentions.Omitted? ==> r.captionMentions == Some([])
    ensures v.coauthors.Omitted? ==> r.coauthors == Some([])
    ensures v.sponsorUsers.Omitted? ==> r.sponsorUsers == Some([])
    ensures v.createdAt.Omitted? ==> r.createdAt == now
    ensures v.isVideo.Given? ==> r.isVideo == v.isVideo.value
    ensures v.isSponsored.Given? ==> r.isSponsored == v.isSponsored.value
    ensures v.sponsorUsers.Given? ==> r.sponsorUsers == v.sponsorUsers.value
    ensures v.taggedUsers.Given? ==> r.taggedUsers == v.taggedUsers.value
    ensures v.captionMentions.Given? ==> r.captionMentions == v.captionMentions.value
    ensures v.coauthors.Given? ==> r.coauthors == v.coauthors.value
    ensures v.createdAt.Given? ==> r.createdAt == v.createdAt.value
  {
    PostRow(v.id, v.influencerId, v.shortcode, v.url, v.caption, v.date,
            v.isVideo.Or(false), v.taggedUsers.Or(Some([])), v.captionMentions.Or(Some([])),
            v.coauthors.Or(Some([])), v.isSponsored.Or(false), v.sponsorUsers.Or(Some([])),
            v.createdAt.Or(now))
  }

  /** The row a scrape-log insert creates at time `now`: `scrapedAt` defaults
      to `now`, the error message to null. */
  function NewScrapeLog(v: ScrapeLogValues, now: int): (r: ScrapeLogRow)
    ensures r.id == v.id && r.influencerId == v.influencerId
    ensures r.dateFrom == v.dateFrom && r.dateTo == v.dateTo && r.postsCount == v.postsCount && r.status == v.status
    ensures v.scrapedAt.Omitted? ==> r.scrapedAt == now
    ensures v.errorMessage.Omitted? ==> r.errorMessage == None
    ensures v.scrapedAt.Given? ==> r.scrapedAt == v.scrapedAt.value
    ensures v.errorMessage.Given? ==> r.errorMessage == v.errorMessage.value
  {
    ScrapeLogRow(v.id, v.influencerId, v.scrapedAt.Or(now), v.dateFrom, v.dateTo, v.postsCount,
                 v.status, v.errorMessage.Or(None))
  }

  // ---------------------------------------------------------------------------
  // Cascade delete
  // ---------------------------------------------------------------------------

  /** Deleting an influencer deletes, through `onDelete: "cascade"`, every
      post and scrape log that references it; nothing else changes. */
  function DeleteInfluencer(t: Tables, id: string): (r: Tables)
    ensures r.influencers == t.influencers - {id}
    ensures forall k :: k in r.posts <==> k in t.posts && t.posts[k].influencerId != id
    ensures forall k :: k in r.scrapeLogs <==> k in t.scrapeLogs && t.scrapeLogs[k].influencerId != id
    ensures forall k :: k in r.posts ==> r.posts[k] == t.posts[k]
    ensures forall k :: k in r.scrapeLogs ==> r.scrapeLogs[k] == t.scrapeLogs[k]
  {
    Tables(
      t.influencers - {id},
      map k | k in t.posts && t.posts[k].influencerId != id :: t.posts[k],
      map k | k in t.scrapeLogs && t.scrapeLogs[k].influencerId != id :: t.scrapeLogs[k])
  }

  /** The cascade keeps every constraint: no post or log is left dangling. */
  lemma DeleteKeepsConsistent(t: Tables, id: string)
    requires Consistent(t)
    ensures Consistent(DeleteInfluencer(t, id))
    ensures forall k :: k in DeleteInfluencer(t, id).posts ==> DeleteInfluencer(t, id).posts[k].influencerId != id
  {
    var r := DeleteInfluencer(t, id);
    assert ForeignKeys(r) by {
      forall k | k in r.posts ensures r.posts[k].influencerId in r.influencers {
        assert r.posts[k] == t.posts[k];
      }
      forall k | k in r.scrapeLogs ensures r.scrapeLogs[k].influencerId in r.influencers {
        assert r.scrapeLogs[k] == t.scrapeLogs[k];
      }
    }
  }
}
