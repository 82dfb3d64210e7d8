/** The three writes the scrape mutation issues, with SQLite's semantics for
    them: an upsert on the unique username, an insert that ignores key
    conflicts, and a plain insert. A write either applies or is refused with the
    constraint it would break; a refused write changes nothing. */
module Store {
  import opened Common
  import opened Schema

  datatype Violation =
    | PrimaryKey(table: string, id: string)
    | ForeignKey(table: string, influencerId: string)

  datatype WriteResult = Applied(tables: Tables) | Refused(violation: Violation)

  /** The key of the influencer row holding `username`. */
  ghost function KeyOfUsername(t: Tables, username: string): (k: string)
    requires HasUsername(t, username)
    ensures k in t.influencers && t.influencers[k].username == username
  {
    var k :| k in t.influencers && t.influencers[k].username == username; k
  }

  /** The `set` clause of `onConflictDoUpdate`: every mutable profile field
      and `updatedAt`; id, username and `createdAt` are kept. */
  datatype InfluencerUpdate = InfluencerUpdate(
    fullName: string,
    bio: Option<string>,
    followers: int,
    following: int,
    postsCount: int,
    profilePicUrl: Option<string>,
    isVerified: bool,
    isBusiness: bool,
    updatedAt: int)

  function ApplyUpdate(row: InfluencerRow, u: InfluencerUpdate): (r: InfluencerRow)
    ensures r.id == row.id && r.username == row.username && r.createdAt == row.createdAt
    ensures r.fullName == u.fullName && r.bio == u.bio && r.profilePicUrl == u.profilePicUrl
    ensures r.followers == u.followers && r.following == u.following && r.postsCount == u.postsCount
    ensures r.isVerified == u.isVerified && r.isBusiness == u.isBusiness && r.updatedAt == u.updatedAt
  {
    row.(fullName := u.fullName, bio := u.bio, followers := u.followers, following := u.following,
         postsCount := u.postsCount, profilePicUrl := u.profilePicUrl, isVerified := u.isVerified,
         isBusiness := u.isBusiness, updatedAt := u.updatedAt)
  }

  /** `insert(influencer).values(v).onConflictDoUpdate({target: username, set: u})`:
      the row already holding the username is updated in place; otherwise the
      new row is inserted, unless its id is taken (a conflict the target does
      not cover, so the statement fails). */
  function UpsertResult(t: Tables, v: InfluencerValues, u: InfluencerUpdate, now: int): WriteResult {
    if HasUsername(t, v.username) then
      Applied(t.(influencers := map k | k in t.influencers ::
        if t.influencers[k].username == v.username then ApplyUpdate(t.influencers[k], u) else t.influencers[k]))
    else if v.id in t.influencers then Refused(PrimaryKey("influencer", v.id))
    else Applied(t.(influencers := t.influencers[v.id := NewInfluencer(v, now)]))
  }

  /** `insert(post).values(v).onConflictDoNothing()`: a post whose id or
      shortcode is taken is skipped; otherwise the foreign key must hold. */
  function InsertPostResult(t: Tables, v: PostValues, now: int): WriteResult {
    if v.id in t.posts || HasShortcode(t, v.shortcode) then Applied(t)
    else if v.influencerId !in t.influencers then Refused(ForeignKey("post", v.influencerId))
    else Applied(t.(posts := t.posts[v.id := NewPost(v, now)]))
  }

  /** `insert(scrapeLog).values(v)`: fails on a taken id or a missing influencer. */
  function InsertScrapeLogResult(t: Tables, v: ScrapeLogValues, now: int): WriteResult {
    if v.id in t.scrapeLogs then Refused(PrimaryKey("scrape_log", v.id))
    else if v.influencerId !in t.influencers then Refused(ForeignKey("scrape_log", v.influencerId))
    else Applied(t.(scrapeLogs := t.scrapeLogs[v.id := NewScrapeLog(v, now)]))
  }

  // ---------------------------------------------------------------------------
  // The database connection
  // ---------------------------------------------------------------------------

  /** The database the mutation writes to. */
  class Database {
    var tables: Tables

    constructor (t: Tables)
      ensures tables == t
    {
      tables := t;
    }

    method Upsert(v: InfluencerValues, u: InfluencerUpdate, now: int) returns (error: Option<Violation>)
      modifies this
      ensures UpsertResult(old(tables), v, u, now).Applied? ==> error.None? && tables == UpsertResult(old(tables), v, u, now).tables
      ensures UpsertResult(old(tables), v, u, now).Refused? ==> error == Some(UpsertResult(old(tables), v, u, now).violation) && tables == old(tables)
    {
      var r := UpsertResult(tables, v, u, now);
      if r.Applied? {
        tables := r.tables;
        error := None;
      } else {
        error := Some(r.violation);
      }
    }

    method InsertPostOrSkip(v: PostValues, now: int) returns (error: Option<Violation>)
      modifies this
      ensures InsertPostResult(old(tables), v, now).Applied? ==> error.None? && tables == InsertPostResult(old(tables), v, now).tables
      ensures InsertPostResult(old(tables), v, now).Refused? ==> error == Some(InsertPostResult(old(tables), v, now).violation) && tables == old(tables)
    {
      var r := InsertPostResult(tables, v, now);
      if r.Applied? {
        tables := r.tables;
        error := None;
      } else {
        error := Some(r.violation);
      }
    }

    method InsertScrapeLog(v: ScrapeLogValues, now: int) returns (error: Option<Violation>)
      modifies this
      ensures InsertScrapeLogResult(old(tables), v, now).Applied? ==> error.None? && tables == InsertScrapeLogResult(old(tables), v, now).tables
      ensures InsertScrapeLogResult(old(tables), v, now).Refused? ==> error == Some(InsertScrapeLogResult(old(tables), v, now).violation) && tables == old(tables)
    {
      var r := InsertScrapeLogResult(tables, v, now);
      if r.Applied? {
        tables := r.tables;
        error := None;
      } else {
        error := Some(r.violation);
      }
    }
  }

  // ---------------------------------------------------------------------------
  // Properties of the writes
  // ---------------------------------------------------------------------------

  /** An applied upsert leaves exactly one row with the username. If one
      existed, it keeps its id and creation time and takes the new field values;
      otherwise the new row is stored under its own id. The constraints hold
      afterwards, and no other row changes. */
  lemma UpsertByUsername(t: Tables, v: InfluencerValues, u: InfluencerUpdate, now: int)
    requires Consistent(t)
    ensures UpsertResult(t, v, u, now).Applied? ==>
      var r := UpsertResult(t, v, u, now).tables;
      Consistent(r) && HasUsername(r, v.username) && r.posts == t.posts && r.scrapeLogs == t.scrapeLogs &&
      (HasUsername(t, v.username) ==>
        var k := KeyOfUsername(t, v.username);
        r.influencers.Keys == t.influencers.Keys && r.influencers[k] == ApplyUpdate(t.influencers[k], u)) &&
      (!HasUsername(t, v.username) ==> r.influencers == t.influencers[v.id := NewInfluencer(v, now)])
    ensures UpsertResult(t, v, u, now).Refused? <==> !HasUsername(t, v.username) && v.id in t.influencers
  {
    if HasUsername(t, v.username) {
      UpsertExisting(t, v, u, now);
    } else if v.id !in t.influencers {
      UpsertNew(t, v, now);
    }
  }

  /** The update branch of the upsert: every row keeps its username. */
  lemma UpsertExisting(t: Tables, v: InfluencerValues, u: InfluencerUpdate, now: int)
    requires Consistent(t) && HasUsername(t, v.username)
    ensures var r := UpsertResult(t, v, u, now).tables;
      Consistent(r) && HasUsername(r, v.username) && r.posts == t.posts && r.scrapeLogs == t.scrapeLogs &&
      r.influencers.Keys == t.influencers.Keys &&
      r.influencers[KeyOfUsername(t, v.username)] == ApplyUpdate(t.influencers[KeyOfUsername(t, v.username)], u)
  {
    var r := UpsertResult(t, v, u, now).tables;
    var k := KeyOfUsername(t, v.username);
    assert forall a :: a in r.influencers ==>
      r.influencers[a].username == t.influencers[a].username && r.influencers[a].id == t.influencers[a].id;
    assert r.influencers[k].username == v.username;
  }

  /** The insert branch of the upsert: a fresh row under a free id. */
  lemma UpsertNew(t: Tables, v: InfluencerValues, now: int)
    requires Consistent(t) && !HasUsername(t, v.username) && v.id !in t.influencers
    ensures forall u :: var r := UpsertResult(t, v, u, now).tables;
      Consistent(r) && HasUsername(r, v.username) && r.posts == t.posts && r.scrapeLogs == t.scrapeLogs &&
      r.influencers == t.influencers[v.id := NewInfluencer(v, now)]
  {
    var r := t.(influencers := t.influencers[v.id := NewInfluencer(v, now)]);
    assert r.influencers[v.id].username == v.username;
    assert UniqueUsernames(r) by {
      forall a, b | a in r.influencers && b in r.influencers && r.influencers[a].username == r.influencers[b].username
        ensures a == b
      {
        if a != v.id && b != v.id {
          assert r.influencers[a] == t.influencers[a] && r.influencers[b] == t.influencers[b];
        }
      }
    }
    assert Consistent(r);
  }

  /** Insert-or-skip is idempotent: the second insert of the same post changes
      nothing, and an existing post is never overwritten. */
  lemma InsertPostIdempotent(t: Tables, v: PostValues, now: int, later: int)
    requires InsertPostResult(t, v, now).Applied?
    ensures InsertPostResult(InsertPostResult(t, v, now).tables, v, later) == InsertPostResult(t, v, now)
  {
  }

  /** An applied insert-or-skip keeps every constraint, leaves every existing
      post as it was, and afterwards the shortcode is present. */
  lemma InsertPostKeepsConsistent(t: Tables, v: PostValues, now: int)
    requires Consistent(t)
    ensures InsertPostResult(t, v, now).Applied? ==>
      var r := InsertPostResult(t, v, now).tables;
      Consistent(r) && (HasShortcode(r, v.shortcode) || (v.id in t.posts && r == t))
    ensures InsertPostResult(t, v, now).Applied? ==>
      var r := InsertPostResult(t, v, now).tables;
      r.influencers == t.influencers && r.scrapeLogs == t.scrapeLogs &&
      forall k :: k in t.posts ==> k in r.posts && r.posts[k] == t.posts[k]
    ensures InsertPostResult(t, v, now).Refused? <==>
      v.id !in t.posts && !HasShortcode(t, v.shortcode) && v.influencerId !in t.influencers
  {
    var res := InsertPostResult(t, v, now);
    if res.Applied? && !(v.id in t.posts || HasShortcode(t, v.shortcode)) {
      var r := res.tables;
      assert r.posts[v.id].shortcode == v.shortcode;
      assert UniqueShortcodes(r) by {
        forall a, b | a in r.posts && b in r.posts && r.posts[a].shortcode == r.posts[b].shortcode
          ensures a == b
        {
          if a != v.id && b != v.id {
            assert r.posts[a] == t.posts[a] && r.posts[b] == t.posts[b];
          }
        }
      }
    }
  }

  /** An applied log insert adds exactly the new row and keeps every constraint. */
  lemma InsertScrapeLogKeepsConsistent(t: Tables, v: ScrapeLogValues, now: int)
    requires Consistent(t)
    ensures InsertScrapeLogResult(t, v, now).Applied? ==>
      var r := InsertScrapeLogResult(t, v, now).tables;
      Consistent(r) && r.scrapeLogs == t.scrapeLogs[v.id := NewScrapeLog(v, now)] &&
      r.influencers == t.influencers && r.posts == t.posts
    ensures InsertScrapeLogResult(t, v, now).Refused? <==> v.id in t.scrapeLogs || v.influencerId !in t.influencers
  {
  }
}
