/** The partnership table of an influencer's posts: the summary statistics
    above it, the sponsored/organic status column with its filter, and the
    text the handle columns are searched by. */
module PartnershipTable {
  import opened Common

  /** The fields of a post row the table computes with; a `None` list is a
      SQL NULL. */
  datatype TablePost = TablePost(
    shortcode: string,
    taggedUsers: Option<seq<string>>,
    captionMentions: Option<seq<string>>,
    coauthors: Option<seq<string>>,
    isSponsored: bool)

  datatype Stats = Stats(
    totalPosts: nat,
    uniqueMentions: nat,
    uniqueCoauthors: nat,
    uniqueTagged: nat,
    sponsored: nat)

  /** The three handle columns. */
  datatype HandleColumn = Mentions | Coauthors | Tagged

  function HandlesOf(p: TablePost, c: HandleColumn): Option<seq<string>> {
    match c
    case Mentions => p.captionMentions
    case Coauthors => p.coauthors
    case Tagged => p.taggedUsers
  }

  /** The distinct handles of one list; a null list has none. */
  function ListHandles(list: Option<seq<string>>): set<string> {
    if list.Some? then set x | x in list.value else {}
  }

  /** The distinct handles of a column over all posts. */
  function HandleSet(posts: seq<TablePost>, c: HandleColumn): set<string> {
    if posts == [] then {}
    else HandleSet(posts[..|posts| - 1], c) + ListHandles(HandlesOf(posts[|posts| - 1], c))
  }

  /** The number of sponsored posts. */
  function CountSponsored(posts: seq<TablePost>): nat {
    if posts == [] then 0
    else CountSponsored(posts[..|posts| - 1]) + (if posts[|posts| - 1].isSponsored then 1 else 0)
  }

  // ---------------------------------------------------------------------------
  // The `stats` block
  // ---------------------------------------------------------------------------

  /** `for (const m of list) set.add(m)`. */
  method AddAll(s: set<string>, list: seq<string>) returns (r: set<string>)
    ensures r == s + set x | x in list
  {
    r := s;
    for i := 0 to |list|
      invariant r == s + set x | x in list[..i]
    {
      assert list[..i + 1] == list[..i] + [list[i]];
      r := r + {list[i]};
    }
    assert list[..|list|] == list;
  }

  /** One pass over the posts, adding each non-null list to its set and
      counting sponsored posts. */
  method ComputeStats(posts: seq<TablePost>) returns (stats: Stats)
    ensures stats.totalPosts == |posts|
    ensures stats.uniqueMentions == |HandleSet(posts, Mentions)|
    ensures stats.uniqueCoauthors == |HandleSet(posts, Coauthors)|
    ensures stats.uniqueTagged == |HandleSet(posts, Tagged)|
    ensures stats.sponsored == CountSponsored(posts)
  {
    var mentions: set<string> := {};
    var coauthors: set<string> := {};
    var tagged: set<string> := {};
    var sponsored := 0;
    for i := 0 to |posts|
      invariant mentions == HandleSet(posts[..i], Mentions)
      invariant coauthors == HandleSet(posts[..i], Coauthors)
      invariant tagged == HandleSet(posts[..i], Tagged)
      invariant sponsored == CountSponsored(posts[..i])
    {
      var post := posts[i];
      assert posts[..i + 1][..i] == posts[..i] && posts[..i + 1][i] == post;
      if post.captionMentions.Some? {
        mentions := AddAll(mentions, post.captionMentions.value);
      }
      if post.coauthors.Some? {
        coauthors := AddAll(coauthors, post.coauthors.value);
      }
      if post.taggedUsers.Some? {
        tagged := AddAll(tagged, post.taggedUsers.value);
      }
      if post.isSponsored {
        sponsored := sponsored + 1;
      }
    }
    assert posts[..|posts|] == posts;
    stats := Stats(|posts|, |mentions|, |coauthors|, |tagged|, sponsored);
  }

  /** A handle is counted iff it occurs in the column's list of some post. */
  lemma {:induction false} HandleSetMembers(posts: seq<TablePost>, c: HandleColumn, x: string)
    ensures x in HandleSet(posts, c) <==>
      exists i :: 0 <= i < |posts| && HandlesOf(posts[i], c).Some? && x in HandlesOf(posts[i], c).value
  {
    if posts != [] {
      var front := posts[..|posts| - 1];
      HandleSetMembers(front, c, x);
      assert forall i :: 0 <= i < |front| ==> front[i] == posts[i];
      if x in HandleSet(front, c) {
        var i :| 0 <= i < |front| && HandlesOf(front[i], c).Some? && x in HandlesOf(front[i], c).value;
        assert posts[i] == front[i];
      }
    }
  }

  /** Duplicates count once: the distinct handles are never more than the
      handles listed. */
  lemma {:induction false} HandleSetBound(posts: seq<TablePost>, c: HandleColumn)
    ensures |HandleSet(posts, c)| <= ListedCount(posts, c)
  {
    if posts != [] {
      var front := posts[..|posts| - 1];
      HandleSetBound(front, c);
      var list := HandlesOf(posts[|posts| - 1], c);
      if list.Some? {
        DistinctAtMostLength(list.value);
      }
    }
  }

  /** The number of handles listed in a column, duplicates included. */
  function ListedCount(posts: seq<TablePost>, c: HandleColumn): nat {
    if posts == [] then 0
    else
      var list := HandlesOf(posts[|posts| - 1], c);
      ListedCount(posts[..|posts| - 1], c) + (if list.Some? then |list.value| else 0)
  }

  lemma {:induction false} DistinctAtMostLength(xs: seq<string>)
    ensures |set x | x in xs| <= |xs|
  {
    if xs != [] {
      DistinctAtMostLength(xs[1..]);
      assert (set x | x in xs) == (set x | x in xs[1..]) + {xs[0]};
    }
  }

  /** The sponsored count never exceeds the number of posts. */
  lemma {:induction false} SponsoredAtMostTotal(posts: seq<TablePost>)
    ensures CountSponsored(posts) <= |posts|
    ensures CountSponsored(posts) == |posts| <==> forall i :: 0 <= i < |posts| ==> posts[i].isSponsored
  {
    if posts != [] {
      var front := posts[..|posts| - 1];
      SponsoredAtMostTotal(front);
      assert forall i :: 0 <= i < |front| ==> front[i] == posts[i];
    }
  }

  // ---------------------------------------------------------------------------
  // The status column and its filter
  // ---------------------------------------------------------------------------

  /** The status column's value. */
  function Status(p: TablePost): (s: string)
    ensures s == "sponsored" <==> p.isSponsored
    ensures s == "organic" <==> !p.isSponsored
  {
    if p.isSponsored then "sponsored" else "organic"
  }

  /** The column's `filterFn`: an absent or empty value, or "all", accepts
      every row; any other value accepts the rows whose status equals it. */
  predicate AcceptsStatus(p: TablePost, value: Option<string>) {
    !Truthy(value) || value.value == "all" || Status(p) == value.value
  }

  /** The rows the status filter keeps, in order. */
  function FilterByStatus(posts: seq<TablePost>, value: Option<string>): (r: seq<TablePost>)
    ensures IsSubsequence(r, posts)
    ensures forall i :: 0 <= i < |r| ==> AcceptsStatus(r[i], value)
    ensures forall p :: p in posts && AcceptsStatus(p, value) ==> p in r
    ensures |r| <= |posts|
  {
    if posts == [] then []
    else
      var rest := FilterByStatus(posts[1..], value);
      if AcceptsStatus(posts[0], value) then [posts[0]] + rest else rest
  }

  /** Filtering on "sponsored" keeps exactly the sponsored rows: as many as
      the sponsored count. */
  lemma {:induction false} FilterSponsoredCount(posts: seq<TablePost>)
    ensures |FilterByStatus(posts, Some("sponsored"))| == CountSponsored(posts)
  {
    if posts != [] {
      FilterSponsoredCount(posts[1..]);
      CountSponsoredFront(posts);
      assert AcceptsStatus(posts[0], Some("sponsored")) <==> posts[0].isSponsored;
    }
  }

  /** Filtering on "organic" keeps the other rows. */
  lemma {:induction false} FilterOrganicCount(posts: seq<TablePost>)
    ensures |FilterByStatus(posts, Some("organic"))| == |posts| - CountSponsored(posts)
  {
    SponsoredAtMostTotal(posts);
    if posts != [] {
      FilterOrganicCount(posts[1..]);
      SponsoredAtMostTotal(posts[1..]);
      CountSponsoredFront(posts);
      assert AcceptsStatus(posts[0], Some("organic")) <==> !posts[0].isSponsored;
    }
  }

  /** No value, the empty value or "all" keeps every row. */
  lemma {:induction false} FilterAcceptsAll(posts: seq<TablePost>, value: Option<string>)
    requires !Truthy(value) || value.value == "all"
    ensures FilterByStatus(posts, value) == posts
  {
    if posts != [] {
      FilterAcceptsAll(posts[1..], value);
      assert [posts[0]] + posts[1..] == posts;
    }
  }

  /** The sponsored count, peeled from the front. */
  lemma CountSponsoredFront(posts: seq<TablePost>)
    requires posts != []
    ensures CountSponsored(posts) == (if posts[0].isSponsored then 1 else 0) + CountSponsored(posts[1..])
    decreases |posts|
  {
    if |posts| > 1 {
      var front := posts[..|posts| - 1];
      CountSponsoredFront(front);
      assert front[1..] == posts[1..][..|posts[1..]| - 1];
    }
  }

  // ---------------------------------------------------------------------------
  // Search text of the handle columns
  // ---------------------------------------------------------------------------

  /** `list?.join(" ") ?? ""`: the text a handle column is searched by. */
  function SearchText(list: Option<seq<string>>): (r: string)
    ensures list.None? ==> r == ""
    ensures list.Some? ==> forall i :: 0 <= i < |list.value| ==> Contains(r, list.value[i])
  {
    if list.Some? then Join(list.value, " ") else ""
  }
}
