/** The influencer list page: the case-insensitive search over username and
    full name, and the numeric sort the user picks. */
module InfluencerList {
  import opened Common

  /** The fields of a listed influencer the page filters and sorts by. */
  datatype ListedInfluencer = ListedInfluencer(
    id: string,
    username: string,
    fullName: string,
    followers: int,
    postsCount: int)

  /** The numeric sort options; the name sort (`localeCompare`) is not part
      of this model. */
  datatype SortOption = FollowersDesc | FollowersAsc | PostsDesc | PostsAsc

  /** The page opens sorted by followers, most first. */
  const InitialSort := FollowersDesc

  // ---------------------------------------------------------------------------
  // Search
  // ---------------------------------------------------------------------------

  /** The filter predicate: the lower-cased username or full name contains
      the lower-cased search text. */
  predicate Matches(inf: ListedInfluencer, search: string) {
    Contains(ToLower(inf.username), ToLower(search)) || Contains(ToLower(inf.fullName), ToLower(search))
  }

  /** The influencers the search keeps, in order; no data yet gives nothing. */
  function SearchFilter(data: Option<seq<ListedInfluencer>>, search: string): (r: seq<ListedInfluencer>)
    ensures data.None? ==> r == []
    ensures data.Some? ==> IsSubsequence(r, data.value)
    ensures forall i :: 0 <= i < |r| ==> Matches(r[i], search)
    ensures data.Some? ==> forall x :: x in data.value && Matches(x, search) ==> x in r
  {
    if data.None? then [] else FilterMatching(data.value, search)
  }

  function FilterMatching(xs: seq<ListedInfluencer>, search: string): (r: seq<ListedInfluencer>)
    ensures IsSubsequence(r, xs)
    ensures forall i :: 0 <= i < |r| ==> Matches(r[i], search)
    ensures forall x :: x in xs && Matches(x, search) ==> x in r
  {
    if xs == [] then []
    else
      var rest := FilterMatching(xs[1..], search);
      if Matches(xs[0], search) then [xs[0]] + rest else rest
  }

  /** An empty search keeps every influencer. */
  lemma {:induction false} EmptySearchKeepsAll(xs: seq<ListedInfluencer>)
    ensures FilterMatching(xs, "") == xs
  {
    if xs != [] {
      ContainsEmpty(ToLower(xs[0].username));
      EmptySearchKeepsAll(xs[1..]);
      assert [xs[0]] + xs[1..] == xs;
    }
  }

  /** The search ignores the letter case of the search text. */
  lemma SearchIgnoresCase(x: ListedInfluencer, search: string)
    ensures Matches(x, search) <==> Matches(x, ToLower(search))
  {
    assert ToLower(ToLower(search)) == ToLower(search);
  }

  // ---------------------------------------------------------------------------
  // Sort
  // ---------------------------------------------------------------------------

  /** The comparator `(a, b) => ...` as a sort key: the comparator puts `a`
      first when its key is smaller. */
  function Key(option: SortOption, x: ListedInfluencer): int {
    match option
    case FollowersDesc => -x.followers
    case FollowersAsc => x.followers
    case PostsDesc => -x.postsCount
    case PostsAsc => x.postsCount
  }

  /** `a` may come before `b` under the option, stated on the fields. */
  predicate InOrder(option: SortOption, a: ListedInfluencer, b: ListedInfluencer) {
    match option
    case FollowersDesc => a.followers >= b.followers
    case FollowersAsc => a.followers <= b.followers
    case PostsDesc => a.postsCount >= b.postsCount
    case PostsAsc => a.postsCount <= b.postsCount
  }

  predicate SortedBy(s: seq<ListedInfluencer>, option: SortOption) {
    forall p, q :: 0 <= p < q < |s| ==> Key(option, s[p]) <= Key(option, s[q])
  }

  /** Ordered by key is ordered by the field the option names, in its direction. */
  lemma SortedMeansInOrder(s: seq<ListedInfluencer>, option: SortOption)
    requires SortedBy(s, option)
    ensures forall p, q :: 0 <= p < q < |s| ==> InOrder(option, s[p], s[q])
  {
    forall p, q | 0 <= p < q < |s| ensures InOrder(option, s[p], s[q]) {
      assert Key(option, s[p]) <= Key(option, s[q]);
    }
  }

  /** The first `n` elements of `a` are in key order. */
  ghost predicate SortedPrefix(a: array<ListedInfluencer>, n: int, option: SortOption)
    requires 0 <= n <= a.Length
    reads a
  {
    forall p, q :: 0 <= p < q < n ==> Key(option, a[p]) <= Key(option, a[q])
  }

  /** `result.sort(...)`: reorders the array in place, by insertion. */
  method SortInPlace(a: array<ListedInfluencer>, option: SortOption)
    modifies a
    ensures SortedBy(a[..], option)
    ensures multiset(a[..]) == multiset(old(a[..]))
  {
    for i := 0 to a.Length
      invariant SortedPrefix(a, i, option)
      invariant multiset(a[..]) == multiset(old(a[..]))
    {
      InsertAt(a, i, option);
    }
  }

  /** Moves `a[i]` left past every element with a larger key, so the first
      `i + 1` elements are in key order. */
  method InsertAt(a: array<ListedInfluencer>, i: int, option: SortOption)
    requires 0 <= i < a.Length && SortedPrefix(a, i, option)
    modifies a
    ensures SortedPrefix(a, i + 1, option)
    ensures multiset(a[..]) == multiset(old(a[..]))
  {
    var j := i;
    while j > 0 && Key(option, a[j - 1]) > Key(option, a[j])
      invariant 0 <= j <= i
      invariant multiset(a[..]) == multiset(old(a[..]))
      invariant forall p, q :: 0 <= p < q <= i && p != j && q != j ==> Key(option, a[p]) <= Key(option, a[q])
      invariant forall q :: j < q <= i ==> Key(option, a[j]) <= Key(option, a[q])
    {
      Swap(a, j);
      j := j - 1;
    }
  }

  method Swap(a: array<ListedInfluencer>, j: int)
    requires 0 < j < a.Length
    modifies a
    ensures a[j - 1] == old(a[j]) && a[j] == old(a[j - 1])
    ensures forall k :: 0 <= k < a.Length && k != j - 1 && k != j ==> a[k] == old(a[k])
    ensures multiset(a[..]) == multiset(old(a[..]))
  {
    a[j - 1], a[j] := a[j], a[j - 1];
  }

  /** `filteredAndSortedInfluencers`: the search result, sorted; sorting
      neither adds nor drops an influencer. */
  method FilteredAndSorted(data: Option<seq<ListedInfluencer>>, search: string, option: SortOption)
    returns (r: seq<ListedInfluencer>)
    ensures multiset(r) == multiset(SearchFilter(data, search))
    ensures forall p, q :: 0 <= p < q < |r| ==> InOrder(option, r[p], r[q])
    ensures forall i :: 0 <= i < |r| ==> Matches(r[i], search)
    ensures data.None? ==> r == []
  {
    var filtered := SearchFilter(data, search);
    if data.None? {
      return [];
    }
    var a := new ListedInfluencer[|filtered|](i requires 0 <= i < |filtered| => filtered[i]);
    assert a[..] == filtered;
    SortInPlace(a, option);
    r := a[..];
    SortedMeansInOrder(r, option);
    forall i | 0 <= i < |r| ensures Matches(r[i], search) {
      assert r[i] in multiset(filtered);
    }
  }
}
