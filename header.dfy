/** The navigation header: its four items and the predicate that highlights
    the item of the current path. */
module Header {

  /** The `to` paths of the navigation items, in display order. */
  const NavItems: seq<string> := ["/dashboard", "/influencers", "/scrape", "/history"]

  /** `currentPath === to || (to !== "/dashboard" && currentPath.startsWith(to))`. */
  predicate IsActive(currentPath: string, to: string) {
    currentPath == to || (to != "/dashboard" && to <= currentPath)
  }

  /** The items highlighted for a path, in display order. */
  function ActiveItems(currentPath: string): (r: seq<string>)
    ensures forall i :: 0 <= i < |r| ==> r[i] in NavItems && IsActive(currentPath, r[i])
    ensures forall to :: to in NavItems && IsActive(currentPath, to) ==> to in r
  {
    ActiveAmong(NavItems, currentPath)
  }

  function ActiveAmong(items: seq<string>, currentPath: string): (r: seq<string>)
    ensures forall i :: 0 <= i < |r| ==> r[i] in items && IsActive(currentPath, r[i])
    ensures forall to :: to in items && IsActive(currentPath, to) ==> to in r
  {
    if items == [] then []
    else
      var rest := ActiveAmong(items[1..], currentPath);
      if IsActive(currentPath, items[0]) then [items[0]] + rest else rest
  }

  /** Every item is active on its own path. */
  lemma ActiveOnOwnPath(to: string)
    ensures IsActive(to, to)
  {
  }

  /** The dashboard item is active on "/dashboard" and nowhere else, even on
      paths below it. */
  lemma DashboardOnlyExact(currentPath: string)
    ensures IsActive(currentPath, "/dashboard") <==> currentPath == "/dashboard"
  {
  }

  /** Any other item is active exactly on the paths it is a prefix of, so a
      detail page highlights its list's item. */
  lemma OtherItemsByPrefix(currentPath: string, to: string)
    requires to != "/dashboard"
    ensures IsActive(currentPath, to) <==> (|to| <= |currentPath| && currentPath[..|to|] == to)
  {
  }

  /** The prefix test is on characters, not path segments: "/scraper"
      highlights the "/scrape" item, and "/influencers/abc" the
      "/influencers" item. */
  lemma RawPrefixMatch()
    ensures IsActive("/scraper", "/scrape")
    ensures IsActive("/influencers/abc", "/influencers")
    ensures ActiveItems("/influencers/abc") == ["/influencers"]
  {
    assert "/scrape" <= "/scraper";
    assert "/influencers" <= "/influencers/abc";
    assert !IsActive("/influencers/abc", "/dashboard");
    assert !IsActive("/influencers/abc", "/scrape") by {
      assert "/influencers/abc"[1] != "/scrape"[1];
    }
    assert !IsActive("/influencers/abc", "/history") by {
      assert "/influencers/abc"[1] != "/history"[1];
    }
  }

  /** There are four items: dashboard, influencers, scrape, history; no two
      share a path. */
  lemma FourDistinctItems()
    ensures |NavItems| == 4
    ensures NavItems[0] == "/dashboard" && NavItems[1] == "/influencers"
    ensures NavItems[2] == "/scrape" && NavItems[3] == "/history"
    ensures forall i, j :: 0 <= i < j < |NavItems| ==> NavItems[i] != NavItems[j]
  {
  }
}
