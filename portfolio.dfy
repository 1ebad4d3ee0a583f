/**
 * The portfolio section: the project list, the three tabs with their
 * counts, filtering by tab, and showing the projects three at a time with a
 * visible count kept per tab.
 */
module Portfolio {
  import opened JsValue

  datatype Category = Websites | Graphics

  /** A tab shows every project or the projects of one category. */
  datatype Tab = All | Only(category: Category)

  datatype Project = Project(id: nat, title: string, category: Category, url: Option<string>)

  const Projects: seq<Project> := [
    Project(1, "Restauracja Bella Vista", Websites, Some("https://bellavista-restaurant.com")),
    Project(2, "Studio Fotograficzne", Websites, Some("https://studio-photo.com")),
    Project(3, "Firma Prawnicza", Websites, Some("https://prawnik-warszawa.com")),
    Project(4, "E-commerce Fashion", Websites, Some("https://fashion-store.com")),
    Project(5, "Logo TechStart", Graphics, None),
    Project(6, "Branding Kawiarni", Graphics, None),
    Project(7, "Wizytówki Lekarza", Graphics, None),
    Project(8, "Plakat Koncertowy", Graphics, None),
    Project(9, "Logo & Branding Fit", Graphics, None)
  ]

  /** How many more projects each "load more" reveals. */
  const ItemsPerLoad: int := 3

  /** `projects.filter(p => p.category === c)`. */
  function FilterCategory(ps: seq<Project>, c: Category): (r: seq<Project>)
    ensures |r| <= |ps|
    ensures forall i :: 0 <= i < |r| ==> r[i].category == c
  {
    if ps == [] then []
    else if ps[0].category == c then [ps[0]] + FilterCategory(ps[1..], c)
    else FilterCategory(ps[1..], c)
  }

  /** Filtering a concatenation filters each part: the filter keeps the original order. */
  lemma {:induction false} FilterCategoryAppend(a: seq<Project>, b: seq<Project>, c: Category)
    ensures FilterCategory(a + b, c) == FilterCategory(a, c) + FilterCategory(b, c)
  {
    if a == [] {
      assert a + b == b;
    } else {
      assert (a + b)[0] == a[0];
      assert (a + b)[1..] == a[1..] + b;
      FilterCategoryAppend(a[1..], b, c);
      var x, y := FilterCategory(a[1..], c), FilterCategory(b, c);
      if a[0].category == c {
        assert FilterCategory(a + b, c) == [a[0]] + (x + y);
        assert [a[0]] + (x + y) == ([a[0]] + x) + y;
      } else {
        assert FilterCategory(a + b, c) == x + y;
      }
    }
  }

  /** Every project with category c is kept, each as often as it occurs; no other project is. */
  lemma {:induction false} FilterCategoryCounts(ps: seq<Project>, c: Category, p: Project)
    ensures multiset(FilterCategory(ps, c))[p] == if p.category == c then multiset(ps)[p] else 0
  {
    if ps != [] {
      assert ps == [ps[0]] + ps[1..];
      FilterCategoryCounts(ps[1..], c, p);
    }
  }

  /** A list of one category passes the filter for it whole. */
  lemma {:induction false} FilterKeepsAll(ps: seq<Project>, c: Category)
    requires forall i :: 0 <= i < |ps| ==> ps[i].category == c
    ensures FilterCategory(ps, c) == ps
  {
    if ps != [] {
      assert ps[1..] + [] == ps[1..];
      FilterKeepsAll(ps[1..], c);
      assert [ps[0]] + ps[1..] == ps;
    }
  }

  /** A list without category c filters to nothing. */
  lemma {:induction false} FilterDropsAll(ps: seq<Project>, c: Category)
    requires forall i :: 0 <= i < |ps| ==> ps[i].category != c
    ensures FilterCategory(ps, c) == []
  {
    if ps != [] {
      FilterDropsAll(ps[1..], c);
    }
  }

  /** allFilteredProjects for a tab. */
  function FilteredProjects(tab: Tab): (r: seq<Project>)
    ensures |r| <= |Projects|
    ensures tab.Only? ==> forall i :: 0 <= i < |r| ==> r[i].category == tab.category
  {
    if tab == All then Projects else FilterCategory(Projects, tab.category)
  }

  /** A tab of the switcher; its badge count is TabCount. */
  datatype TabInfo = TabInfo(id: Tab, title: string)

  const Tabs: seq<TabInfo> := [
    TabInfo(All, "Wszystkie"),
    TabInfo(Only(Websites), "Strony internetowe"),
    TabInfo(Only(Graphics), "Grafika")
  ]

  /** The badge count of a tab: the length of the project list filtered for it. */
  function TabCount(tab: TabInfo): (r: nat)
    ensures r <= |Projects|
    ensures tab.id == All ==> r == |Projects|
  {
    |FilteredProjects(tab.id)|
  }

  /** Projects 1-4 are websites. */
  lemma FirstFourAreWebsites()
    ensures |Projects| == 9
    ensures forall i :: 0 <= i < 4 ==> Projects[i].category == Websites
  {
  }

  /** Projects 5-9 are graphics. */
  lemma LastFiveAreGraphics()
    ensures |Projects| == 9
    ensures forall i :: 4 <= i < |Projects| ==> Projects[i].category == Graphics
  {
  }

  /** A list whose first n projects are of category c and the rest are not filters to those n. */
  lemma FilterSplitPrefix(ps: seq<Project>, n: nat, c: Category)
    requires n <= |ps|
    requires forall i :: 0 <= i < n ==> ps[i].category == c
    requires forall i :: n <= i < |ps| ==> ps[i].category != c
    ensures FilterCategory(ps, c) == ps[..n]
  {
    assert ps == ps[..n] + ps[n..];
    FilterCategoryAppend(ps[..n], ps[n..], c);
    FilterKeepsAll(ps[..n], c);
    FilterDropsAll(ps[n..], c);
  }

  /** A list whose first n projects are not of category c and the rest are filters to the rest. */
  lemma FilterSplitSuffix(ps: seq<Project>, n: nat, c: Category)
    requires n <= |ps|
    requires forall i :: 0 <= i < n ==> ps[i].category != c
    requires forall i :: n <= i < |ps| ==> ps[i].category == c
    ensures FilterCategory(ps, c) == ps[n..]
  {
    assert ps == ps[..n] + ps[n..];
    FilterCategoryAppend(ps[..n], ps[n..], c);
    FilterDropsAll(ps[..n], c);
    FilterKeepsAll(ps[n..], c);
  }

  /** The websites tab lists the first four projects. */
  lemma WebsitesProjects()
    ensures FilterCategory(Projects, Websites) == Projects[..4]
  {
    FirstFourAreWebsites();
    LastFiveAreGraphics();
    FilterSplitPrefix(Projects, 4, Websites);
  }

  /** The graphics tab lists the last five projects. */
  lemma GraphicsProjects()
    ensures FilterCategory(Projects, Graphics) == Projects[4..]
  {
    FirstFourAreWebsites();
    LastFiveAreGraphics();
    FilterSplitSuffix(Projects, 4, Graphics);
  }

  /** The websites tab holds four projects. */
  lemma WebsitesLength()
    ensures |FilteredProjects(Only(Websites))| == 4
  {
    WebsitesProjects();
  }

  /** The graphics tab holds five projects. */
  lemma GraphicsLength()
    ensures |FilteredProjects(Only(Graphics))| == 5
  {
    GraphicsProjects();
  }

  /** Each tab's badge is the length of its list: 9, 4 and 5. */
  lemma TabCounts()
    ensures Tabs[0].id == All && TabCount(Tabs[0]) == 9
    ensures Tabs[1].id == Only(Websites) && TabCount(Tabs[1]) == 4
    ensures Tabs[2].id == Only(Graphics) && TabCount(Tabs[2]) == 5
  {
    WebsitesLength();
    GraphicsLength();
  }

  /** Every tab holds more than one page of projects. */
  lemma MoreThanOnePage(t: Tab)
    ensures |FilteredProjects(t)| > ItemsPerLoad
  {
    match t
    case All =>
    case Only(Websites) => WebsitesLength();
    case Only(Graphics) => GraphicsLength();
  }

  /** `s.slice(0, end)`: a negative end counts from the back, an end past the length clamps. */
  function SliceFromStart(s: seq<Project>, end: int): (r: seq<Project>)
    ensures |r| <= |s|
    ensures 0 <= end ==> |r| == if end < |s| then end else |s|
    ensures r == s[..|r|]
  {
    if end < 0 then s[..if |s| + end < 0 then 0 else |s| + end]
    else if end < |s| then s[..end] else s
  }

  /** Math.min as loadMoreProjects uses it. */
  function Min(a: int, b: int): int
  {
    if a <= b then a else b
  }

  /** The new visible count after one "load more" on a list of `total` projects. */
  function NextVisibleCount(count: int, total: int): (r: int)
    ensures r <= total && r <= count + ItemsPerLoad
    ensures r == total || r == count + ItemsPerLoad
    ensures count <= total ==> count <= r
    ensures count == total ==> r == total
  {
    Min(count + ItemsPerLoad, total)
  }

  /** `k` "load more" clicks in a row. */
  function LoadMoreTimes(count: int, total: int, k: nat): int
    decreases k
  {
    if k == 0 then count else LoadMoreTimes(NextVisibleCount(count, total), total, k - 1)
  }

  /** Clicking enough times reaches the whole list, and stays there. */
  lemma {:induction false} LoadMoreReachesTotal(count: int, total: int, k: nat)
    requires count <= total
    requires k * ItemsPerLoad >= total - count
    ensures LoadMoreTimes(count, total, k) == total
    decreases k
  {
    if k > 0 {
      LoadMoreReachesTotal(NextVisibleCount(count, total), total, k - 1);
    }
  }

  /** Repeated clicks never lower the count and never pass the total. */
  lemma {:induction false} LoadMoreMonotone(count: int, total: int, k: nat)
    requires count <= total
    ensures count <= LoadMoreTimes(count, total, k) <= total
    decreases k
  {
    if k > 0 {
      LoadMoreMonotone(NextVisibleCount(count, total), total, k - 1);
    }
  }

  /** The "view site" action is rendered for websites projects with a url. */
  predicate ShowsSiteLink(p: Project)
    ensures ShowsSiteLink(p) <==> p.category == Websites && p.url.Some? && Truthy(JString(p.url.value))
  {
    p.category == Websites && p.url.Some? && p.url.value != ""
  }

  /** Exactly the four websites projects carry the "view site" action. */
  lemma SiteLinks()
    ensures forall i :: 0 <= i < |Projects| ==> (ShowsSiteLink(Projects[i]) <==> i < 4)
  {
  }

  class PortfolioSection {
    var activeTab: Tab
    var isDropdownOpen: bool
    var visibleCount: map<Tab, int>

    /** Every tab has a count between the first page and its total. */
    ghost predicate Valid()
      reads this
    {
      forall t: Tab :: t in visibleCount && ItemsPerLoad <= visibleCount[t] <= |FilteredProjects(t)|
    }

    constructor ()
      ensures Valid()
      ensures activeTab == All && !isDropdownOpen
      ensures visibleCount == map[All := 3, Only(Websites) := 3, Only(Graphics) := 3]
    {
      activeTab := All;
      isDropdownOpen := false;
      visibleCount := map[All := 3, Only(Websites) := 3, Only(Graphics) := 3];
      new;
      forall t: Tab ensures t in visibleCount && ItemsPerLoad <= visibleCount[t] <= |FilteredProjects(t)| {
        MoreThanOnePage(t);
      }
    }

    /** `visibleCount[t]`. */
    function CountOf(t: Tab): (r: int)
      reads this
      requires Valid()
      ensures ItemsPerLoad <= r <= |FilteredProjects(t)|
    {
      visibleCount[t]
    }

    /** totalProjects. */
    function TotalProjects(): (r: nat)
      reads this
      ensures r > ItemsPerLoad && r <= |Projects|
      ensures activeTab == All ==> r == |Projects|
    {
      MoreThanOnePage(activeTab);
      |FilteredProjects(activeTab)|
    }

    /** visibleProjects: the first visibleCount[activeTab] projects of the active list. */
    function VisibleProjects(): (r: seq<Project>)
      reads this
      requires Valid()
      ensures r == FilteredProjects(activeTab)[..Min(CountOf(activeTab), TotalProjects())]
      ensures |r| >= ItemsPerLoad
    {
      SliceFromStart(FilteredProjects(activeTab), CountOf(activeTab))
    }

    /** hasMoreProjects. */
    function HasMoreProjects(): (r: bool)
      reads this
      requires Valid()
      ensures r <==> |VisibleProjects()| < TotalProjects()
    {
      TotalProjects() > CountOf(activeTab)
    }

    /** The number shown on the "load more" button. */
    function RemainingProjects(): (r: int)
      reads this
      requires Valid()
      ensures r == TotalProjects() - |VisibleProjects()|
      ensures r > 0 <==> HasMoreProjects()
    {
      TotalProjects() - CountOf(activeTab)
    }

    /** The "load more" area is rendered when the active list is longer than three, which every tab is. */
    function ShowsLoadMoreArea(): (r: bool)
      reads this
      ensures r
    {
      MoreThanOnePage(activeTab);
      TotalProjects() > 3
    }

    /** The empty state is rendered when nothing is visible, which never happens. */
    function ShowsEmptyState(): (r: bool)
      reads this
      requires Valid()
      ensures !r
    {
      |VisibleProjects()| == 0
    }

    /** loadMoreProjects: one page more on the active tab, clamped to its total; other tabs keep theirs. */
    method LoadMoreProjects()
      requires Valid()
      modifies this`visibleCount
      ensures Valid()
      ensures visibleCount == old(visibleCount)[activeTab := NextVisibleCount(old(CountOf(activeTab)), TotalProjects())]
      ensures forall t :: t != activeTab && t in old(visibleCount) ==> t in visibleCount && visibleCount[t] == old(visibleCount)[t]
      ensures old(CountOf(activeTab)) <= CountOf(activeTab) <= TotalProjects()
    {
      var next := NextVisibleCount(CountOf(activeTab), TotalProjects());
      visibleCount := visibleCount[activeTab := next];
      assert CountOf(activeTab) == next;
    }

    /** handleTabChange: switch tab and close the dropdown; the visible counts are kept, not reset. */
    method HandleTabChange(tab: Tab)
      requires Valid()
      modifies this`activeTab, this`isDropdownOpen
      ensures Valid()
      ensures activeTab == tab && !isDropdownOpen
      ensures visibleCount == old(visibleCount)
    {
      activeTab := tab;
      isDropdownOpen := false;
      if CountOf(tab) == 3 {
        return;
      }
    }

    /** The mobile dropdown button flips the dropdown. */
    method ToggleDropdown()
      requires Valid()
      modifies this`isDropdownOpen
      ensures Valid()
      ensures isDropdownOpen == !old(isDropdownOpen)
    {
      isDropdownOpen := !isDropdownOpen;
    }
  }
}
