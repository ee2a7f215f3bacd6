/** The public projects section over its built-in demo list
    (src/components/Projects.tsx): category tabs that filter by the card's
    position in the list, and "load more" paging. */
module Projects {
  import opened Seqs
  import Pagination

  /** A demo card: the fields of the card type that the filter and paging
      can tell apart (description, image and links are display-only). */
  datatype Card = Card(id: string, title: string, tags: seq<string>, featured: bool)

  /** The six demo projects, in order; the first and the fifth are featured. */
  const DemoProjects: seq<Card> := [
    Card("project-1", "E-Commerce Platform", ["React", "Node.js", "MongoDB", "Stripe"], true),
    Card("project-2", "Task Management App", ["TypeScript", "React", "Express", "PostgreSQL"], false),
    Card("project-3", "Fitness Tracker", ["React Native", "Firebase", "Redux"], false),
    Card("project-4", "Weather Dashboard", ["JavaScript", "OpenWeather API", "Chart.js"], false),
    Card("project-5", "Recipe Sharing Platform", ["Vue.js", "Node.js", "MongoDB"], true),
    Card("project-6", "Portfolio Website", ["React", "Tailwind CSS", "Framer Motion"], false)
  ]

  /** The tabs, in order. */
  const Categories: seq<string> := ["all", "frontend", "backend", "fullstack", "mobile"]

  /** The demo filter's test on the card at position `i`: `all` keeps
      everything, the four named categories keep positions by remainder,
      and any other category keeps everything. */
  predicate KeepAtIndex(category: string, i: nat) {
    if category == "all" then true
    else if category == "frontend" then i % 3 == 0
    else if category == "backend" then i % 3 == 1
    else if category == "fullstack" then i % 2 == 0
    else if category == "mobile" then i % 4 == 3
    else true
  }

  /** `xs.filter((_, index) => ...)` where the first element of `xs` sits at
      position `start` of the whole list. */
  function FilterFrom(xs: seq<Card>, category: string, start: nat): (r: seq<Card>)
    ensures |r| <= |xs|
    decreases |xs|
  {
    if xs == [] then []
    else (if KeepAtIndex(category, start) then [xs[0]] else []) + FilterFrom(xs[1..], category, start + 1)
  }

  /** Exactly the elements whose position passes are kept, and in order. */
  lemma {:induction false} FilterFromKeeps(xs: seq<Card>, category: string, start: nat)
    ensures IsSubsequence(FilterFrom(xs, category, start), xs)
    ensures forall i :: 0 <= i < |xs| && KeepAtIndex(category, start + i) ==> xs[i] in FilterFrom(xs, category, start)
    ensures forall x :: x in FilterFrom(xs, category, start) ==>
      exists i :: 0 <= i < |xs| && KeepAtIndex(category, start + i) && xs[i] == x
    decreases |xs|
  {
    if xs != [] {
      var rest := FilterFrom(xs[1..], category, start + 1);
      FilterFromKeeps(xs[1..], category, start + 1);
      assert forall i :: 1 <= i < |xs| ==> xs[i] == xs[1..][i - 1];
      var r := FilterFrom(xs, category, start);
      if KeepAtIndex(category, start) {
        assert r == [xs[0]] + rest;
        assert r[1..] == rest;
      } else {
        assert r == rest;
      }
    }
  }

  /** `filteredProjects` over the whole list. */
  function FilterByIndex(xs: seq<Card>, category: string): seq<Card> {
    FilterFrom(xs, category, 0)
  }

  /** A category that keeps every position (`all`, or an unknown one) gives
      the list back unchanged. */
  lemma {:induction false} KeepingCategoryKeepsAll(xs: seq<Card>, category: string, start: nat)
    requires category !in Categories[1..]
    ensures FilterFrom(xs, category, start) == xs
    decreases |xs|
  {
    if xs != [] {
      KeepingCategoryKeepsAll(xs[1..], category, start + 1);
      assert KeepAtIndex(category, start);
      assert xs == [xs[0]] + xs[1..];
    }
  }

  /** One step of the filter: the card at position `k` if it passes, then
      the filter of the cards after it. */
  lemma FilterFromStep(xs: seq<Card>, category: string, k: nat)
    requires k < |xs|
    ensures FilterFrom(xs[k..], category, k) ==
      (if KeepAtIndex(category, k) then [xs[k]] else []) + FilterFrom(xs[k + 1..], category, k + 1)
  {
    assert xs[k..][1..] == xs[k + 1..];
  }

  /** The frontend tab of a six-card list keeps cards 1 and 4. */
  lemma FrontendTab(xs: seq<Card>)
    requires |xs| == 6
    ensures FilterByIndex(xs, "frontend") == [xs[0], xs[3]]
  {
    assert xs[6..] == [];
    FilterFromStep(xs, "frontend", 5);
    assert FilterFrom(xs[5..], "frontend", 5) == [];
    FilterFromStep(xs, "frontend", 4);
    assert FilterFrom(xs[4..], "frontend", 4) == [];
    FilterFromStep(xs, "frontend", 3);
    assert FilterFrom(xs[3..], "frontend", 3) == [xs[3]];
    FilterFromStep(xs, "frontend", 2);
    assert FilterFrom(xs[2..], "frontend", 2) == [xs[3]];
    FilterFromStep(xs, "frontend", 1);
    assert FilterFrom(xs[1..], "frontend", 1) == [xs[3]];
    FilterFromStep(xs, "frontend", 0);
    assert xs[0..] == xs;
  }

  /** The backend tab of a six-card list keeps cards 2 and 5. */
  lemma BackendTab(xs: seq<Card>)
    requires |xs| == 6
    ensures FilterByIndex(xs, "backend") == [xs[1], xs[4]]
  {
    assert xs[6..] == [];
    FilterFromStep(xs, "backend", 5);
    assert FilterFrom(xs[5..], "backend", 5) == [];
    FilterFromStep(xs, "backend", 4);
    assert FilterFrom(xs[4..], "backend", 4) == [xs[4]];
    FilterFromStep(xs, "backend", 3);
    assert FilterFrom(xs[3..], "backend", 3) == [xs[4]];
    FilterFromStep(xs, "backend", 2);
    assert FilterFrom(xs[2..], "backend", 2) == [xs[4]];
    FilterFromStep(xs, "backend", 1);
    assert FilterFrom(xs[1..], "backend", 1) == [xs[1], xs[4]];
    FilterFromStep(xs, "backend", 0);
    assert xs[0..] == xs;
  }

  /** The fullstack tab of a six-card list keeps cards 1, 3 and 5. */
  lemma FullstackTab(xs: seq<Card>)
    requires |xs| == 6
    ensures FilterByIndex(xs, "fullstack") == [xs[0], xs[2], xs[4]]
  {
    assert xs[6..] == [];
    FilterFromStep(xs, "fullstack", 5);
    assert FilterFrom(xs[5..], "fullstack", 5) == [];
    FilterFromStep(xs, "fullstack", 4);
    assert FilterFrom(xs[4..], "fullstack", 4) == [xs[4]];
    FilterFromStep(xs, "fullstack", 3);
    assert FilterFrom(xs[3..], "fullstack", 3) == [xs[4]];
    FilterFromStep(xs, "fullstack", 2);
    assert FilterFrom(xs[2..], "fullstack", 2) == [xs[2], xs[4]];
    FilterFromStep(xs, "fullstack", 1);
    assert FilterFrom(xs[1..], "fullstack", 1) == [xs[2], xs[4]];
    FilterFromStep(xs, "fullstack", 0);
    assert xs[0..] == xs;
  }

  /** The mobile tab of a six-card list keeps card 4 only. */
  lemma MobileTab(xs: seq<Card>)
    requires |xs| == 6
    ensures FilterByIndex(xs, "mobile") == [xs[3]]
  {
    assert xs[6..] == [];
    FilterFromStep(xs, "mobile", 5);
    assert FilterFrom(xs[5..], "mobile", 5) == [];
    FilterFromStep(xs, "mobile", 4);
    assert FilterFrom(xs[4..], "mobile", 4) == [];
    FilterFromStep(xs, "mobile", 3);
    assert FilterFrom(xs[3..], "mobile", 3) == [xs[3]];
    FilterFromStep(xs, "mobile", 2);
    assert FilterFrom(xs[2..], "mobile", 2) == [xs[3]];
    FilterFromStep(xs, "mobile", 1);
    assert FilterFrom(xs[1..], "mobile", 1) == [xs[3]];
    FilterFromStep(xs, "mobile", 0);
    assert xs[0..] == xs;
  }

  /** What each named tab shows of the demo list: projects 1 and 4 under
      frontend, 2 and 5 under backend, 1, 3 and 5 under fullstack, and only
      project 4 under mobile, so the mobile tab never offers "load more". */
  lemma DemoTabs()
    ensures FilterByIndex(DemoProjects, "frontend") == [DemoProjects[0], DemoProjects[3]]
    ensures FilterByIndex(DemoProjects, "backend") == [DemoProjects[1], DemoProjects[4]]
    ensures FilterByIndex(DemoProjects, "fullstack") == [DemoProjects[0], DemoProjects[2], DemoProjects[4]]
    ensures FilterByIndex(DemoProjects, "mobile") == [DemoProjects[3]]
  {
    FrontendTab(DemoProjects);
    BackendTab(DemoProjects);
    FullstackTab(DemoProjects);
    MobileTab(DemoProjects);
  }

  /** On first render the all tab shows the first four demo projects and
      offers "load more"; one click shows all six and the button goes. */
  lemma FirstRenderAndOneClick()
    ensures Pagination.VisibleSlice(FilterByIndex(DemoProjects, "all"), Pagination.InitialVisible) == DemoProjects[..4]
    ensures Pagination.ShowLoadMore(Pagination.InitialVisible, |FilterByIndex(DemoProjects, "all")|)
    ensures Pagination.LoadMore(Pagination.InitialVisible, |FilterByIndex(DemoProjects, "all")|) == |DemoProjects|
  {
    KeepingCategoryKeepsAll(DemoProjects, "all", 0);
  }

  /** The section's `visibleProjects` and `activeCategory`. */
  class ProjectsView {
    var visible: nat
    var activeCategory: string

    constructor ()
      ensures visible == Pagination.InitialVisible && activeCategory == "all"
    {
      visible := Pagination.InitialVisible;
      activeCategory := "all";
    }

    /** The demo list under the active tab. */
    function Filtered(): seq<Card>
      reads this
    {
      FilterByIndex(DemoProjects, activeCategory)
    }

    /** The cards rendered: the first `visible` of the filtered list. */
    function Shown(): (r: seq<Card>)
      reads this
      ensures IsSubsequence(Filtered(), DemoProjects)
      ensures r == Pagination.VisibleSlice(Filtered(), visible)
    {
      FilterFromKeeps(DemoProjects, activeCategory, 0);
      Pagination.VisibleSlice(Filtered(), visible)
    }

    /** Whether the "Load More Projects" button renders. */
    predicate LoadMoreShown()
      reads this
    {
      Pagination.ShowLoadMore(visible, |Filtered()|)
    }

    /** `loadMore`. */
    method LoadMore()
      modifies this
      ensures visible == Pagination.LoadMore(old(visible), |Filtered()|)
      ensures activeCategory == old(activeCategory)
    {
      visible := Pagination.LoadMore(visible, |Filtered()|);
    }

    /** A tab click: the tab becomes active and the count goes back to four. */
    method SelectCategory(category: string)
      modifies this
      ensures activeCategory == category && visible == Pagination.InitialVisible
    {
      activeCategory := category;
      visible := Pagination.InitialVisible;
    }
  }
}
