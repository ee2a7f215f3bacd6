/** The public projects section over the stored projects
    (src/components/ProjectsFetch.tsx): fetched once on mount, filtered by
    a case-insensitive substring of the tags, and paged with "load more". */
module ProjectsFetch {
  import opened Common
  import opened Text
  import opened Seqs
  import opened Views
  import opened Supabase
  import Pagination

  /** The message the section keeps after a failed fetch. */
  const LoadError: string := "Failed to load projects"

  /** `tag.toLowerCase().includes(category.toLowerCase())`. */
  predicate TagMatches(tag: string, category: string) {
    Includes(ToLower(tag), ToLower(category))
  }

  /** `tags.some(tag => ...)`, scanning the tags left to right. */
  predicate SomeTagMatches(tags: seq<string>, category: string)
    decreases |tags|
  {
    tags != [] && (TagMatches(tags[0], category) || SomeTagMatches(tags[1..], category))
  }

  /** `some` holds exactly when one of the tags matches. */
  lemma {:induction false} SomeTagMatchesAt(tags: seq<string>, category: string)
    ensures SomeTagMatches(tags, category) <==> exists i :: 0 <= i < |tags| && TagMatches(tags[i], category)
    decreases |tags|
  {
    if tags != [] {
      SomeTagMatchesAt(tags[1..], category);
      if j :| 0 <= j < |tags| && TagMatches(tags[j], category) {
        if j > 0 {
          assert tags[1..][j - 1] == tags[j];
        }
      }
      if SomeTagMatches(tags[1..], category) {
        var j :| 0 <= j < |tags[1..]| && TagMatches(tags[1..][j], category);
        assert tags[j + 1] == tags[1..][j];
      }
    }
  }

  /** The section's test on one project: the `all` tab keeps everything,
      any other keeps a project one of whose tags contains the tab's name,
      ignoring case. */
  predicate MatchesCategory(p: Project, category: string) {
    category == "all" || SomeTagMatches(p.tags, category)
  }

  /** `filteredProjects`. */
  function FilterByCategory(xs: seq<Project>, category: string): (r: seq<Project>)
    ensures IsSubsequence(r, xs)
    ensures forall p :: p in r ==> p in xs && MatchesCategory(p, category)
    ensures forall p: Project :: MatchesCategory(p, category) ==> multiset(r)[p] == multiset(xs)[p]
  {
    FilterIsSubsequence(xs, (p: Project) => MatchesCategory(p, category));
    FilterCounts(xs, (p: Project) => MatchesCategory(p, category));
    Filter(xs, (p: Project) => MatchesCategory(p, category))
  }

  /** The `all` tab shows the whole list. */
  lemma AllTabKeepsEverything(xs: seq<Project>)
    ensures FilterByCategory(xs, "all") == xs
  {
    FilterKeepsAll(xs, (p: Project) => MatchesCategory(p, "all"));
  }

  /** Lower-casing twice is lower-casing once. */
  lemma ToLowerIdempotent(s: string)
    ensures ToLower(ToLower(s)) == ToLower(s)
  {
  }

  /** A tab name is compared without regard to case: the tab `Frontend`
      keeps the same projects as `frontend`. */
  lemma {:induction false} CategoryCaseIgnored(tags: seq<string>, category: string)
    ensures SomeTagMatches(tags, category) == SomeTagMatches(tags, ToLower(category))
    decreases |tags|
  {
    ToLowerIdempotent(category);
    if tags != [] {
      CategoryCaseIgnored(tags[1..], category);
    }
  }

  /** The state of the section. */
  class ProjectsSection {
    var projects: seq<Project>
    var loading: bool
    var error: Option<string>
    var visible: nat
    var activeCategory: string

    constructor ()
      ensures projects == [] && loading && error == None
      ensures visible == Pagination.InitialVisible && activeCategory == "all"
    {
      projects := [];
      loading := true;
      error := None;
      visible := Pagination.InitialVisible;
      activeCategory := "all";
    }

    /** The stored projects under the active tab. */
    function Filtered(): seq<Project>
      reads this
    {
      FilterByCategory(projects, activeCategory)
    }

    /** The render: a spinner while loading, the error notice after a failed
        fetch, and otherwise the tab content with the first `visible`
        filtered cards. */
    function View(): (v: View)
      reads this
      ensures v == Spinner <==> loading
      ensures v == ErrorNotice <==> !loading && Truthy(error)
      ensures v == Content <==> !loading && !Truthy(error)
    {
      if loading then Spinner else if Truthy(error) then ErrorNotice else Content
    }

    /** The cards in the tab: the first `visible` of the filtered list, each
        a stored project that matches the tab. */
    function Shown(): (r: seq<Project>)
      reads this
      ensures r == Pagination.VisibleSlice(Filtered(), visible)
      ensures forall p :: p in r ==> p in projects && MatchesCategory(p, activeCategory)
    {
      var f := Filtered();
      var r := Pagination.VisibleSlice(f, visible);
      assert forall p :: p in r ==> p in f;
      r
    }

    /** Whether the "Load More Projects" button renders. */
    predicate LoadMoreShown()
      reads this
    {
      Pagination.ShowLoadMore(visible, |Filtered()|)
    }

    /** `fetchProjects`, given the backend's answer: on success the list
        becomes `data || []` and the error is cleared; on failure the list is
        kept and the error is set. Loading ends false either way. */
    method FetchProjects(resp: Response<seq<Project>>)
      modifies this
      ensures resp.Data? ==> projects == ListOrEmpty(resp.data) && error == None
      ensures resp.Error? ==> projects == old(projects) && error == Some(LoadError)
      ensures !loading && visible == old(visible) && activeCategory == old(activeCategory)
    {
      loading := true;
      if resp.Data? {
        projects := ListOrEmpty(resp.data);
        error := None;
      } else {
        error := Some(LoadError);
      }
      loading := false;
    }

    /** `loadMore`. */
    method LoadMore()
      modifies this
      ensures visible == Pagination.LoadMore(old(visible), |Filtered()|)
      ensures projects == old(projects) && activeCategory == old(activeCategory)
      ensures loading == old(loading) && error == old(error)
    {
      visible := Pagination.LoadMore(visible, |Filtered()|);
    }

    /** A tab click: the tab becomes active and the count goes back to four. */
    method SelectCategory(category: string)
      modifies this
      ensures activeCategory == category && visible == Pagination.InitialVisible
      ensures projects == old(projects) && loading == old(loading) && error == old(error)
    {
      activeCategory := category;
      visible := Pagination.InitialVisible;
    }
  }

  /** The mount effect: a fresh section, then the fetch. A failed fetch shows
      the error notice; a successful one shows the content. */
  method Mount(resp: Response<seq<Project>>) returns (section: ProjectsSection)
    ensures fresh(section)
    ensures section.projects == (if resp.Data? then ListOrEmpty(resp.data) else [])
    ensures section.View() == if resp.Error? then ErrorNotice else Content
    ensures section.visible == Pagination.InitialVisible && section.activeCategory == "all"
  {
    section := new ProjectsSection();
    section.FetchProjects(resp);
  }
}
