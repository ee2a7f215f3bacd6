/** The projects table state that both admin project pages keep
    (src/pages/AdminProjectsPage.tsx and src/pages/admin/ProjectsPage.tsx hold
    the same handlers), and the in-memory patches they apply after a
    successful write. */
module ProjectList {
  import opened Common
  import opened Supabase
  import opened Seqs

  /** `projects.map(p => p.id === id ? { ...p, featured: !currentValue } : p)`:
      the list keeps its length and order, an element with that id gets
      `featured = !currentValue`, and nothing else in any element changes. */
  function ToggledFeatured(xs: seq<Project>, id: string, currentValue: bool): (r: seq<Project>)
    ensures |r| == |xs|
    ensures forall i :: 0 <= i < |xs| ==> r[i] == xs[i].(featured := r[i].featured)
    ensures forall i :: 0 <= i < |xs| ==> r[i].featured == if xs[i].id == id then !currentValue else xs[i].featured
  {
    seq(|xs|, i requires 0 <= i < |xs| => if xs[i].id == id then xs[i].(featured := !currentValue) else xs[i])
  }

  /** The table passes each row's own `featured` as `currentValue`; toggling
      back with the new value restores the list. */
  lemma ToggleTwiceRestores(xs: seq<Project>, id: string, v: bool)
    requires forall i :: 0 <= i < |xs| && xs[i].id == id ==> xs[i].featured == v
    ensures ToggledFeatured(ToggledFeatured(xs, id, v), id, !v) == xs
  {
  }

  /** Toggling an id no row has changes nothing. */
  lemma ToggleUnknownIdUnchanged(xs: seq<Project>, id: string, v: bool)
    requires forall i :: 0 <= i < |xs| ==> xs[i].id != id
    ensures ToggledFeatured(xs, id, v) == xs
  {
  }

  /** `projects.filter(p => p.id !== id)`: no row with that id is left, every
      other row is kept as often as before, and the order is kept. */
  function WithoutProject(xs: seq<Project>, id: string): (r: seq<Project>)
    ensures forall p :: p in r ==> p in xs && p.id != id
    ensures forall p: Project :: p.id != id ==> multiset(r)[p] == multiset(xs)[p]
    ensures IsSubsequence(r, xs)
  {
    FilterIsSubsequence(xs, (p: Project) => p.id != id);
    FilterCounts(xs, (p: Project) => p.id != id);
    Filter(xs, (p: Project) => p.id != id)
  }

  /** Deleting the same id twice removes nothing more. */
  lemma DeleteIdempotent(xs: seq<Project>, id: string)
    ensures WithoutProject(WithoutProject(xs, id), id) == WithoutProject(xs, id)
  {
    FilterIdempotent(xs, (p: Project) => p.id != id);
  }

  /** `projects`, `loading` and `projectToDelete` of an admin projects table. */
  class ProjectTable {
    var projects: seq<Project>
    var loading: bool
    var projectToDelete: Option<string>

    constructor ()
      ensures projects == [] && loading && projectToDelete == None
    {
      projects := [];
      loading := true;
      projectToDelete := None;
    }

    /** `fetchProjects`, given the backend's answer to the query ordered by
        `created_at` descending: on success the list becomes `data || []`, on
        failure it is left alone; loading ends false either way. */
    method FetchProjects(resp: Response<seq<Project>>)
      modifies this
      ensures projects == if resp.Data? then ListOrEmpty(resp.data) else old(projects)
      ensures !loading && projectToDelete == old(projectToDelete)
    {
      loading := true;
      if resp.Data? {
        projects := ListOrEmpty(resp.data);
      }
      loading := false;
    }

    /** `toggleFeatured(id, currentValue)`, given the answer to the update: the
        list is patched only on success. */
    method ToggleFeatured(id: string, currentValue: bool, st: Status)
      modifies this
      ensures projects == if st == Success then ToggledFeatured(old(projects), id, currentValue) else old(projects)
      ensures loading == old(loading) && projectToDelete == old(projectToDelete)
    {
      if st == Success {
        projects := ToggledFeatured(projects, id, currentValue);
      }
    }

    /** The delete button of a row: remember which row to delete. */
    method AskDelete(id: string)
      modifies this
      ensures projectToDelete == Some(id)
      ensures projects == old(projects) && loading == old(loading)
    {
      projectToDelete := Some(id);
    }

    /** The cancel button of the confirmation dialog. */
    method CancelDelete()
      modifies this
      ensures projectToDelete == None
      ensures projects == old(projects) && loading == old(loading)
    {
      projectToDelete := None;
    }

    /** `deleteProject`, given the answer to the delete. With no (or an empty)
        target nothing is sent and nothing changes; on success the rows with
        that id are removed and the target is cleared; on failure nothing
        changes. */
    method DeleteProject(st: Status) returns (sent: bool)
      modifies this
      ensures sent == Truthy(old(projectToDelete))
      ensures sent && st == Success ==>
        projects == WithoutProject(old(projects), old(projectToDelete).value) && projectToDelete == None
      ensures !(sent && st == Success) ==> projects == old(projects) && projectToDelete == old(projectToDelete)
      ensures loading == old(loading)
    {
      if !Truthy(projectToDelete) {
        return false;
      }
      sent := true;
      if st == Success {
        projects := WithoutProject(projects, projectToDelete.value);
        projectToDelete := None;
      }
    }
  }
}
