/** The admin experience list (src/pages/admin/ExperiencePage.tsx): the
    experiences table, fetched on mount, with delete-by-id and the duration
    column. */
module ExperiencePage {
  import opened Common
  import opened Supabase
  import opened Seqs

  /** `experiences.filter(exp => exp.id !== id)`: no row with that id is left,
      every other row is kept as often as before, and the order is kept. */
  function WithoutExperience(xs: seq<Experience>, id: string): (r: seq<Experience>)
    ensures forall e :: e in r ==> e in xs && e.id != id
    ensures forall e: Experience :: e.id != id ==> multiset(r)[e] == multiset(xs)[e]
    ensures IsSubsequence(r, xs)
  {
    FilterIsSubsequence(xs, (e: Experience) => e.id != id);
    FilterCounts(xs, (e: Experience) => e.id != id);
    Filter(xs, (e: Experience) => e.id != id)
  }

  /** Deleting an id no row has changes nothing. */
  lemma DeleteUnknownIdUnchanged(xs: seq<Experience>, id: string)
    requires forall i :: 0 <= i < |xs| ==> xs[i].id != id
    ensures WithoutExperience(xs, id) == xs
  {
    FilterKeepsAll(xs, (e: Experience) => e.id != id);
  }

  /** The duration cell: the start date, a dash, and "Present" for a current
      position or else the end date (nothing when it is null). */
  function DurationLabel(e: Experience): (cell: string)
    ensures |cell| >= |e.startDate| + 3 && cell[..|e.startDate| + 3] == e.startDate + " - "
    ensures e.current ==> cell[|e.startDate| + 3..] == "Present"
    ensures !e.current ==> cell[|e.startDate| + 3..] == EmptyIfNull(e.endDate)
  {
    e.startDate + " - " + (if e.current then "Present" else EmptyIfNull(e.endDate))
  }

  /** `experiences`, `loading` and `experienceToDelete`. */
  class ExperienceTable {
    var experiences: seq<Experience>
    var loading: bool
    var experienceToDelete: Option<string>

    constructor ()
      ensures experiences == [] && loading && experienceToDelete == None
    {
      experiences := [];
      loading := true;
      experienceToDelete := None;
    }

    /** `fetchExperiences`, given the answer to the query ordered by
        `start_date` descending: `data || []` on success, the list left alone
        on failure, loading false either way. */
    method FetchExperiences(resp: Response<seq<Experience>>)
      modifies this
      ensures experiences == if resp.Data? then ListOrEmpty(resp.data) else old(experiences)
      ensures !loading && experienceToDelete == old(experienceToDelete)
    {
      loading := true;
      if resp.Data? {
        experiences := ListOrEmpty(resp.data);
      }
      loading := false;
    }

    /** The delete button of a row. */
    method AskDelete(id: string)
      modifies this
      ensures experienceToDelete == Some(id)
      ensures experiences == old(experiences) && loading == old(loading)
    {
      experienceToDelete := Some(id);
    }

    /** The cancel button of the confirmation dialog. */
    method CancelDelete()
      modifies this
      ensures experienceToDelete == None
      ensures experiences == old(experiences) && loading == old(loading)
    {
      experienceToDelete := None;
    }

    /** `deleteExperience`, given the answer to the delete: nothing is sent
        without a (non-empty) target; on success the rows with that id go and
        the target is cleared; on failure nothing changes. */
    method DeleteExperience(st: Status) returns (sent: bool)
      modifies this
      ensures sent == Truthy(old(experienceToDelete))
      ensures sent && st == Success ==>
        experiences == WithoutExperience(old(experiences), old(experienceToDelete).value) &&
        experienceToDelete == None
      ensures !(sent && st == Success) ==>
        experiences == old(experiences) && experienceToDelete == old(experienceToDelete)
      ensures loading == old(loading)
    {
      if !Truthy(experienceToDelete) {
        return false;
      }
      sent := true;
      if st == Success {
        experiences := WithoutExperience(experiences, experienceToDelete.value);
        experienceToDelete := None;
      }
    }
  }

  /** The mount effect: a fresh table, then the fetch. */
  method Mount(resp: Response<seq<Experience>>) returns (table: ExperienceTable)
    ensures fresh(table)
    ensures table.experiences == (if resp.Data? then ListOrEmpty(resp.data) else [])
    ensures !table.loading && table.experienceToDelete == None
  {
    table := new ExperienceTable();
    table.FetchExperiences(resp);
  }
}
