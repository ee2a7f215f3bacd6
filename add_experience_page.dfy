/** The add experience page (src/pages/admin/AddExperiencePage.tsx): the
    eight inputs, a `loading` flag for the insert in flight, and the submit
    handler. */
module AddExperiencePage {
  import opened Common
  import opened ExperienceForm

  class AddExperienceForm {
    var company: string
    var position: string
    var description: string
    var startDate: string
    var endDate: string
    var current: bool
    var skills: string
    var location: string
    var loading: bool

    /** The inputs as the shared check and row builder see them. */
    function Inputs(): Fields
      reads this
    {
      Fields(company, position, description, startDate, endDate, current, skills, location)
    }

    constructor ()
      ensures Inputs() == BlankFields && !loading
    {
      company, position, description, startDate := "", "", "", "";
      endDate, current, skills, location := "", false, "", "";
      loading := false;
    }

    /** `handleSubmit`, given the answer to the insert. A rejected form sends
        nothing and leaves `loading` as it was; an accepted one inserts the
        row built from the inputs, and `loading` ends false whatever the
        insert answered. The inputs are never changed. */
    method HandleSubmit(written: Status) returns (r: SaveResult)
      modifies this
      ensures r == Save(old(Inputs()), written)
      ensures Inputs() == old(Inputs())
      ensures loading == if r.verdict == Accepted then false else old(loading)
    {
      var v := Validate(Inputs());
      if v != Accepted {
        return SaveResult(v, None, None);
      }
      loading := true;
      var row := RowOf(Inputs());
      var to := if written == Success then Some(Views.AdminExperiencesRoute) else None;
      r := SaveResult(v, Some(row), to);
      loading := false;
    }
  }
}
