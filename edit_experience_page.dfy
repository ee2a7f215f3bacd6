/** The edit experience page (src/pages/admin/EditExperiencePage.tsx): the
    eight inputs loaded from the stored row named by the route's `id`, a
    `loading` flag for that fetch, a `saving` flag for the update, and the
    submit handler. */
module EditExperiencePage {
  import opened Common
  import opened Views
  import opened Supabase
  import opened ExperienceForm

  class EditExperienceForm {
    /** The route parameter `id`; it may be missing. */
    const routeId: Option<string>
    var company: string
    var position: string
    var description: string
    var startDate: string
    var endDate: string
    var current: bool
    var skills: string
    var location: string
    var loading: bool
    var saving: bool

    /** The inputs as the shared check and row builder see them. */
    function Inputs(): Fields
      reads this
    {
      Fields(company, position, description, startDate, endDate, current, skills, location)
    }

    /** The render: a spinner while the stored row is being loaded, the form
        otherwise. */
    function View(): (v: View)
      reads this
      ensures v == Spinner <==> loading
      ensures v != Spinner ==> v == Content
    {
      if loading then Spinner else Content
    }

    /** The page starts blank and loading. */
    constructor (id: Option<string>)
      ensures routeId == id && Inputs() == BlankFields && loading && !saving
    {
      routeId := id;
      company, position, description, startDate := "", "", "", "";
      endDate, current, skills, location := "", false, "", "";
      loading := true;
      saving := false;
    }

    /** `fetchExperience`, given the answer to the single-row query. A stored
        row fills the inputs through the load mapping; an error leaves them
        alone and sends the page back to the experiences list; null data
        changes nothing. Loading ends false in every case. */
    method FetchExperience(resp: Response<Experience>) returns (navigateTo: Option<string>)
      modifies this
      ensures navigateTo.Some? <==> resp.Error?
      ensures navigateTo.Some? ==> navigateTo.value == AdminExperiencesRoute
      ensures Inputs() == if resp.Data? && resp.data.Some? then FieldsOf(resp.data.value) else old(Inputs())
      ensures !loading && saving == old(saving)
    {
      loading := true;
      navigateTo := None;
      match resp {
        case Error =>
          navigateTo := Some(AdminExperiencesRoute);
        case Data(d) =>
          if d.Some? {
            var e := d.value;
            company, position, description, startDate := e.company, e.position, e.description, e.startDate;
            endDate, current := EmptyIfNull(e.endDate), e.current;
            skills, location := JoinSkills(e.skills), e.location;
          }
      }
      loading := false;
    }

    /** The mount effect: the row is fetched only when the route has a
        non-empty `id`; without one nothing happens and the page keeps its
        spinner for good. */
    method OnRouteId(resp: Response<Experience>) returns (fetched: bool, navigateTo: Option<string>)
      modifies this
      ensures fetched == Truthy(routeId)
      ensures fetched ==> !loading && navigateTo.Some? == resp.Error?
      ensures fetched ==> Inputs() == if resp.Data? && resp.data.Some? then FieldsOf(resp.data.value) else old(Inputs())
      ensures !fetched ==> navigateTo == None && Inputs() == old(Inputs()) && loading == old(loading)
      ensures saving == old(saving)
    {
      fetched := Truthy(routeId);
      navigateTo := None;
      if fetched {
        navigateTo := FetchExperience(resp);
      }
    }

    /** `handleSubmit`, given the answer to the update. A rejected form sends
        nothing and leaves `saving` as it was; an accepted one sends the row
        built from the inputs as an update of the row with the route's `id`
        (`updateId`), and `saving` ends false whatever the update answered. */
    method HandleSubmit(written: Status) returns (r: SaveResult, updateId: Option<string>)
      modifies this
      ensures r == Save(old(Inputs()), written)
      ensures r.row.Some? ==> updateId == routeId
      ensures r.row.None? ==> updateId == None
      ensures Inputs() == old(Inputs()) && loading == old(loading)
      ensures saving == if r.verdict == Accepted then false else old(saving)
    {
      var v := Validate(Inputs());
      if v != Accepted {
        return SaveResult(v, None, None), None;
      }
      saving := true;
      updateId := routeId;
      var row := RowOf(Inputs());
      var to := if written == Success then Some(AdminExperiencesRoute) else None;
      r := SaveResult(v, Some(row), to);
      saving := false;
    }
  }

  /** Opening a stored experience and saving it unchanged writes back the
      same company, position, description, dates, location and (for skills
      the parser could have produced) skills, and returns to the list once
      the update succeeds. */
  lemma {:induction false} OpenThenSaveKeepsRow(e: Experience, written: Status)
    requires AllSkills(e.skills) && e.company != "" && e.position != "" && e.description != ""
    requires e.startDate != "" && e.location != "" && (e.current || Truthy(e.endDate))
    ensures var r := Save(FieldsOf(e), written);
            r.verdict == Accepted && r.row.Some? &&
            r.row.value.skills == e.skills && r.row.value.company == e.company &&
            (e.current ==> r.row.value.endDate == None) &&
            (!e.current ==> r.row.value.endDate == e.endDate) &&
            (r.navigateTo.Some? <==> written == Success)
  {
    LoadThenSaveRoundTrip(e);
  }
}
