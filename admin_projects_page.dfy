/** The admin projects page (src/pages/AdminProjectsPage.tsx): its own inline
    guard in front of the shared projects table, and the fetch that runs only
    once a user is known. */
module AdminProjectsPage {
  import opened Common
  import opened Views
  import opened Supabase
  import Auth
  import ProtectedRoute
  import ProjectList

  /** The page's render chain: the spinner while auth is loading comes before
      every other check, then the login redirect without a user, then the
      access-denied card for a signed-in non-admin; only an admin sees the
      table. */
  function PageView(authLoading: bool, user: Option<Auth.User>, isAdmin: bool): (v: View)
    ensures authLoading ==> v == Spinner
    ensures !authLoading && user.None? ==> v == Redirect(LoginRoute)
    ensures !authLoading && user.Some? && !isAdmin ==> v == AccessDenied
    ensures v == Content <==> !authLoading && user.Some? && isAdmin
  {
    if authLoading then Spinner
    else if user.None? then Redirect(LoginRoute)
    else if !isAdmin then AccessDenied
    else Content
  }

  /** The inline chain admits exactly the visitors the admin-only route guard
      admits; the two differ only in what a non-admin sees (a card here, a
      redirect home there). */
  lemma PageAgreesWithAdminGuard(authLoading: bool, user: Option<Auth.User>, isAdmin: bool)
    ensures PageView(authLoading, user, isAdmin) == Content
        <==> ProtectedRoute.Guard(authLoading, user, isAdmin, true) == Content
    ensures !authLoading && user.Some? && !isAdmin ==>
        PageView(authLoading, user, isAdmin) == AccessDenied &&
        ProtectedRoute.Guard(authLoading, user, isAdmin, true) == Redirect(HomeRoute)
  {
  }

  /** Read off the session store: starting from its initial state, no
      sequence of handler runs whose role lookups never answered "admin" shows
      the table. */
  lemma {:induction false} TableNeedsAdminLookup(es: seq<Auth.Event>)
    requires forall i :: 0 <= i < |es| ==> !Auth.GrantsAdmin(es[i])
    ensures var s := Auth.Run(Auth.Initial, es);
            PageView(s.loading, s.user, s.isAdmin) != Content
  {
    Auth.RunDeniesWithoutAdminRow(Auth.Initial, es);
  }

  /** The effect keyed on `user`: the projects are fetched only when there is
      a user; otherwise the table is left exactly as it was. */
  method OnUserChanged(table: ProjectList.ProjectTable, user: Option<Auth.User>, resp: Response<seq<Project>>)
    returns (fetched: bool)
    modifies table
    ensures fetched <==> user.Some?
    ensures fetched ==> (!table.loading &&
      table.projects == (if resp.Data? then ListOrEmpty(resp.data) else old(table.projects)))
    ensures !fetched ==> table.projects == old(table.projects) && table.loading == old(table.loading)
    ensures table.projectToDelete == old(table.projectToDelete)
  {
    fetched := user.Some?;
    if fetched {
      table.FetchProjects(resp);
    }
  }
}
