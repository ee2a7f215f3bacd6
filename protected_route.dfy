/** The route guard (src/components/ProtectedRoute.tsx): a pure decision from
    the session store's state to what the guarded route renders. */
module ProtectedRoute {
  import opened Common
  import opened Views
  import Auth

  /** `ProtectedRoute({ adminOnly = false })`: spinner while loading, then the
      login page without a user, then home for a non-admin on an admin-only
      route, and otherwise the child routes. */
  function Guard(loading: bool, user: Option<Auth.User>, isAdmin: bool, adminOnly: bool := false): (v: View)
    ensures v == Content <==> !loading && user.Some? && (!adminOnly || isAdmin)
    ensures loading ==> v == Spinner
    ensures !loading && user.None? ==> v == Redirect(LoginRoute)
    ensures !loading && user.Some? && adminOnly && !isAdmin ==> v == Redirect(HomeRoute)
  {
    if loading then Spinner
    else if user.None? then Redirect(LoginRoute)
    else if adminOnly && !isAdmin then Redirect(HomeRoute)
    else Content
  }

  /** The guard read off the store's published state. */
  function GuardState(s: Auth.AuthState, adminOnly: bool := false): View {
    Guard(s.loading, s.user, s.isAdmin, adminOnly)
  }

  /** An admin-only route never renders for a non-admin, whoever is signed in
      and whatever the loading flag says. */
  lemma AdminOnlyNeedsAdmin(loading: bool, user: Option<Auth.User>)
    ensures Guard(loading, user, false, true) != Content
  {
  }

  /** Without `adminOnly` the guard admits every signed-in user once loading
      has ended. */
  lemma DefaultAdmitsSignedIn(user: Auth.User, isAdmin: bool)
    ensures Guard(false, Some(user), isAdmin) == Content
  {
  }

  /** The guard renders the admin subtree for a store state only after an
      admin role lookup: run from the store's initial state, a sequence of
      handlers whose lookups never answered "admin" never opens an admin-only
      route. */
  lemma {:induction false} AdminRouteNeedsAdminLookup(es: seq<Auth.Event>)
    requires forall i :: 0 <= i < |es| ==> !Auth.GrantsAdmin(es[i])
    ensures GuardState(Auth.Run(Auth.Initial, es), true) != Content
  {
    Auth.RunDeniesWithoutAdminRow(Auth.Initial, es);
  }

  /** Signing in as an admin and then out again: after the change notification
      for the admin's session the admin route renders; after a successful
      sign-out and its notification it sends the visitor to the login page. */
  lemma SignInSignOutScenario(u: Auth.User, token: string)
    requires u.id != ""
    ensures var session := Some(Auth.Session(token, Some(u)));
            var signedIn := Auth.Run(Auth.Initial, [
              Auth.InitialLoad(Auth.GotSession(None), Auth.NoRow),
              Auth.SignInAttempt(Auth.SignedIn(Some(u)), Auth.RoleRow("admin")),
              Auth.AuthChange(session, Auth.RoleRow("admin"))]);
            var signedOut := Auth.Run(signedIn, [
              Auth.SignOutAttempt(Success),
              Auth.AuthChange(None, Auth.NoRow)]);
            GuardState(signedIn, true) == Content &&
            GuardState(signedOut, true) == Redirect(LoginRoute)
  {
    var session := Some(Auth.Session(token, Some(u)));
    var login := [
      Auth.InitialLoad(Auth.GotSession(None), Auth.NoRow),
      Auth.SignInAttempt(Auth.SignedIn(Some(u)), Auth.RoleRow("admin")),
      Auth.AuthChange(session, Auth.RoleRow("admin"))];
    var s1 := Auth.Step(Auth.Initial, login[0]);
    var s2 := Auth.Step(s1, login[1]);
    var s3 := Auth.Step(s2, login[2]);
    assert login[1..][1..] == [login[2]];
    assert Auth.Run(Auth.Initial, login) == Auth.Run(s1, login[1..]);
    assert Auth.Run(s1, login[1..]) == Auth.Run(s2, [login[2]]);
    assert Auth.Run(s2, [login[2]]) == Auth.Run(s3, []);
    assert s3.isAdmin && s3.user == Some(u);
    var logout := [Auth.SignOutAttempt(Success), Auth.AuthChange(None, Auth.NoRow)];
    var s4 := Auth.Step(s3, logout[0]);
    var s5 := Auth.Step(s4, logout[1]);
    assert Auth.Run(s3, logout) == Auth.Run(s4, [logout[1]]);
    assert Auth.Run(s4, [logout[1]]) == Auth.Run(s5, []);
  }
}
