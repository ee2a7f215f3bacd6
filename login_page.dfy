/** The sign-in page (src/pages/LoginPage.tsx): the empty-field check in
    front of the store's `signIn`, and the two redirects to the admin
    projects list. */
module LoginPage {
  import opened Common
  import opened Views
  import Auth

  /** `!email || !password` rejects before any call. */
  predicate CredentialsPresent(email: string, password: string) {
    email != "" && password != ""
  }

  /** The render: any signed-in user, admin or not, is sent to the admin
      projects list; everyone else sees the form. */
  function LoginView(user: Option<Auth.User>): (v: View)
    ensures v == Redirect(AdminProjectsRoute) <==> user.Some?
    ensures v == Content <==> user.None?
  {
    if user.Some? then Redirect(AdminProjectsRoute) else Content
  }

  /** The effect: it navigates to the admin projects list only for a
      signed-in admin. */
  function EffectNavigation(user: Option<Auth.User>, isAdmin: bool): (to: Option<string>)
    ensures to.Some? <==> user.Some? && isAdmin
    ensures to.Some? ==> to.value == AdminProjectsRoute
  {
    if user.Some? && isAdmin then Some(AdminProjectsRoute) else None
  }

  /** Wherever the effect navigates, the render already redirects to the same
      place, and it also redirects a signed-in user who is not an admin. */
  lemma RenderRedirectCoversEffect(user: Option<Auth.User>, isAdmin: bool)
    ensures EffectNavigation(user, isAdmin).Some? ==> LoginView(user) == Redirect(EffectNavigation(user, isAdmin).value)
    ensures user.Some? && !isAdmin ==> EffectNavigation(user, isAdmin).None? && LoginView(user).Redirect?
  {
  }

  /** A successful sign-in leaves the page where it was; it is the change
      notification that follows (with a session naming the user) that makes
      the page redirect. */
  lemma {:induction false} SignInThenNotificationRedirects(s: Auth.AuthState, u: Auth.User, token: string,
      l: Auth.ProfileLookup, l2: Auth.ProfileLookup)
    ensures var a := Auth.SignInDone(s, Auth.SignedIn(Some(u)), l);
            LoginView(a.user) == LoginView(s.user) &&
            LoginView(Auth.AuthChanged(a, Some(Auth.Session(token, Some(u))), l2).user) == Redirect(AdminProjectsRoute)
  {
    var a := Auth.SignInDone(s, Auth.SignedIn(Some(u)), l);
    assert a.user == s.user;
    assert Auth.AuthChanged(a, Some(Auth.Session(token, Some(u))), l2).user == Some(u);
  }

  /** The email and password inputs. */
  class LoginForm {
    var email: string
    var password: string

    constructor ()
      ensures email == "" && password == ""
    {
      email, password := "", "";
    }

    /** `handleSubmit`, given the provider's answer and the role lookup that
        the store would make: with either field empty the store is not
        called and nothing changes; otherwise the store's `signIn` runs,
        which never throws. */
    method HandleSubmit(store: Auth.AuthStore, o: Auth.SignInOutcome, l: Auth.ProfileLookup) returns (called: bool)
      modifies store
      ensures called == CredentialsPresent(email, password)
      ensures called ==> store.State() == Auth.SignInDone(old(store.State()), o, l)
      ensures !called ==> store.State() == old(store.State())
    {
      if email == "" || password == "" {
        return false;
      }
      called := true;
      store.SignIn(o, l);
    }
  }
}
