/** The sign-up page (src/pages/RegisterPage.tsx): the password check, the
    profile row written for a new account and the redirects. */
module RegisterPage {
  import opened Common
  import opened Views
  import opened Supabase
  import Auth

  /** `password !== confirmPassword` rejects before any call. */
  predicate PasswordsMatch(password: string, confirm: string) {
    password == confirm
  }

  /** The answer of `auth.signUp`: an error, or data whose user may be
      absent. */
  datatype SignUpOutcome = SignUpError | SignedUp(user: Option<Auth.User>)

  /** What one submit did: whether the provider was called, the profile row
      inserted (if any) and where the page is sent afterwards. */
  datatype RegisterResult = RegisterResult(signUpCalled: bool, profile: Option<Profile>, redirectTo: Option<string>)

  /** `handleSubmit`, given the provider's answer and the clock reading
      `now`. Matching passwords are sent to the provider; when it returns a
      user, a profile row for that user, with the typed email and the admin
      role, is inserted, and the page is sent to the sign-in page whatever
      the insert answered. */
  function Register(email: string, password: string, confirm: string, signUp: SignUpOutcome, now: string): (r: RegisterResult)
    ensures r.signUpCalled <==> PasswordsMatch(password, confirm)
    ensures r.profile.Some? <==> r.signUpCalled && signUp.SignedUp? && signUp.user.Some?
    ensures r.profile.Some? ==> r.profile.value == Profile(signUp.user.value.id, email, AdminRole, now)
    ensures r.redirectTo.Some? <==> r.profile.Some?
    ensures r.redirectTo.Some? ==> r.redirectTo.value == LoginRoute
  {
    if password != confirm then RegisterResult(false, None, None)
    else if signUp.SignedUp? && signUp.user.Some? then
      RegisterResult(true, Some(Profile(signUp.user.value.id, email, AdminRole, now)), Some(LoginRoute))
    else RegisterResult(true, None, None)
  }

  /** Every account created here is an admin: the role lookup of the row the
      page writes passes the store's admin check. */
  lemma EveryRegistrantIsAdmin(email: string, password: string, confirm: string, signUp: SignUpOutcome, now: string)
    ensures var r := Register(email, password, confirm, signUp, now);
            r.profile.Some? ==> Auth.CheckAdminStatus(Auth.RoleRow(RoleName(r.profile.value.role)))
  {
  }

  /** The render: a signed-in user is sent to the admin projects list. */
  function RegisterView(user: Option<Auth.User>): (v: View)
    ensures v == Redirect(AdminProjectsRoute) <==> user.Some?
    ensures v == Content <==> user.None?
  {
    if user.Some? then Redirect(AdminProjectsRoute) else Content
  }

  /** The three inputs and the `loading` flag. */
  class RegisterForm {
    var email: string
    var password: string
    var confirmPassword: string
    var loading: bool

    constructor ()
      ensures email == "" && password == "" && confirmPassword == "" && !loading
    {
      email, password, confirmPassword := "", "", "";
      loading := false;
    }

    /** `handleSubmit`: a mismatch changes nothing; otherwise `loading` ends
        false once the calls have answered. The inputs are never changed. */
    method HandleSubmit(signUp: SignUpOutcome, now: string) returns (r: RegisterResult)
      modifies this
      ensures r == Register(old(email), old(password), old(confirmPassword), signUp, now)
      ensures email == old(email) && password == old(password) && confirmPassword == old(confirmPassword)
      ensures loading == if r.signUpCalled then false else old(loading)
    {
      if password != confirmPassword {
        return RegisterResult(false, None, None);
      }
      loading := true;
      r := RegisterResult(true, None, None);
      if signUp.SignedUp? && signUp.user.Some? {
        var row := Profile(signUp.user.value.id, email, AdminRole, now);
        r := RegisterResult(true, Some(row), Some(LoginRoute));
      }
      loading := false;
    }
  }
}
