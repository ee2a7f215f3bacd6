/** The session store shared by the whole view tree (src/hooks/useAuth.tsx):
    who is signed in, whether they are an admin, and whether that is still
    being worked out. Every call to the backend is an input: the session fetch,
    the profile-role lookup, the password sign-in and the sign-out. */
module Auth {
  import opened Common
  import Views

  datatype User = User(id: string, email: string)

  /** A session as the auth provider hands it over; the store reads only its
      user, which it treats as possibly absent (`session?.user`). */
  datatype Session = Session(accessToken: string, user: Option<User>)

  /** `session?.user ?? null`. */
  function UserOf(s: Option<Session>): Option<User> {
    if s.Some? then s.value.user else None
  }

  /** `session?.user?.id` is truthy: a user with a non-empty id. */
  predicate HasUserId(s: Option<Session>) {
    UserOf(s).Some? && UserOf(s).value.id != ""
  }

  /** The answer of `profiles.select("role").eq("id", userId).single()`: an
      error, no row, a row with its role string, or an exception. */
  datatype ProfileLookup = LookupError | NoRow | RoleRow(role: string) | LookupThrew

  /** `checkAdminStatus`: admin only when the lookup found a row whose role is
      exactly "admin"; an error, a missing row or an exception all deny. */
  function CheckAdminStatus(l: ProfileLookup): (isAdmin: bool)
    ensures isAdmin <==> l == RoleRow("admin")
  {
    match l
    case RoleRow(role) => role == "admin"
    case _ => false
  }

  /** The answer of `auth.getSession()`: an error (returned or thrown), or the
      current session, which may be null. */
  datatype SessionFetch = SessionError | GotSession(session: Option<Session>)

  /** The answer of `auth.signInWithPassword`. */
  datatype SignInOutcome = SignInError | SignedIn(user: Option<User>)

  /** The four fields the store publishes. */
  datatype AuthState = AuthState(session: Option<Session>, user: Option<User>, loading: bool, isAdmin: bool)

  /** `useState` initial values: no session, no user, loading, not admin. */
  const Initial: AuthState := AuthState(None, None, true, false)

  /** The published user is the published session's user. */
  predicate UserMatchesSession(s: AuthState) {
    s.user == UserOf(s.session)
  }

  /** `getInitialSession`, once the session fetch has answered. On an error the
      session and user are left as they were; otherwise both are taken from the
      fetched session. The admin flag is recomputed only when the session
      carries a user id. Loading ends false on every path. */
  function InitialLoaded(s: AuthState, fetch: SessionFetch, l: ProfileLookup): (r: AuthState)
    ensures !r.loading
    ensures fetch.SessionError? ==> r == s.(loading := false)
    ensures fetch.GotSession? ==> r.session == fetch.session && UserMatchesSession(r)
    ensures r.isAdmin != s.isAdmin ==> fetch.GotSession? && HasUserId(fetch.session)
    ensures fetch.GotSession? && HasUserId(fetch.session) ==> (r.isAdmin <==> l == RoleRow("admin"))
  {
    match fetch
    case SessionError => s.(loading := false)
    case GotSession(ns) =>
      AuthState(ns, UserOf(ns), false, if HasUserId(ns) then CheckAdminStatus(l) else s.isAdmin)
  }

  /** The `onAuthStateChange` handler: the new session and its user are
      published, the admin flag is the role check for that user (false when
      there is no user id), and loading ends false. Nothing of the old state
      survives. */
  function AuthChanged(s: AuthState, ns: Option<Session>, l: ProfileLookup): (r: AuthState)
    ensures r.session == ns && UserMatchesSession(r)
    ensures !r.loading
    ensures !HasUserId(ns) ==> !r.isAdmin
    ensures r.isAdmin <==> HasUserId(ns) && l == RoleRow("admin")
  {
    AuthState(ns, UserOf(ns), false, HasUserId(ns) && CheckAdminStatus(l))
  }

  /** `signIn`, once the provider has answered. It never fails outward: an
      error is only reported. Session and user are left to the change
      notification; the admin flag is updated only on a success that names a
      user; loading ends false. */
  function SignInDone(s: AuthState, o: SignInOutcome, l: ProfileLookup): (r: AuthState)
    ensures !r.loading
    ensures r.session == s.session && r.user == s.user
    ensures !(o.SignedIn? && o.user.Some?) ==> r == s.(loading := false)
    ensures o.SignedIn? && o.user.Some? ==> (r.isAdmin <==> l == RoleRow("admin"))
  {
    if o.SignedIn? && o.user.Some? then s.(loading := false, isAdmin := CheckAdminStatus(l))
    else s.(loading := false)
  }

  /** `signOut`, once the provider has answered: on success user, session and
      admin flag are cleared at once; on failure they stay as they were. Loading
      ends false either way. */
  function SignOutDone(s: AuthState, st: Status): (r: AuthState)
    ensures !r.loading
    ensures st == Success ==> r.session.None? && r.user.None? && !r.isAdmin
    ensures st == Failure ==> r == s.(loading := false)
  {
    if st == Success then AuthState(None, None, false, false) else s.(loading := false)
  }

  /** One handler run, with the backend answers it received. */
  datatype Event =
    | InitialLoad(fetch: SessionFetch, lookup: ProfileLookup)
    | AuthChange(session: Option<Session>, lookup: ProfileLookup)
    | SignInAttempt(outcome: SignInOutcome, lookup: ProfileLookup)
    | SignOutAttempt(status: Status)

  function Step(s: AuthState, e: Event): AuthState {
    match e
    case InitialLoad(fetch, l) => InitialLoaded(s, fetch, l)
    case AuthChange(ns, l) => AuthChanged(s, ns, l)
    case SignInAttempt(o, l) => SignInDone(s, o, l)
    case SignOutAttempt(st) => SignOutDone(s, st)
  }

  /** The store after a sequence of handler runs, each run to completion. */
  function Run(s: AuthState, es: seq<Event>): AuthState
    decreases |es|
  {
    if es == [] then s else Run(Step(s, es[0]), es[1..])
  }

  /** The event carries a profile lookup that answered "admin". */
  predicate GrantsAdmin(e: Event) {
    match e
    case InitialLoad(_, l) => l == RoleRow("admin")
    case AuthChange(_, l) => l == RoleRow("admin")
    case SignInAttempt(_, l) => l == RoleRow("admin")
    case SignOutAttempt(_) => false
  }

  /** Whatever handlers run, the published user stays the published session's
      user. */
  lemma {:induction false} RunKeepsUserMatched(s: AuthState, es: seq<Event>)
    requires UserMatchesSession(s)
    ensures UserMatchesSession(Run(s, es))
    decreases |es|
  {
    if es != [] {
      RunKeepsUserMatched(Step(s, es[0]), es[1..]);
    }
  }

  /** Deny by default: unless some profile lookup answered "admin", no sequence
      of handler runs makes a non-admin store admin. */
  lemma {:induction false} RunDeniesWithoutAdminRow(s: AuthState, es: seq<Event>)
    requires !s.isAdmin
    requires forall i :: 0 <= i < |es| ==> !GrantsAdmin(es[i])
    ensures !Run(s, es).isAdmin
    decreases |es|
  {
    if es != [] {
      var e := es[0];
      assert !GrantsAdmin(e);
      assert !Step(s, e).isAdmin;
      RunDeniesWithoutAdminRow(Step(s, e), es[1..]);
    }
  }

  /** Once any handler has run to completion, the store is no longer loading. */
  lemma {:induction false} RunSettles(s: AuthState, es: seq<Event>)
    requires es != []
    ensures !Run(s, es).loading
    decreases |es|
  {
    if |es| > 1 {
      RunSettles(Step(s, es[0]), es[1..]);
    }
  }

  /** A successful sign-in sets the admin flag before the change notification
      publishes the user: for that moment an admin flag is set with no user. */
  lemma SignInPublishesAdminBeforeUser(u: User)
    ensures var r := SignInDone(Initial, SignedIn(Some(u)), RoleRow("admin"));
            r.isAdmin && r.user.None?
  {
  }

  /** The store itself, with the four state fields its handlers set one by
      one. */
  class AuthStore {
    var session: Option<Session>
    var user: Option<User>
    var loading: bool
    var isAdmin: bool

    function State(): AuthState
      reads this
    {
      AuthState(session, user, loading, isAdmin)
    }

    constructor ()
      ensures State() == Initial
    {
      session := None;
      user := None;
      loading := true;
      isAdmin := false;
    }

    /** `getInitialSession` after the session fetch and, when there is a user
        id, the role lookup have answered. */
    method GetInitialSession(fetch: SessionFetch, l: ProfileLookup)
      modifies this
      ensures State() == InitialLoaded(old(State()), fetch, l)
    {
      loading := true;
      match fetch {
        case SessionError =>
          loading := false;
        case GotSession(ns) =>
          session := ns;
          user := UserOf(ns);
          if HasUserId(ns) {
            isAdmin := CheckAdminStatus(l);
          }
      }
      loading := false;
    }

    /** The auth-change handler for a notification carrying `ns`. */
    method OnAuthStateChange(ns: Option<Session>, l: ProfileLookup)
      modifies this
      ensures State() == AuthChanged(old(State()), ns, l)
    {
      session := ns;
      user := UserOf(ns);
      loading := true;
      if HasUserId(ns) {
        isAdmin := CheckAdminStatus(l);
      } else {
        isAdmin := false;
      }
      loading := false;
    }

    /** `signIn(email, password)`; the credentials reach only the provider,
        whose answer is `o`. */
    method SignIn(o: SignInOutcome, l: ProfileLookup)
      modifies this
      ensures State() == SignInDone(old(State()), o, l)
    {
      loading := true;
      if o.SignedIn? && o.user.Some? {
        isAdmin := CheckAdminStatus(l);
      }
      loading := false;
    }

    /** `signOut()`; on success the page is sent to the home route. */
    method SignOut(st: Status) returns (redirect: Option<string>)
      modifies this
      ensures State() == SignOutDone(old(State()), st)
      ensures redirect == if st == Success then Some(Views.HomeRoute) else None
    {
      loading := true;
      if st == Success {
        user := None;
        session := None;
        isAdmin := false;
        redirect := Some(Views.HomeRoute);
      } else {
        redirect := None;
      }
      loading := false;
    }
  }
}
