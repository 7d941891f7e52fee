/** The authentication context: the `session`, `user` and `loading` cells and the events
    that change them (start-up session lookup, the session-change notification, profile
    resolution, login, register, logout), with the pure queries over them.
    Every answer of the hosted backend is a parameter. */
module Auth {
  import opened Common

  datatype Role = Admin | Client

  /** The role name the profile carries and that `hasRole` compares against. */
  function RoleName(r: Role): string {
    match r
    case Admin => "admin"
    case Client => "client"
  }

  /** The profile published in `user`. */
  datatype Profile = Profile(id: string, name: string, email: Option<string>, phone: string, role: Role)

  /** The identity record a session carries (`session.user`), with its metadata. */
  datatype AuthUser = AuthUser(id: string, email: Option<string>, metadataName: Option<string>, metadataPhone: Option<string>)

  /** A session as the backend hands it over; its `user` may be missing. */
  datatype Session = Session(user: Option<AuthUser>)

  /** A row of the `users` table as the profile query selects it. */
  datatype UserRow = UserRow(id: string, name: Option<string>, email: Option<string>, phone: Option<string>, roleId: Option<int>)

  /** What the `users` query by id gave back: a row, no row, an error result, or an exception. */
  datatype ProfileLookup = RowFound(row: UserRow) | NoRow | QueryFailed(message: string) | QueryThrew

  /** What the start-up `getSession` call gave back. */
  datatype SessionLookup = SessionOk(session: Option<Session>) | SessionFailed(message: string) | SessionThrew

  /** The backend's answer to a password sign-in. */
  datatype SignInOutcome = SignedIn | SignInFailed(message: string) | SignInThrew

  /** The backend's answer to a sign-up: an error, an identity record (possibly without user), or an exception. */
  datatype SignUpOutcome = SignedUp(userId: Option<string>) | SignUpFailed(message: string) | SignUpThrew

  /** The backend's answer to the profile-row insert that follows a sign-up. */
  datatype InsertOutcome = Inserted | InsertFailed(message: string) | InsertThrew

  /** The backend's answer to a sign-out. */
  datatype SignOutOutcome = SignedOut | SignOutFailed(message: string) | SignOutThrew

  /** The result record `login` and `register` hand back to their caller. */
  datatype CallResult = Success | Failure(error: string)

  /** The form data the registration page passes to `register`. */
  datatype RegisterForm = RegisterForm(name: string, email: string, phone: string, password: string, confirmPassword: string)

  /** The credentials sent to the sign-in call. */
  datatype SignInRequest = SignInRequest(email: string, password: string)

  /** The request sent to the sign-up call: credentials and the metadata `name` and `phone`. */
  datatype SignUpRequest = SignUpRequest(email: string, password: string, name: string, phone: string)

  /** The row `register` inserts into the `users` table. */
  datatype UserInsert = UserInsert(id: string, name: string, email: string, phone: string, roleId: int)

  const DefaultName := "Usuario"
  const FallbackEmail := "usuario@example.com"
  const UnexpectedLoginError := "Error inesperado durante el login"
  const UnexpectedRegisterError := "Error inesperado durante el registro"
  /** The `role_id` that `register` gives every new profile row. */
  const ClientRoleId := 2

  /** The value of the three state cells. */
  datatype AuthState = AuthState(session: Option<Session>, user: Option<Profile>, loading: bool)

  /** The cells as the provider starts: no session, no user, loading. */
  function Initial(): (st: AuthState)
    ensures st.loading && st.session.None? && st.user.None?
  {
    AuthState(None, None, true)
  }

  /** `session?.user`. */
  function SessionUser(s: Option<Session>): (u: Option<AuthUser>)
    ensures u.Some? <==> s.Some? && s.value.user.Some?
    ensures u.Some? ==> u == s.value.user
  {
    if s.Some? then s.value.user else None
  }

  /** The display name chosen for a profile: the first truthy of the given name,
      the part of the email before `@`, and "Usuario". */
  function DisplayName(name: Option<string>, email: Option<string>): (r: string)
    ensures r != ""
    ensures Truthy(name) ==> r == name.value
    ensures !Truthy(name) && email.Some? && BeforeFirst(email.value, '@') != "" ==> r == BeforeFirst(email.value, '@')
    ensures !Truthy(name) && (email.None? || BeforeFirst(email.value, '@') == "") ==> r == DefaultName
  {
    var prefix := if email.Some? then Some(BeforeFirst(email.value, '@')) else None;
    OrElse(name, OrElse(prefix, DefaultName))
  }

  /** The minimal profile published as soon as a session with a user arrives. */
  function ImmediateProfile(u: AuthUser): (p: Profile)
    ensures p.id == u.id && p.role == Client && p.email == u.email
    ensures p.name == DisplayName(u.metadataName, u.email)
    ensures p.phone == OrElse(u.metadataPhone, "")
  {
    Profile(u.id, DisplayName(u.metadataName, u.email), u.email, OrElse(u.metadataPhone, ""), Client)
  }

  /** The role a `role_id` stands for: 1 is admin, anything else (2, other numbers, null) is client. */
  function RoleForId(roleId: Option<int>): (r: Role)
    ensures r == Admin <==> roleId == Some(1)
  {
    if roleId == Some(1) then Admin
    else if roleId == Some(2) then Client
    else Client
  }

  /** The profile built from a `users` row. */
  function ProfileFromRow(row: UserRow): (p: Profile)
    ensures p.id == row.id && p.email == row.email
    ensures p.role == Admin <==> row.roleId == Some(1)
    ensures p.name == DisplayName(row.name, row.email) && p.name != ""
    ensures p.phone == OrElse(row.phone, "")
  {
    Profile(row.id, DisplayName(row.name, row.email), row.email, OrElse(row.phone, ""), RoleForId(row.roleId))
  }

  /** The default profile used when no row could be read. */
  function FallbackProfile(userId: string): (p: Profile)
    ensures p.id == userId && p.role == Client && p.name == DefaultName
    ensures p.email == Some(FallbackEmail) && p.phone == ""
  {
    Profile(userId, DefaultName, Some(FallbackEmail), "", Client)
  }

  /** The profile `fetchUserProfile` settles on: the row's when one was read, the fallback otherwise. */
  function ResolveProfile(userId: string, lookup: ProfileLookup): (p: Profile)
    ensures lookup.RowFound? ==> p == ProfileFromRow(lookup.row)
    ensures !lookup.RowFound? ==> p == FallbackProfile(userId)
    ensures p.role == Admin <==> lookup.RowFound? && lookup.row.roleId == Some(1)
  {
    match lookup
    case RowFound(row) => ProfileFromRow(row)
    case _ => FallbackProfile(userId)
  }

  /** `hasRole(roleName)`: `user?.role === roleName`. */
  function HasRoleOf(user: Option<Profile>, roleName: string): (b: bool)
    ensures b <==> user.Some? && RoleName(user.value.role) == roleName
    ensures b ==> roleName == "admin" || roleName == "client"
  {
    user.Some? && RoleName(user.value.role) == roleName
  }

  /** `isAuthenticated()`: both a session and a user are present. */
  function IsAuthenticatedOf(st: AuthState): (b: bool)
    ensures b <==> st.session.Some? && st.user.Some?
  {
    st.session.Some? && st.user.Some?
  }

  /** The invariant the events keep: a session that carries a user always has a published profile. */
  predicate SessionHasProfile(st: AuthState) {
    SessionUser(st.session).Some? ==> st.user.Some?
  }

  // ---------------------------------------------------------------------------
  // The events, as functions from the old cell values to the new ones.

  /** The session-change handler: store the session, publish the minimal profile or clear `user`, stop loading. */
  function AfterSessionChange(st: AuthState, s: Option<Session>): (r: AuthState)
    ensures r.session == s && !r.loading
    ensures r.user.Some? <==> SessionUser(s).Some?
    ensures SessionUser(s).Some? ==> r.user == Some(ImmediateProfile(SessionUser(s).value))
    ensures SessionHasProfile(r)
  {
    var u := SessionUser(s);
    AuthState(s, if u.Some? then Some(ImmediateProfile(u.value)) else None, false)
  }

  /** `fetchUserProfile(userId)` settling: only `user` changes, and it is never left empty. */
  function AfterProfileFetched(st: AuthState, userId: string, lookup: ProfileLookup): (r: AuthState)
    ensures r.session == st.session && r.loading == st.loading
    ensures r.user == Some(ResolveProfile(userId, lookup))
    ensures !lookup.RowFound? ==> r.user.value.id == userId
    ensures SessionHasProfile(r)
  {
    st.(user := Some(ResolveProfile(userId, lookup)))
  }

  /** The start-up lookup: on an error or exception only `loading` changes; otherwise the session is
      stored and, when it carries a user, that user's profile is resolved. `loading` always ends false. */
  function AfterGetSession(st: AuthState, lookup: SessionLookup, profile: ProfileLookup): (r: AuthState)
    ensures !r.loading
    ensures !lookup.SessionOk? ==> r.session == st.session && r.user == st.user
    ensures lookup.SessionOk? ==> r.session == lookup.session
    ensures lookup.SessionOk? && SessionUser(lookup.session).Some? ==>
      r.user == Some(ResolveProfile(SessionUser(lookup.session).value.id, profile))
    ensures lookup.SessionOk? && SessionUser(lookup.session).None? ==> r.user == st.user
    ensures SessionHasProfile(st) ==> SessionHasProfile(r)
  {
    match lookup
    case SessionOk(s) =>
      var u := SessionUser(s);
      var withSession := st.(session := s);
      var resolved := if u.Some? then AfterProfileFetched(withSession, u.value.id, profile) else withSession;
      resolved.(loading := false)
    case _ => st.(loading := false)
  }

  /** `login` or `register` settling: `loading` went true and back to false; nothing else changed. */
  function AfterCall(st: AuthState): (r: AuthState)
    ensures r.session == st.session && r.user == st.user && !r.loading
  {
    st.(loading := false)
  }

  /** The result `login` returns for the backend's answer. */
  function LoginResult(outcome: SignInOutcome): (r: CallResult)
    ensures r.Success? <==> outcome.SignedIn?
    ensures outcome.SignInFailed? ==> r == Failure(outcome.message)
    ensures outcome.SignInThrew? ==> r == Failure(UnexpectedLoginError)
  {
    match outcome
    case SignedIn => Success
    case SignInFailed(m) => Failure(m)
    case SignInThrew => Failure(UnexpectedLoginError)
  }

  /** Whether `register` attempts the profile insert, and with which id. */
  function ProfileInsert(form: RegisterForm, signUp: SignUpOutcome): (r: Option<UserInsert>)
    ensures r.Some? <==> signUp.SignedUp? && signUp.userId.Some?
    ensures r.Some? ==> r.value.id == signUp.userId.value && r.value.roleId == ClientRoleId
    ensures r.Some? ==> r.value.name == form.name && r.value.email == form.email && r.value.phone == form.phone
  {
    if signUp.SignedUp? && signUp.userId.Some? then
      Some(UserInsert(signUp.userId.value, form.name, form.email, form.phone, ClientRoleId))
    else None
  }

  /** The result `register` returns: failure only for a sign-up error or an exception
      (of the sign-up or of the insert); an insert that reports an error still succeeds. */
  function RegisterResult(signUp: SignUpOutcome, insert: InsertOutcome): (r: CallResult)
    ensures r.Failure? <==> signUp.SignUpFailed? || signUp.SignUpThrew?
                            || (signUp.SignedUp? && signUp.userId.Some? && insert.InsertThrew?)
    ensures signUp.SignUpFailed? ==> r == Failure(signUp.message)
    ensures r.Failure? && !signUp.SignUpFailed? ==> r == Failure(UnexpectedRegisterError)
  {
    match signUp
    case SignUpFailed(m) => Failure(m)
    case SignUpThrew => Failure(UnexpectedRegisterError)
    case SignedUp(userId) =>
      if userId.Some? && insert.InsertThrew? then Failure(UnexpectedRegisterError) else Success
  }

  /** An identity created by the backend makes registration succeed even when the profile row is refused. */
  lemma ProfileRowErrorStillSucceeds(userId: Option<string>, message: string)
    ensures RegisterResult(SignedUp(userId), InsertFailed(message)) == Success
  {
  }

  // ---------------------------------------------------------------------------
  // Sequences of events.

  /** One observable event of the provider. */
  datatype AuthEvent =
    | SessionRestored(lookup: SessionLookup, profile: ProfileLookup)
    | SessionChanged(session: Option<Session>)
    | ProfileFetched(userId: string, profileLookup: ProfileLookup)
    | CallSettled
    | LogoutRequested

  function Step(st: AuthState, e: AuthEvent): AuthState {
    match e
    case SessionRestored(lookup, profile) => AfterGetSession(st, lookup, profile)
    case SessionChanged(s) => AfterSessionChange(st, s)
    case ProfileFetched(userId, lookup) => AfterProfileFetched(st, userId, lookup)
    case CallSettled => AfterCall(st)
    case LogoutRequested => st
  }

  /** The cells after the events `evs`, in order. */
  function Run(st: AuthState, evs: seq<AuthEvent>): AuthState
    decreases |evs|
  {
    if evs == [] then st else Run(Step(st, evs[0]), evs[1..])
  }

  lemma {:induction false} RunAppend(st: AuthState, a: seq<AuthEvent>, b: seq<AuthEvent>)
    ensures Run(st, a + b) == Run(Run(st, a), b)
    decreases |a|
  {
    if a == [] {
      assert a + b == b;
    } else {
      assert (a + b)[1..] == a[1..] + b;
      RunAppend(Step(st, a[0]), a[1..], b);
    }
  }

  /** Every event keeps "a session with a user has a profile". */
  lemma StepKeepsSessionProfile(st: AuthState, e: AuthEvent)
    requires SessionHasProfile(st)
    ensures SessionHasProfile(Step(st, e))
  {
  }

  /** From start-up on, a session with a user is never left without a published profile. */
  lemma {:induction false} RunKeepsSessionProfile(st: AuthState, evs: seq<AuthEvent>)
    requires SessionHasProfile(st)
    ensures SessionHasProfile(Run(st, evs))
    decreases |evs|
  {
    if evs != [] {
      StepKeepsSessionProfile(st, evs[0]);
      RunKeepsSessionProfile(Step(st, evs[0]), evs[1..]);
    }
  }

  /** No single settled event raises `loading`: the session events and `CallSettled` clear it,
      and a profile fetch or a logout request leaves it as it was. */
  lemma StepKeepsLoadingCleared(st: AuthState, e: AuthEvent)
    requires !st.loading
    ensures !Step(st, e).loading
  {
  }

  /** Once `loading` is false no event makes it true again. */
  lemma {:induction false} LoadingStaysCleared(st: AuthState, evs: seq<AuthEvent>)
    requires !st.loading
    ensures !Run(st, evs).loading
    decreases |evs|
  {
    if evs != [] {
      StepKeepsLoadingCleared(st, evs[0]);
      LoadingStaysCleared(Step(st, evs[0]), evs[1..]);
    }
  }

  /** Start-up never stays in `loading`: after the session lookup, whatever it answered, and any later events, `loading` is false. */
  lemma StartupEndsLoading(lookup: SessionLookup, profile: ProfileLookup, later: seq<AuthEvent>)
    ensures !Run(Initial(), [SessionRestored(lookup, profile)] + later).loading
  {
    var first := [SessionRestored(lookup, profile)];
    RunAppend(Initial(), first, later);
    LoadingStaysCleared(Run(Initial(), first), later);
  }

  /** Whatever happened before, a sign-out notification leaves no session, no user and no loading. */
  lemma SignOutClearsState(st: AuthState, before: seq<AuthEvent>)
    ensures Run(st, before + [SessionChanged(None)]) == AuthState(None, None, false)
    ensures !IsAuthenticatedOf(Run(st, before + [SessionChanged(None)]))
  {
    RunAppend(st, before, [SessionChanged(None)]);
  }

  /** The code has no ordering guard: a profile fetch that settles after the sign-out publishes a user
      again, although the state stays unauthenticated because the session is gone. */
  lemma StaleProfileAfterSignOut(st: AuthState, userId: string, lookup: ProfileLookup)
    ensures var r := Run(st, [SessionChanged(None), ProfileFetched(userId, lookup)]);
      r.user.Some? && r.session.None? && !IsAuthenticatedOf(r)
  {
    var evs := [SessionChanged(None), ProfileFetched(userId, lookup)];
    var signedOut := Step(st, evs[0]);
    assert evs[1..] == [ProfileFetched(userId, lookup)];
    assert Run(st, evs) == Run(signedOut, evs[1..]);
    assert Run(signedOut, evs[1..]) == Run(Step(signedOut, evs[1]), []);
  }

  /** An event that can publish an admin profile: a profile resolution that read a row whose `role_id` is 1. */
  predicate GrantsAdmin(e: AuthEvent) {
    (e.SessionRestored? && e.lookup.SessionOk? && SessionUser(e.lookup.session).Some?
      && e.profile.RowFound? && e.profile.row.roleId == Some(1))
    || (e.ProfileFetched? && e.profileLookup.RowFound? && e.profileLookup.row.roleId == Some(1))
  }

  predicate IsAdminState(st: AuthState) {
    st.user.Some? && st.user.value.role == Admin
  }

  /** No admin profile appears unless some event read a `users` row with `role_id` 1. */
  lemma {:induction false} AdminOnlyFromRoleIdOne(st: AuthState, evs: seq<AuthEvent>)
    requires !IsAdminState(st)
    requires forall i :: 0 <= i < |evs| ==> !GrantsAdmin(evs[i])
    ensures !IsAdminState(Run(st, evs))
    decreases |evs|
  {
    if evs != [] {
      var e := evs[0];
      assert !GrantsAdmin(e);
      assert !IsAdminState(Step(st, e));
      AdminOnlyFromRoleIdOne(Step(st, e), evs[1..]);
    }
  }

  // ---------------------------------------------------------------------------
  // The provider object.

  class AuthProvider {
    var session: Option<Session>
    var user: Option<Profile>
    var loading: bool

    function State(): AuthState
      reads this
    {
      AuthState(session, user, loading)
    }

    predicate Valid()
      reads this
    {
      SessionHasProfile(State())
    }

    constructor ()
      ensures State() == Initial() && Valid()
    {
      session := None;
      user := None;
      loading := true;
    }

    /** Start-up: ask the backend for the current session and resolve its user's profile. */
    method GetSession(lookup: SessionLookup, profile: ProfileLookup)
      requires Valid()
      modifies this
      ensures Valid()
      ensures State() == AfterGetSession(old(State()), lookup, profile)
    {
      if lookup.SessionFailed? {
        // set by the early return, and again by the `finally` block
        loading := false;
        return;
      }
      if lookup.SessionOk? {
        session := lookup.session;
        var u := SessionUser(session);
        if u.Some? {
          FetchUserProfile(u.value.id, profile);
        }
      }
      loading := false;
    }

    /** The session-change handler. The full profile is fetched in the background; its
        completion is the separate event `FetchUserProfile`. */
    method OnAuthStateChange(s: Option<Session>)
      modifies this
      ensures Valid()
      ensures State() == AfterSessionChange(old(State()), s)
    {
      session := s;
      var u := SessionUser(s);
      if u.Some? {
        user := Some(ImmediateProfile(u.value));
      } else {
        user := None;
      }
      loading := false;
    }

    /** `fetchUserProfile(userId)`: read the `users` row and publish the profile, or the fallback. */
    method FetchUserProfile(userId: string, lookup: ProfileLookup)
      modifies this`user
      ensures Valid()
      ensures State() == AfterProfileFetched(old(State()), userId, lookup)
    {
      if lookup.RowFound? {
        user := Some(ProfileFromRow(lookup.row));
        return;
      }
      user := Some(FallbackProfile(userId));
    }

    /** `login(email, password)`: sends the trimmed email, reports the result, never assigns `user`. */
    method Login(email: string, password: string, outcome: SignInOutcome) returns (r: CallResult, request: SignInRequest)
      modifies this`loading
      ensures State() == AfterCall(old(State()))
      ensures old(Valid()) ==> Valid()
      ensures request == SignInRequest(Trim(email), password)
      ensures r == LoginResult(outcome)
    {
      loading := true;
      request := SignInRequest(Trim(email), password);
      match outcome {
        case SignInFailed(m) => r := Failure(m);
        case SignedIn => r := Success;
        case SignInThrew => r := Failure(UnexpectedLoginError);
      }
      loading := false;
    }

    /** `register(form)`: signs up with the untrimmed email and the name/phone metadata, then
        inserts the client profile row; never assigns `user`. */
    method Register(form: RegisterForm, signUp: SignUpOutcome, insert: InsertOutcome)
      returns (r: CallResult, request: SignUpRequest, row: Option<UserInsert>)
      modifies this`loading
      ensures State() == AfterCall(old(State()))
      ensures old(Valid()) ==> Valid()
      ensures request == SignUpRequest(form.email, form.password, form.name, form.phone)
      ensures row == ProfileInsert(form, signUp)
      ensures r == RegisterResult(signUp, insert)
    {
      loading := true;
      request := SignUpRequest(form.email, form.password, form.name, form.phone);
      row := None;
      match signUp {
        case SignUpFailed(m) =>
          r := Failure(m);
        case SignUpThrew =>
          r := Failure(UnexpectedRegisterError);
        case SignedUp(userId) =>
          if userId.Some? {
            row := Some(UserInsert(userId.value, form.name, form.email, form.phone, ClientRoleId));
            if insert.InsertThrew? {
              r := Failure(UnexpectedRegisterError);
            } else {
              // a refused insert is only logged
              r := Success;
            }
          } else {
            r := Success;
          }
      }
      loading := false;
    }

    /** `logout()`: asks the backend to end the session; the cells change only through the
        session-change notification that follows. */
    method Logout(outcome: SignOutOutcome)
      ensures State() == old(State())
    {
    }

    function HasRole(roleName: string): (b: bool)
      reads this
      ensures b <==> user.Some? && RoleName(user.value.role) == roleName
    {
      HasRoleOf(user, roleName)
    }

    function IsAuthenticated(): (b: bool)
      reads this
      ensures b <==> session.Some? && user.Some?
    {
      IsAuthenticatedOf(State())
    }

    function IsAdmin(): (b: bool)
      reads this
      ensures b <==> user.Some? && user.value.role == Admin
    {
      HasRole("admin")
    }

    function IsClient(): (b: bool)
      reads this
      ensures b <==> user.Some? && user.value.role == Client
    {
      HasRole("client")
    }
  }
}
