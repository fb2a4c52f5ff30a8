/**
 * The auth context the application mounts (`AuthProvider` / `useAuth`): a
 * state of session, user, profile and loading flag, changed by provider
 * auth events, by the one-off session restore, and by sign-out. The profile
 * fetch an auth event schedules with `setTimeout` is its own transition, so
 * that a fetch landing after later events can be expressed. Provider and
 * storage calls appear only as their outcomes.
 */
module Auth {
  import opened Wrappers
  import opened Text
  import opened Profiles

  /** The provider's auth-change events. */
  datatype AuthEvent =
    | InitialSession | SignedIn | SignedOut | TokenRefreshed | UserUpdated | PasswordRecovery

  datatype AuthState = AuthState(
    session: Option<Session>,
    user: Option<User>,
    profile: Option<Profile>,
    loading: bool)

  /** The context before anything is known: loading, nobody signed in. */
  const Initial: AuthState := AuthState(None, None, None, true)

  /** The user is the session's user: every write sets the two together. */
  predicate Coherent(s: AuthState) {
    s.user == SessionUser(s.session)
  }

  /** What a read of one `usuarios` row can come back with. */
  datatype FetchOutcome =
    | QueryFailed(code: Option<string>)   // the client reported an error
    | QueryThrew                          // the call itself threw
    | QueryReturned(row: Option<Profile>) // no error; the row, if any

  /** PostgREST's code for "the single row asked for does not exist". */
  const NotFoundCode: string := "PGRST116"

  /** The profile the fetch yields and whether it shows the "profile not found" notice. */
  datatype ProfileLookup = ProfileLookup(profile: Option<Profile>, notFoundNotice: bool)

  /** `fetchUserProfile`: any error gives no profile; a returned row is kept even when inactive. */
  function FetchUserProfile(outcome: FetchOutcome): (r: ProfileLookup)
    ensures r.profile.Some? <==> outcome.QueryReturned? && outcome.row.Some?
    ensures outcome.QueryReturned? ==> r.profile == outcome.row
    ensures r.notFoundNotice <==> outcome == QueryFailed(Some(NotFoundCode))
  {
    match outcome
    case QueryFailed(code) => ProfileLookup(None, code == Some(NotFoundCode))
    case QueryThrew => ProfileLookup(None, false)
    case QueryReturned(row) => ProfileLookup(row, false)
  }

  /**
   * `redirectUserBasedOnRole(role, clienteId, igrejaId)`; the `default`
   * branch goes to the landing page.
   */
  function RedirectForRole(role: string, clienteId: Option<string>, igrejaId: Option<string>): (path: string)
    ensures ParseRole(role).Unrecognised? <==> path == "/"
    ensures path != "/login"
  {
    assert ChurchPrefix[1] == 'c';
    RoleHome(role, igrejaId, "/")
  }

  /** The customer id is passed along but never read. */
  lemma RedirectIgnoresClienteId(role: string, c1: Option<string>, c2: Option<string>, igrejaId: Option<string>)
    ensures RedirectForRole(role, c1, igrejaId) == RedirectForRole(role, c2, igrejaId)
    ensures ParseRole(role).Unrecognised? ==> RedirectForRole(role, c1, igrejaId) == "/"
  {
  }

  /** A transition's result: the new state and the navigation it performs. */
  datatype Step = Step(state: AuthState, navigate: Option<string>)

  /**
   * The synchronous part of the auth-change listener: record the session and
   * its user, clear the profile when there is no user, and stop loading. With
   * a user the profile is left for the deferred fetch.
   */
  function OnAuthStateChange(s: AuthState, event: AuthEvent, session: Option<Session>): (r: AuthState)
    ensures r.session == session && Coherent(r)
    ensures !r.loading
    ensures SessionUser(session).None? ==> r.profile.None?
    ensures SessionUser(session).Some? ==> r.profile == s.profile
  {
    var user := SessionUser(session);
    AuthState(session, user, if user.Some? then s.profile else None, false)
  }

  /**
   * The deferred part: store the fetched profile (or clear it), and redirect
   * by role only for a `SIGNED_IN` event that produced a profile.
   */
  function OnProfileFetched(s: AuthState, event: AuthEvent, outcome: FetchOutcome): (r: Step)
    ensures r.state.profile == FetchUserProfile(outcome).profile
    ensures r.state.session == s.session && r.state.user == s.user && r.state.loading == s.loading
    ensures r.navigate.Some? <==> event == SignedIn && r.state.profile.Some?
    ensures r.navigate.Some? ==>
      r.navigate.value == RoleHome(r.state.profile.value.role, r.state.profile.value.igrejaId, "/")
  {
    var lookup := FetchUserProfile(outcome);
    match lookup.profile
    case Some(p) =>
      Step(s.(profile := Some(p)),
           if event == SignedIn then Some(RedirectForRole(p.role, p.clienteId, p.igrejaId)) else None)
    case None => Step(s.(profile := None), None)
  }

  /** An auth event handled to completion, its profile fetch included. */
  function HandleAuthEvent(s: AuthState, event: AuthEvent, session: Option<Session>, outcome: FetchOutcome): (r: Step)
    ensures r.state.session == session && Coherent(r.state) && !r.state.loading
    ensures SessionUser(session).None? ==> r.state.profile.None? && r.navigate.None?
    ensures SessionUser(session).Some? ==> r.state.profile == FetchUserProfile(outcome).profile
    ensures r.navigate.Some? ==> event == SignedIn
  {
    var mid := OnAuthStateChange(s, event, session);
    if SessionUser(session).Some? then OnProfileFetched(mid, event, outcome) else Step(mid, None)
  }

  /** What `getSession` settles with; a rejection has no handler. */
  datatype RestoreOutcome = Restored(session: Option<Session>) | RestoreRejected

  /**
   * The session restore at mount. A missing profile leaves the previous one
   * in place; nothing happens at all when the promise rejects, so loading
   * stays on.
   */
  function OnGetSession(s: AuthState, restore: RestoreOutcome, outcome: FetchOutcome): (r: AuthState)
    ensures restore.RestoreRejected? ==> r == s
    ensures restore.Restored? ==> r.session == restore.session && Coherent(r) && !r.loading
    ensures (restore.Restored? && SessionUser(restore.session).Some?
             && FetchUserProfile(outcome).profile.Some?) ==> r.profile == FetchUserProfile(outcome).profile
    ensures (restore.Restored? && (SessionUser(restore.session).None?
             || FetchUserProfile(outcome).profile.None?)) ==> r.profile == s.profile
  {
    match restore
    case RestoreRejected => s
    case Restored(session) =>
      var user := SessionUser(session);
      var profile :=
        if user.Some? && FetchUserProfile(outcome).profile.Some? then FetchUserProfile(outcome).profile
        else s.profile;
      AuthState(session, user, profile, false)
  }

  /** What the provider's sign-in call gives back. */
  datatype SignInOutcome = SignInRejected(message: string) | SignInAccepted | SignInThrew

  /** `signIn`'s visible effect: whether it returns an error, and the toast it shows. */
  datatype SignInResult = SignInResult(failed: bool, toast: Option<string>)

  const InvalidCredentialsText: string := "Email ou senha incorretos"
  const UnconfirmedText: string := "Email não confirmado. Verifique sua caixa de entrada."
  const UnexpectedSignInText: string := "Ocorreu um erro inesperado. Tente novamente."

  /** The toast text for a rejected sign-in: two known cases, otherwise the provider's text. */
  function SignInErrorText(message: string): (text: string)
    ensures Contains(message, "Invalid login credentials") ==> text == InvalidCredentialsText
    ensures !Contains(message, "Invalid login credentials") && Contains(message, "Email not confirmed") ==>
      text == UnconfirmedText
    ensures !Contains(message, "Invalid login credentials") && !Contains(message, "Email not confirmed") ==>
      text == message
    ensures text != message ==> text in {InvalidCredentialsText, UnconfirmedText}
  {
    if Contains(message, "Invalid login credentials") then InvalidCredentialsText
    else if Contains(message, "Email not confirmed") then UnconfirmedText
    else message
  }

  /**
   * `signIn`. It takes no state and returns none: the session reaches the
   * context only through the auth event the provider emits afterwards.
   */
  function SignIn(outcome: SignInOutcome): (r: SignInResult)
    ensures !r.failed <==> outcome == SignInAccepted
    ensures r.failed <==> r.toast.Some?
    ensures outcome.SignInRejected? ==> r.toast == Some(SignInErrorText(outcome.message))
    ensures outcome == SignInThrew ==> r.toast == Some(UnexpectedSignInText)
  {
    match outcome
    case SignInRejected(message) => SignInResult(true, Some(SignInErrorText(message)))
    case SignInAccepted => SignInResult(false, None)
    case SignInThrew => SignInResult(true, Some(UnexpectedSignInText))
  }

  /** Whether the provider's sign-out call returned (its reported error is ignored) or threw. */
  datatype SignOutOutcome = SignOutReturned | SignOutThrew

  /** `signOut`: clear and go to the landing page once the call returns; a throw changes nothing. */
  function SignOut(s: AuthState, outcome: SignOutOutcome): (r: Step)
    ensures outcome == SignOutReturned ==>
      r.state.user.None? && r.state.profile.None? && r.state.session.None? && r.navigate == Some("/")
    ensures r.state.loading == s.loading
    ensures outcome == SignOutThrew ==> r == Step(s, None)
  {
    match outcome
    case SignOutReturned => Step(AuthState(None, None, None, s.loading), Some("/"))
    case SignOutThrew => Step(s, None)
  }

  /** Signing out twice ends where signing out once does. */
  lemma SignOutTwice(s: AuthState)
    ensures SignOut(SignOut(s, SignOutReturned).state, SignOutReturned) == SignOut(s, SignOutReturned)
  {
  }

  /** Everything that can happen to the context, one atomic step at a time. */
  datatype Input =
    | Event(event: AuthEvent, session: Option<Session>)
    | ProfileArrived(event: AuthEvent, outcome: FetchOutcome)
    | SessionRestore(restore: RestoreOutcome, outcome: FetchOutcome)
    | SignOutCall(signOut: SignOutOutcome)

  function Next(s: AuthState, input: Input): (r: Step)
    ensures r.navigate.Some? ==> input.SignOutCall? || (input.ProfileArrived? && input.event == SignedIn)
  {
    match input
    case Event(event, session) => Step(OnAuthStateChange(s, event, session), None)
    case ProfileArrived(event, outcome) => OnProfileFetched(s, event, outcome)
    case SessionRestore(restore, outcome) => Step(OnGetSession(s, restore, outcome), None)
    case SignOutCall(outcome) => SignOut(s, outcome)
  }

  /** The state reached from `s` by a sequence of inputs. */
  function Run(s: AuthState, inputs: seq<Input>): (r: AuthState)
    ensures !s.loading ==> !r.loading
    ensures (forall i :: 0 <= i < |inputs| ==> inputs[i].ProfileArrived?) ==>
      r.user == s.user && r.session == s.session
    decreases |inputs|
  {
    if inputs == [] then s else Run(Next(s, inputs[0]).state, inputs[1..])
  }

  /** Every step keeps the user equal to the session's user. */
  lemma NextKeepsCoherent(s: AuthState, input: Input)
    requires Coherent(s)
    ensures Coherent(Next(s, input).state)
  {
  }

  /** Once loading has stopped, no step turns it back on. */
  lemma NextKeepsLoaded(s: AuthState, input: Input)
    requires !s.loading
    ensures !Next(s, input).state.loading
  {
  }

  lemma {:induction false} RunKeepsCoherent(s: AuthState, inputs: seq<Input>)
    requires Coherent(s)
    ensures Coherent(Run(s, inputs))
    decreases |inputs|
  {
    if inputs != [] {
      NextKeepsCoherent(s, inputs[0]);
      RunKeepsCoherent(Next(s, inputs[0]).state, inputs[1..]);
    }
  }

  /**
   * The profile is not tied to the user. A sign-in schedules a profile
   * fetch; when a sign-out event lands before it, the fetch still stores the
   * profile next to no user and sends the signed-out visitor to the role home.
   */
  lemma LateProfileOutlivesSignOut(u: User, token: string, p: Profile)
    ensures var signIn := Event(SignedIn, Some(Session(token, Some(u))));
      var before := Run(Initial, [signIn, Event(SignedOut, None)]);
      var late := Next(before, ProfileArrived(SignedIn, QueryReturned(Some(p))));
      && before.user.None? && before.profile.None?
      && late.state.user.None? && late.state.profile == Some(p)
      && late.navigate == Some(RoleHome(p.role, p.igrejaId, "/"))
  {
    var inputs := [Event(SignedIn, Some(Session(token, Some(u)))), Event(SignedOut, None)];
    var s1 := Next(Initial, inputs[0]).state;
    var s2 := Next(s1, inputs[1]).state;
    assert inputs[1..][1..] == [];
    assert Run(Initial, inputs) == Run(s1, inputs[1..]) == Run(s2, []);
  }
}
