/**
 * The alternative auth hook `useSecureAuth`: inactive profiles are filtered
 * out at fetch time, a trial-expiry flag is kept for customers, and a
 * `mounted` flag suppresses writes after unmount. The listener is subscribed
 * only once the initial session has been handled, and never when that
 * handling throws.
 */
module SecureAuth {
  import opened Wrappers
  import opened Profiles
  import Auth

  datatype SecureState = SecureState(
    session: Option<Session>,
    user: Option<User>,
    profile: Option<Profile>,
    loading: bool,
    isTrialExpired: bool,
    mounted: bool,     // the effect's `mounted` variable
    subscribed: bool)  // whether the auth-change listener has been registered

  /** Just mounted: loading, trial not expired, listener not yet registered. */
  const Initial: SecureState := SecureState(None, None, None, true, false, true, false)

  /** The hook's exposed state, without the bookkeeping flags. */
  datatype Exposed = Exposed(
    session: Option<Session>, user: Option<User>, profile: Option<Profile>, loading: bool, isTrialExpired: bool)

  function Expose(s: SecureState): Exposed {
    Exposed(s.session, s.user, s.profile, s.loading, s.isTrialExpired)
  }

  /** The profile the fetch yields and whether the "Conta inativa" notice is shown. */
  datatype ActiveLookup = ActiveLookup(profile: Option<Profile>, inactiveNotice: bool)

  /** `fetchUserProfile` with the `ativo` filter; a missing row is not an error here. */
  function FetchActiveProfile(outcome: Auth.FetchOutcome): (r: ActiveLookup)
    ensures r.profile.Some? <==>
      outcome.QueryReturned? && outcome.row.Some? && IsActive(outcome.row.value)
    ensures r.profile.Some? ==> r.profile == outcome.row
    ensures r.inactiveNotice <==>
      outcome.QueryReturned? && outcome.row.Some? && !IsActive(outcome.row.value)
  {
    match outcome
    case QueryFailed(_) => ActiveLookup(None, false)
    case QueryThrew => ActiveLookup(None, false)
    case QueryReturned(None) => ActiveLookup(None, false)
    case QueryReturned(Some(row)) =>
      if IsActive(row) then ActiveLookup(Some(row), false) else ActiveLookup(None, true)
  }

  /** What the `check_trial_expired` call gives back; `data` may be null. */
  datatype TrialOutcome = TrialRpcFailed | TrialRpcThrew | TrialRpcData(data: Option<bool>)

  /** `checkTrialStatus`: `data || false`, and `false` on any error. */
  function CheckTrialStatus(outcome: TrialOutcome): (expired: bool)
    ensures expired <==> outcome == TrialRpcData(Some(true))
  {
    match outcome
    case TrialRpcData(Some(b)) => b
    case _ => false
  }

  /** Whether the trial check runs for a resolved profile. */
  predicate IsCustomer(profile: Option<Profile>) {
    profile.Some? && profile.value.role == "cliente"
  }

  /** The trial flag after a profile has been resolved: re-checked for customers only. */
  function TrialFlagAfter(previous: bool, profile: Option<Profile>, trial: TrialOutcome): bool {
    if IsCustomer(profile) then CheckTrialStatus(trial) else previous
  }

  /** What the initialisation does: either it gets a session or `getSession` throws. */
  datatype InitOutcome =
    | InitSession(session: Option<Session>, fetch: Auth.FetchOutcome, trial: TrialOutcome)
    | InitThrew

  /**
   * `initAuth`: when still mounted, record the initial session, resolve its
   * profile and trial flag, and stop loading; then register the listener.
   * When `getSession` throws, only loading stops, and no listener is registered.
   */
  function InitAuth(s: SecureState, init: InitOutcome): (r: SecureState)
    ensures r.mounted == s.mounted
    ensures r.subscribed <==> s.subscribed || init.InitSession?
    ensures !s.mounted ==> Expose(r) == Expose(s)
    ensures s.mounted ==> !r.loading
    ensures s.mounted && init.InitSession? ==> r.session == init.session && r.user == SessionUser(init.session)
    ensures s.mounted && init.InitSession? && SessionUser(init.session).Some? ==>
      && r.profile == FetchActiveProfile(init.fetch).profile
      && r.isTrialExpired == (if IsCustomer(r.profile) then CheckTrialStatus(init.trial) else s.isTrialExpired)
    ensures s.mounted && init.InitSession? && SessionUser(init.session).None? ==>
      r.profile == s.profile && r.isTrialExpired == s.isTrialExpired
    ensures init.InitThrew? ==> r == s.(loading := s.loading && !s.mounted)
  {
    match init
    case InitThrew =>
      if s.mounted then s.(loading := false) else s
    case InitSession(session, fetch, trial) =>
      var written :=
        if !s.mounted then s
        else
          var user := SessionUser(session);
          if user.Some? then
            var profile := FetchActiveProfile(fetch).profile;
            SecureState(session, user, profile, false, TrialFlagAfter(s.isTrialExpired, profile, trial),
                        s.mounted, s.subscribed)
          else
            s.(session := session, user := user, loading := false);
      written.(subscribed := true)
  }

  /**
   * The listener, run to completion with its deferred profile fetch. It does
   * nothing unless registered and still mounted.
   */
  function OnAuthEvent(s: SecureState, session: Option<Session>, fetch: Auth.FetchOutcome, trial: TrialOutcome)
    : (r: SecureState)
    ensures !s.subscribed || !s.mounted ==> r == s
    ensures r.loading == s.loading && r.mounted == s.mounted && r.subscribed == s.subscribed
    ensures s.subscribed && s.mounted ==> r.session == session && r.user == SessionUser(session)
    ensures s.subscribed && s.mounted && SessionUser(session).None? ==>
      r.profile.None? && !r.isTrialExpired
    ensures s.subscribed && s.mounted && SessionUser(session).Some? ==>
      && r.profile == FetchActiveProfile(fetch).profile
      && r.isTrialExpired == (if IsCustomer(r.profile) then CheckTrialStatus(trial) else s.isTrialExpired)
  {
    if !s.subscribed || !s.mounted then s
    else
      var user := SessionUser(session);
      if user.Some? then
        var profile := FetchActiveProfile(fetch).profile;
        s.(session := session, user := user, profile := profile,
           isTrialExpired := TrialFlagAfter(s.isTrialExpired, profile, trial))
      else
        s.(session := session, user := user, profile := None, isTrialExpired := false)
  }

  /** The effect's cleanup: only the `mounted` flag changes. */
  function Unmount(s: SecureState): (r: SecureState)
    ensures !r.mounted && Expose(r) == Expose(s) && r.subscribed == s.subscribed
  {
    s.(mounted := false)
  }

  /** The exposed profile is never an inactive one. */
  predicate ProfileActive(s: SecureState) {
    s.profile.None? || IsActive(s.profile.value)
  }

  datatype Input =
    | Init(init: InitOutcome)
    | Event(session: Option<Session>, fetch: Auth.FetchOutcome, trial: TrialOutcome)
    | Cleanup

  function Next(s: SecureState, input: Input): (r: SecureState)
    ensures r.mounted ==> s.mounted
    ensures s.subscribed ==> r.subscribed
    ensures !s.mounted ==> Expose(r) == Expose(s)
    ensures ProfileActive(s) ==> ProfileActive(r)
  {
    match input
    case Init(init) => InitAuth(s, init)
    case Event(session, fetch, trial) => OnAuthEvent(s, session, fetch, trial)
    case Cleanup => Unmount(s)
  }

  function Run(s: SecureState, inputs: seq<Input>): (r: SecureState)
    ensures r.mounted ==> s.mounted
    ensures s.subscribed ==> r.subscribed
    ensures r.subscribed && !s.subscribed ==> exists i :: 0 <= i < |inputs| && inputs[i].Init?
    decreases |inputs|
  {
    if inputs == [] then s else Run(Next(s, inputs[0]), inputs[1..])
  }

  lemma NextKeepsProfileActive(s: SecureState, input: Input)
    requires ProfileActive(s)
    ensures ProfileActive(Next(s, input))
  {
  }

  /** From mount on, the hook never exposes an inactive profile. */
  lemma {:induction false} RunKeepsProfileActive(s: SecureState, inputs: seq<Input>)
    requires ProfileActive(s)
    ensures ProfileActive(Run(s, inputs))
    decreases |inputs|
  {
    if inputs != [] {
      NextKeepsProfileActive(s, inputs[0]);
      RunKeepsProfileActive(Next(s, inputs[0]), inputs[1..]);
    }
  }

  /** After unmount nothing the hook exposes changes again. */
  lemma {:induction false} NothingAfterUnmount(s: SecureState, inputs: seq<Input>)
    requires !s.mounted
    ensures Expose(Run(s, inputs)) == Expose(s)
    decreases |inputs|
  {
    if inputs != [] {
      var t := Next(s, inputs[0]);
      assert Expose(t) == Expose(s) && !t.mounted;
      NothingAfterUnmount(t, inputs[1..]);
    }
  }

  /** A failed initialisation registers no listener, so later auth events are never seen. */
  lemma {:induction false} FailedInitIgnoresEvents(s: SecureState, events: seq<Input>)
    requires !s.subscribed
    requires forall i :: 0 <= i < |events| ==> events[i].Event?
    ensures Run(s, events) == s
    decreases |events|
  {
    if events != [] {
      assert Next(s, events[0]) == s;
      FailedInitIgnoresEvents(s, events[1..]);
    }
  }

  /**
   * The trial flag is only ever re-checked for customers: a customer whose
   * trial had expired, followed by a superadmin session, leaves it set.
   */
  lemma TrialFlagOutlivesCustomer(s: SecureState, session: Option<Session>, p: Profile, trial: TrialOutcome)
    requires s.subscribed && s.mounted && s.isTrialExpired
    requires SessionUser(session).Some? && IsActive(p) && p.role == "superadmin"
    ensures OnAuthEvent(s, session, Auth.QueryReturned(Some(p)), trial).isTrialExpired
    ensures OnAuthEvent(s, session, Auth.QueryReturned(Some(p)), trial).profile == Some(p)
  {
  }
}
