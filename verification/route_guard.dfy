/**
 * The protected-route wrapper: an effect that navigates away and a render
 * that shows a spinner, nothing, or the wrapped page. Both read the same auth
 * context; navigation is returned as a path instead of being assigned to
 * `window.location`.
 */
module RouteGuard {
  import opened Wrappers
  import opened Profiles
  import opened Routes

  /** The part of the auth context the guard reads. */
  datatype AuthView = AuthView(loading: bool, user: Option<User>, profile: Option<Profile>)

  /** The wrapper's properties; `children` is the page it guards. */
  datatype GuardProps = GuardProps(allowedRoles: seq<string>, redirectTo: string)

  /** Where an unauthenticated visitor is sent when the caller names no target. */
  const DefaultRedirect: string := "/login"

  /** The properties with their defaults: no role restriction, redirect to `/login`. */
  function DefaultProps(): (props: GuardProps)
    ensures |props.allowedRoles| == 0 && props.redirectTo == DefaultRedirect
  {
    GuardProps([], DefaultRedirect)
  }

  /** An empty role list restricts nothing. */
  predicate RoleAllowed(allowedRoles: seq<string>, role: string) {
    |allowedRoles| == 0 || role in allowedRoles
  }

  /** The guard's own copy of the role switch, whose `default` goes to `/login`. */
  function GuardHome(p: Profile): (path: string)
    ensures ParseRole(p.role).Unrecognised? <==> path == "/login"
    ensures !ParseRole(p.role).Unrecognised? ==> path == RoleHome(p.role, p.igrejaId, "/")
  {
    assert ChurchPrefix[1] == 'c';
    RoleHome(p.role, p.igrejaId, "/login")
  }

  /** Loaded, signed in with a profile, active, and of an allowed role. */
  predicate Admitted(auth: AuthView, props: GuardProps) {
    && !auth.loading
    && auth.user.Some?
    && auth.profile.Some?
    && IsActive(auth.profile.value)
    && RoleAllowed(props.allowedRoles, auth.profile.value.role)
  }

  /** The navigation the guard's effect performs, if any. */
  function Effect(auth: AuthView, props: GuardProps): (nav: Option<string>)
    ensures auth.loading ==> nav.None?
    ensures !auth.loading && (auth.user.None? || auth.profile.None?) ==> nav == Some(props.redirectTo)
    ensures !auth.loading && auth.user.Some? && auth.profile.Some? && !IsActive(auth.profile.value) ==>
      nav == Some("/login")
    ensures (!auth.loading && auth.user.Some? && auth.profile.Some? && IsActive(auth.profile.value)
             && !RoleAllowed(props.allowedRoles, auth.profile.value.role)) ==>
      nav == Some(GuardHome(auth.profile.value))
    ensures nav.None? <==> auth.loading || Admitted(auth, props)
  {
    if auth.loading then None
    else if auth.user.None? || auth.profile.None? then Some(props.redirectTo)
    else if !IsActive(auth.profile.value) then Some("/login")
    else if |props.allowedRoles| > 0 && auth.profile.value.role !in props.allowedRoles then
      Some(GuardHome(auth.profile.value))
    else None
  }

  datatype Rendered = Spinner | Nothing | Children

  /** What the guard renders. */
  function Render(auth: AuthView, props: GuardProps): (r: Rendered)
    ensures r == Spinner <==> auth.loading
    ensures r == Children <==> Admitted(auth, props)
  {
    if auth.loading then Spinner
    else if auth.user.None? || auth.profile.None? || !IsActive(auth.profile.value) then Nothing
    else if |props.allowedRoles| > 0 && auth.profile.value.role !in props.allowedRoles then Nothing
    else Children
  }

  /** The effect redirects exactly when the render shows nothing, and never while loading. */
  lemma EffectAgreesWithRender(auth: AuthView, props: GuardProps)
    ensures auth.loading ==> Effect(auth, props).None? && Render(auth, props) == Spinner
    ensures !auth.loading ==> (Effect(auth, props).Some? <==> Render(auth, props) == Nothing)
  {
  }

  /** The guard's outcome, effect and render taken together. */
  datatype Decision = Wait | Redirect(to: string) | Admit

  function Decide(auth: AuthView, props: GuardProps): (d: Decision)
    ensures d == Wait <==> Render(auth, props) == Spinner
    ensures d == Admit <==> Render(auth, props) == Children
    ensures d.Redirect? <==> Effect(auth, props).Some?
    ensures d.Redirect? ==> Effect(auth, props) == Some(d.to)
  {
    match Effect(auth, props)
    case Some(path) => Redirect(path)
    case None => if auth.loading then Wait else Admit
  }

  /** An inactive profile is never admitted, whatever the allowed roles or redirect target. */
  lemma InactiveNeverAdmitted(auth: AuthView, props: GuardProps)
    requires !auth.loading && auth.user.Some? && auth.profile.Some?
    requires !IsActive(auth.profile.value)
    ensures Decide(auth, props) == Redirect("/login")
  {
  }

  /** A role missing from a non-empty role list is never admitted. */
  lemma DisallowedRoleNeverAdmitted(auth: AuthView, props: GuardProps)
    requires |props.allowedRoles| > 0 && auth.profile.Some?
    requires auth.profile.value.role !in props.allowedRoles
    ensures Decide(auth, props) != Admit
  {
  }

  /** With no role list, every signed-in active profile is admitted. */
  lemma EmptyRoleListAdmitsActive(auth: AuthView, redirectTo: string)
    requires !auth.loading && auth.user.Some? && auth.profile.Some?
    requires IsActive(auth.profile.value)
    ensures Decide(auth, GuardProps([], redirectTo)) == Admit
  {
  }

  /** An unrecognised role that the list excludes goes to `/login`, not to the landing page. */
  lemma UnknownRoleGoesToLogin(auth: AuthView, props: GuardProps)
    requires !auth.loading && auth.user.Some? && auth.profile.Some?
    requires IsActive(auth.profile.value)
    requires ParseRole(auth.profile.value.role).Unrecognised?
    requires |props.allowedRoles| > 0 && auth.profile.value.role !in props.allowedRoles
    ensures Decide(auth, props) == Redirect("/login")
    ensures RoleHome(auth.profile.value.role, auth.profile.value.igrejaId, "/") == "/"
  {
  }

  /** What the application shows at `path`: unguarded pages always render. */
  function PageDecision(path: string, auth: AuthView): (d: Decision)
    ensures AllowedRoles(MatchRoute(path)).None? ==> d == Admit
    ensures d == Admit <==>
      AllowedRoles(MatchRoute(path)).None? || (Admitted(auth, DefaultProps()) && Admits(MatchRoute(path), auth.profile.value.role))
    ensures auth.loading && AllowedRoles(MatchRoute(path)).Some? ==> d == Wait
  {
    match AllowedRoles(MatchRoute(path))
    case None => Admit
    case Some(roles) => Decide(auth, GuardProps(roles, DefaultRedirect))
  }

  /** The profiles whose guard home is a page their own role may see. */
  predicate HomeIsReachable(p: Profile) {
    || ParseRole(p.role) == SuperAdmin
    || ParseRole(p.role) == Cliente
    || (ParseRole(p.role) == AdminIgreja && Truthy(p.igrejaId) && IsSegment(p.igrejaId.value))
  }

  /** The guard's role home of such a profile is admitted by the route it names. */
  lemma RoleHomeAdmitted(auth: AuthView)
    requires !auth.loading && auth.user.Some? && auth.profile.Some?
    requires IsActive(auth.profile.value)
    requires HomeIsReachable(auth.profile.value)
    ensures Admits(MatchRoute(GuardHome(auth.profile.value)), auth.profile.value.role)
    ensures PageDecision(GuardHome(auth.profile.value), auth) == Admit
  {
    var p := auth.profile.value;
    if ParseRole(p.role) == AdminIgreja {
      ChurchPathMatches(p.igrejaId.value);
    }
  }

  /** One redirect is enough for such a profile: the page it is sent to lets it in. */
  lemma RedirectSettles(path: string, auth: AuthView)
    requires auth.profile.Some? && HomeIsReachable(auth.profile.value)
    requires PageDecision(path, auth).Redirect?
    requires PageDecision(path, auth).to == GuardHome(auth.profile.value)
    ensures PageDecision(PageDecision(path, auth).to, auth) == Admit
  {
    var roles := AllowedRoles(MatchRoute(path)).value;
    assert Effect(auth, GuardProps(roles, DefaultRedirect)).Some?;
    RoleHomeAdmitted(auth);
  }

  /**
   * A church administrator without a church id is sent to `/dashboard`, which
   * admits only `cliente`, so the guard there sends it to `/dashboard` again.
   */
  lemma AdminWithoutChurchLoops(auth: AuthView)
    requires !auth.loading && auth.user.Some? && auth.profile.Some?
    requires IsActive(auth.profile.value)
    requires auth.profile.value.role == "admin_igreja" && !Truthy(auth.profile.value.igrejaId)
    ensures GuardHome(auth.profile.value) == "/dashboard"
    ensures PageDecision("/dashboard", auth) == Redirect("/dashboard")
  {
  }

  /** The guard on church pages does not look at which church the path names. */
  lemma ChurchIdIgnored(a: string, b: string, auth: AuthView)
    requires IsSegment(a) && IsSegment(b)
    ensures PageDecision(ChurchPath(a), auth) == PageDecision(ChurchPath(b), auth)
  {
    ChurchPathMatches(a);
    ChurchPathMatches(b);
  }
}
