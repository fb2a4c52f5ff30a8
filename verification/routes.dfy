/**
 * The application's route table: which page a path selects and which roles
 * the guard wrapped around that page admits.
 */
module Routes {
  import opened Wrappers
  import opened Profiles

  datatype Route =
    | Landing                       // "/"
    | LoginPage                     // "/login"
    | SuperAdminPanel               // "/superadmin"
    | CustomerDashboard             // "/dashboard"
    | ChurchPage(churchId: string)  // "/church/:churchId"
    | NotFound                      // "*"

  /** A single path segment, as `:churchId` matches it. */
  predicate IsSegment(s: string) {
    s != [] && forall i :: 0 <= i < |s| ==> s[i] != '/'
  }

  /** Selects the route for a path, first match in table order. */
  function MatchRoute(path: string): (r: Route)
    ensures r.ChurchPage? <==> |path| > |ChurchPrefix| && path[..|ChurchPrefix|] == ChurchPrefix
                                && IsSegment(path[|ChurchPrefix|..])
    ensures r.ChurchPage? ==> path == ChurchPath(r.churchId)
  {
    if path == "/" then Landing
    else if path == "/login" then LoginPage
    else if path == "/superadmin" then
      assert path[1] != ChurchPrefix[1];
      SuperAdminPanel
    else if path == "/dashboard" then
      assert path[1] != ChurchPrefix[1];
      CustomerDashboard
    else if |path| > |ChurchPrefix| && path[..|ChurchPrefix|] == ChurchPrefix
            && IsSegment(path[|ChurchPrefix|..])
    then ChurchPage(path[|ChurchPrefix|..])
    else NotFound
  }

  /** The `allowedRoles` of the guard a route is wrapped in; `None` when unguarded. */
  function AllowedRoles(r: Route): (roles: Option<seq<string>>)
    ensures roles.None? <==> r in {Landing, LoginPage, NotFound}
    ensures roles.Some? ==> |roles.value| > 0
    ensures roles.Some? ==> forall i :: 0 <= i < |roles.value| ==> !ParseRole(roles.value[i]).Unrecognised?
  {
    match r
    case SuperAdminPanel => Some(["superadmin"])
    case CustomerDashboard => Some(["cliente"])
    case ChurchPage(_) => Some(["admin_igreja", "cliente", "superadmin"])
    case _ => None
  }

  /** The roles a guarded route lets through; every role for an unguarded one. */
  predicate Admits(r: Route, role: string) {
    AllowedRoles(r).None? || role in AllowedRoles(r).value
  }

  lemma ChurchPathMatches(id: string)
    requires IsSegment(id)
    ensures MatchRoute(ChurchPath(id)) == ChurchPage(id)
  {
    var p := ChurchPath(id);
    assert p[..|ChurchPrefix|] == ChurchPrefix && p[|ChurchPrefix|..] == id;
    assert p != "/" && p != "/login" && p != "/superadmin" && p != "/dashboard" by {
      assert |p| > |"/dashboard"| || p[1] != "/dashboard"[1];
      assert p[1] == 'c';
    }
  }

  /** `/superadmin` admits exactly the superadmin role. */
  lemma SuperAdminAdmitsExactly(role: string)
    ensures AllowedRoles(MatchRoute("/superadmin")).Some?
    ensures Admits(MatchRoute("/superadmin"), role) <==> ParseRole(role) == SuperAdmin
  {
  }

  /** `/dashboard` admits exactly the cliente role. */
  lemma DashboardAdmitsExactly(role: string)
    ensures AllowedRoles(MatchRoute("/dashboard")).Some?
    ensures Admits(MatchRoute("/dashboard"), role) <==> ParseRole(role) == Cliente
  {
  }

  /** A church page admits the three known roles, whichever church it names. */
  lemma ChurchPageAdmitsKnownRoles(id: string, role: string)
    requires IsSegment(id)
    ensures AllowedRoles(MatchRoute(ChurchPath(id))).Some?
    ensures Admits(MatchRoute(ChurchPath(id)), role) <==> !ParseRole(role).Unrecognised?
  {
    ChurchPathMatches(id);
  }

  /** `/` and `/login` are unguarded; every path outside the table is the not-found page. */
  lemma UnguardedRoutes(path: string)
    ensures path in {"/", "/login"} ==> AllowedRoles(MatchRoute(path)).None?
    ensures MatchRoute(path) == NotFound <==>
      path !in {"/", "/login", "/superadmin", "/dashboard"} && !MatchRoute(path).ChurchPage?
  {
  }
}
