/**
 * Identities and application profiles, as the auth provider and the `usuarios`
 * table deliver them, and the role-based home page every redirect is built on.
 */
module Profiles {
  import opened Wrappers

  /** The provider's identity: only the id and e-mail are observed. */
  datatype User = User(id: string, email: string)

  /** A provider session; the application reads only its user (`session?.user`). */
  datatype Session = Session(accessToken: string, user: Option<User>)

  /** `session?.user ?? null` */
  function SessionUser(session: Option<Session>): Option<User> {
    if session.Some? then session.value.user else None
  }

  /**
   * A row of `usuarios`. `role` is kept as the raw string the row carries, so
   * that the `default` branches of the role switches can be expressed;
   * `ativo` is nullable in the table.
   */
  datatype Profile = Profile(
    id: string,
    email: string,
    role: string,
    clienteId: Option<string>,
    igrejaId: Option<string>,
    nome: Option<string>,
    ativo: Option<bool>)

  /** The `user_role` enumeration, plus whatever else a role string may hold. */
  datatype Role = SuperAdmin | Cliente | AdminIgreja | Unrecognised(name: string)

  function RoleName(r: Role): string {
    match r
    case SuperAdmin => "superadmin"
    case Cliente => "cliente"
    case AdminIgreja => "admin_igreja"
    case Unrecognised(name) => name
  }

  function ParseRole(s: string): (r: Role)
    ensures RoleName(r) == s
    ensures r.Unrecognised? <==> s !in {"superadmin", "cliente", "admin_igreja"}
  {
    if s == "superadmin" then SuperAdmin
    else if s == "cliente" then Cliente
    else if s == "admin_igreja" then AdminIgreja
    else Unrecognised(s)
  }

  /** Parsing the name of a role gives the role back, unless the name collides with a known one. */
  lemma ParseRoleName(r: Role)
    requires r.Unrecognised? ==> r.name !in {"superadmin", "cliente", "admin_igreja"}
    ensures ParseRole(RoleName(r)) == r
  {
  }

  /** JavaScript truthiness of `!userProfile.ativo`'s operand: only `true` is truthy. */
  predicate IsActive(p: Profile) {
    p.ativo == Some(true)
  }

  /** JavaScript truthiness of an optional string: present and non-empty. */
  predicate Truthy(s: Option<string>) {
    s.Some? && s.value != ""
  }

  const ChurchPrefix: string := "/church/"

  /** The path of one church's page, `/church/${id}`. */
  function ChurchPath(id: string): (path: string)
    ensures |path| == |ChurchPrefix| + |id|
    ensures path[..|ChurchPrefix|] == ChurchPrefix && path[|ChurchPrefix|..] == id
  {
    ChurchPrefix + id
  }

  /**
   * The role switch written out three times in the application: superadmin to
   * `/superadmin`, cliente to `/dashboard`, admin_igreja to its church page
   * when it has a church id and to `/dashboard` otherwise. The copies differ
   * only in `fallback`, the target of their `default` branch.
   */
  function RoleHome(role: string, igrejaId: Option<string>, fallback: string): (path: string)
    ensures role == "superadmin" ==> path == "/superadmin"
    ensures role == "cliente" ==> path == "/dashboard"
    ensures role == "admin_igreja" ==>
      path == (if Truthy(igrejaId) then ChurchPath(igrejaId.value) else "/dashboard")
    ensures ParseRole(role).Unrecognised? ==> path == fallback
    ensures !ParseRole(role).Unrecognised? ==>
      path in {"/superadmin", "/dashboard"} || (Truthy(igrejaId) && path == ChurchPath(igrejaId.value))
  {
    match ParseRole(role)
    case SuperAdmin => "/superadmin"
    case Cliente => "/dashboard"
    case AdminIgreja => if Truthy(igrejaId) then ChurchPath(igrejaId.value) else "/dashboard"
    case Unrecognised(_) => fallback
  }

  /** The target of the `default` branch never matters for a known role. */
  lemma RoleHomeFallbackOnlyForUnknown(role: string, igrejaId: Option<string>, f1: string, f2: string)
    ensures RoleHome(role, igrejaId, f1) == RoleHome(role, igrejaId, f2) <==>
      (!ParseRole(role).Unrecognised? || f1 == f2)
  {
  }
}
