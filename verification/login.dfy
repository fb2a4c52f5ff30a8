/**
 * The login page: its own light form check, the submit handler that calls
 * the context's `signIn` only for a form that passes it, the per-field input
 * handler, and the redirect of a visitor who is already signed in.
 */
module Login {
  import opened Wrappers
  import opened Text
  import opened Profiles
  import Auth
  import Routes
  import RouteGuard

  datatype Credentials = Credentials(email: string, password: string)

  /** One message per field; the empty string means no error. */
  datatype FormErrors = FormErrors(email: string, password: string)

  const NoErrors: FormErrors := FormErrors("", "")

  const EmailRequired: string := "Email é obrigatório"
  const EmailInvalid: string := "Email inválido"
  const PasswordRequired: string := "Senha é obrigatória"
  const PasswordTooShort: string := "Senha deve ter pelo menos 6 caracteres"

  /** Non-white-space characters, `\S`. */
  predicate IsNonSpace(c: char) {
    !IsWhitespace(c)
  }

  /**
   * The unanchored `/\S+@\S+\.\S+/`: somewhere an `@` follows a non-space,
   * then one or more non-spaces, then a `.` followed by a non-space. A match
   * of longer runs contains this shortest one.
   */
  predicate LooksLikeEmail(s: string)
    ensures LooksLikeEmail(s) ==> |s| >= 5 && exists i :: 0 <= i < |s| && s[i] == '@'
  {
    exists at, dot :: 0 < at && at + 1 < dot && dot + 1 < |s|
      && s[at] == '@' && s[dot] == '.' && IsNonSpace(s[at - 1]) && IsNonSpace(s[dot + 1])
      && NonSpaceBetween(s, at, dot)
  }

  /** Every character strictly between positions `i` and `j` is a non-space. */
  predicate NonSpaceBetween(s: string, i: int, j: int)
    requires 0 <= i < j <= |s|
  {
    forall k :: i < k < j ==> IsNonSpace(s[k])
  }

  predicate AllNonSpace(s: string) {
    forall i :: 0 <= i < |s| ==> IsNonSpace(s[i])
  }

  /** Any text with `x@y.z` inside, each part a non-empty run of non-spaces, passes the check. */
  lemma LooksLikeEmailOfParts(pre: string, x: string, y: string, z: string, post: string)
    requires x != [] && y != [] && z != []
    requires AllNonSpace(x) && AllNonSpace(y) && AllNonSpace(z)
    ensures LooksLikeEmail(pre + x + "@" + y + "." + z + post)
  {
    var s := pre + x + "@" + y + "." + z + post;
    var at := |pre| + |x|;
    var dot := at + 1 + |y|;
    assert s[at - 1] == x[|x| - 1];
    assert s[at] == '@';
    assert s[dot] == '.';
    assert s[dot + 1] == z[0];
    forall k | at < k < dot
      ensures IsNonSpace(s[k])
    {
      assert s[k] == y[k - at - 1];
    }
  }

  /** Text without an `@` never passes. */
  lemma NoAtNoEmail(s: string)
    requires forall i :: 0 <= i < |s| ==> s[i] != '@'
    ensures !LooksLikeEmail(s)
  {
  }

  function EmailError(email: string): (e: string)
    ensures e == "" <==> Trim(email) != [] && LooksLikeEmail(email)
    ensures Trim(email) == [] ==> e == EmailRequired
  {
    if Trim(email) == [] then EmailRequired
    else if !LooksLikeEmail(email) then EmailInvalid
    else ""
  }

  function PasswordError(password: string): (e: string)
    ensures e == "" <==> Trim(password) != [] && |password| >= 6
    ensures Trim(password) == [] ==> e == PasswordRequired
  {
    if Trim(password) == [] then PasswordRequired
    else if |password| < 6 then PasswordTooShort
    else ""
  }

  datatype Validation = Validation(valid: bool, errors: FormErrors)

  /** `validateForm`: both fields checked, all their errors reported at once. */
  function ValidateForm(c: Credentials): (r: Validation)
    ensures r.valid <==> r.errors == NoErrors
    ensures r.valid <==> Trim(c.email) != [] && LooksLikeEmail(c.email) && Trim(c.password) != [] && |c.password| >= 6
    ensures r.errors.email in {"", EmailRequired, EmailInvalid}
    ensures r.errors.password in {"", PasswordRequired, PasswordTooShort}
  {
    var errors := FormErrors(EmailError(c.email), PasswordError(c.password));
    Validation(errors == NoErrors, errors)
  }

  /** An all-white-space password of any length is reported as missing, not as short. */
  lemma BlankPasswordIsMissing(c: Credentials)
    requires forall i :: 0 <= i < |c.password| ==> IsWhitespace(c.password[i])
    ensures ValidateForm(c).errors.password == PasswordRequired
  {
  }

  datatype LoginState = LoginState(credentials: Credentials, errors: FormErrors, isLoading: bool)

  const InitialLogin: LoginState := LoginState(Credentials("", ""), NoErrors, false)

  /** A submit: the page state afterwards, the sign-in call made if any, and its toast. */
  datatype Submit = Submit(state: LoginState, signInWith: Option<Credentials>, toast: Option<string>)

  /**
   * `handleLogin`: an invalid form only shows its errors; a valid one clears
   * them and hands the untrimmed credentials to `signIn`, whose own catch
   * leaves nothing for this handler to catch.
   */
  function HandleLogin(s: LoginState, outcome: Auth.SignInOutcome): (r: Submit)
    ensures r.signInWith.Some? <==> ValidateForm(s.credentials).valid
    ensures r.signInWith.Some? ==> r.signInWith.value == s.credentials
    ensures r.state.credentials == s.credentials
    ensures r.state.errors == ValidateForm(s.credentials).errors
    ensures r.signInWith.Some? ==> !r.state.isLoading && r.toast == Auth.SignIn(outcome).toast
    ensures r.signInWith.None? ==> r.state.isLoading == s.isLoading && r.toast.None?
  {
    var v := ValidateForm(s.credentials);
    if !v.valid then Submit(s.(errors := v.errors), None, None)
    else
      var result := Auth.SignIn(outcome);
      Submit(LoginState(s.credentials, NoErrors, false), Some(s.credentials), result.toast)
  }

  datatype Field = EmailField | PasswordField

  /** `handleInputChange`: only the edited field changes, and only its error is cleared. */
  function HandleInputChange(s: LoginState, field: Field, value: string): (r: LoginState)
    ensures r.isLoading == s.isLoading
    ensures field == EmailField ==>
      r.credentials == Credentials(value, s.credentials.password) && r.errors == FormErrors("", s.errors.password)
    ensures field == PasswordField ==>
      r.credentials == Credentials(s.credentials.email, value) && r.errors == FormErrors(s.errors.email, "")
  {
    match field
    case EmailField => s.(credentials := s.credentials.(email := value), errors := s.errors.(email := ""))
    case PasswordField => s.(credentials := s.credentials.(password := value), errors := s.errors.(password := ""))
  }

  /** Typing into both fields after a failed submit leaves no error on screen. */
  lemma EditingClearsErrors(s: LoginState, email: string, password: string)
    ensures HandleInputChange(HandleInputChange(s, EmailField, email), PasswordField, password).errors == NoErrors
  {
  }

  /** The page's redirect for a visitor who is already signed in; unknown roles go to the landing page. */
  function AlreadySignedIn(auth: Auth.AuthState): (target: Option<string>)
    ensures target.Some? <==> !auth.loading && auth.user.Some? && auth.profile.Some?
    ensures target.Some? ==> target.value == Auth.RedirectForRole(auth.profile.value.role,
                                                                   auth.profile.value.clienteId,
                                                                   auth.profile.value.igrejaId)
  {
    if !auth.loading && auth.user.Some? && auth.profile.Some? then
      Some(RoleHome(auth.profile.value.role, auth.profile.value.igrejaId, "/"))
    else None
  }

  /**
   * A signed-in visitor is sent where the sign-in event would have sent them,
   * and never back to the login page.
   */
  lemma AlreadySignedInNeverLogin(auth: Auth.AuthState)
    requires AlreadySignedIn(auth).Some?
    ensures AlreadySignedIn(auth).value != "/login"
  {
    var p := auth.profile.value;
    if ParseRole(p.role).AdminIgreja? && Truthy(p.igrejaId) {
      var path := ChurchPath(p.igrejaId.value);
      assert path[1] == 'c';
    }
  }

  /**
   * The page redirects without looking at `ativo`, and the guard of the page
   * it redirects to sends an inactive profile back to `/login`: an inactive
   * user with a reachable role home bounces between the two.
   */
  lemma InactiveUserBounces(auth: Auth.AuthState)
    requires !auth.loading && auth.user.Some? && auth.profile.Some?
    requires !IsActive(auth.profile.value)
    requires RouteGuard.HomeIsReachable(auth.profile.value)
    ensures AlreadySignedIn(auth).Some? && AlreadySignedIn(auth).value != "/login"
    ensures RouteGuard.PageDecision(AlreadySignedIn(auth).value,
                                    RouteGuard.AuthView(auth.loading, auth.user, auth.profile))
            == RouteGuard.Redirect("/login")
  {
    var p := auth.profile.value;
    AlreadySignedInNeverLogin(auth);
    if ParseRole(p.role) == AdminIgreja {
      Routes.ChurchPathMatches(p.igrejaId.value);
    }
  }
}
