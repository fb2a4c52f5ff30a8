/**
 * The free-trial sign-up dialog: the form schema, the sanitisation of the
 * submitted values, the submit handler's sequence of provider calls with its
 * clean-up on failure, and the mapping of the caught error to the text shown.
 */
module FreeTrial {
  import opened Wrappers
  import opened Text
  import opened InputValidation
  import ErrorHandler

  datatype SignupForm = SignupForm(
    fullName: string,
    phone: string,
    cnpj: string,
    members: int,
    email: string,
    password: string)

  /** Characters of `[\d\s\-\(\)\+]`. */
  predicate IsPhoneChar(c: char) {
    IsDigit(c) || IsWhitespace(c) || c == '-' || c == '(' || c == ')' || c == '+'
  }

  predicate AllDigits(s: string) {
    forall i :: 0 <= i < |s| ==> IsDigit(s[i])
  }

  /** A run of `digits` digits followed by an optional separator. */
  datatype Group = Group(digits: nat, separator: Option<char>)

  /** `\d{2}\.?\d{3}\.?\d{3}\/?\d{4}\-?\d{2}` */
  const CnpjGroups: seq<Group> :=
    [Group(2, Some('.')), Group(3, Some('.')), Group(3, Some('/')), Group(4, Some('-')), Group(2, None)]

  predicate SeparatorsAreNotDigits(groups: seq<Group>) {
    forall i :: 0 <= i < |groups| && groups[i].separator.Some? ==> !IsDigit(groups[i].separator.value)
  }

  /**
   * Whether all of `s` is the groups in order. Because a separator is never a
   * digit, a separator that is present right after its digits must be taken,
   * so this single left-to-right reading is the anchored regular expression's.
   */
  predicate MatchesGroups(s: string, groups: seq<Group>)
    decreases |groups|
  {
    if groups == [] then s == []
    else
      var g := groups[0];
      && |s| >= g.digits
      && AllDigits(s[..g.digits])
      && var rest := s[g.digits..];
         if g.separator.Some? && rest != [] && rest[0] == g.separator.value then MatchesGroups(rest[1..], groups[1..])
         else MatchesGroups(rest, groups[1..])
  }

  function DigitCount(groups: seq<Group>): nat
    decreases |groups|
  {
    if groups == [] then 0 else groups[0].digits + DigitCount(groups[1..])
  }

  function SeparatorCount(groups: seq<Group>): nat
    decreases |groups|
  {
    if groups == [] then 0 else (if groups[0].separator.Some? then 1 else 0) + SeparatorCount(groups[1..])
  }

  lemma AllDigitsStrip(s: string)
    requires AllDigits(s)
    ensures StripNonDigits(s) == s
  {
  }

  /** A matched text holds exactly the groups' digits, with at most one separator per group. */
  lemma {:induction false} MatchesGroupsDigits(s: string, groups: seq<Group>)
    requires SeparatorsAreNotDigits(groups)
    requires MatchesGroups(s, groups)
    ensures |StripNonDigits(s)| == DigitCount(groups)
    ensures DigitCount(groups) <= |s| <= DigitCount(groups) + SeparatorCount(groups)
    decreases |groups|
  {
    if groups != [] {
      var g := groups[0];
      var head, rest := s[..g.digits], s[g.digits..];
      assert s == head + rest;
      AllDigitsStrip(head);
      StripNonDigitsAppend(head, rest);
      assert SeparatorsAreNotDigits(groups[1..]) by {
        forall i | 0 <= i < |groups[1..]| && groups[1..][i].separator.Some?
          ensures !IsDigit(groups[1..][i].separator.value)
        {
          assert groups[1..][i] == groups[i + 1];
        }
      }
      if g.separator.Some? && rest != [] && rest[0] == g.separator.value {
        assert !IsDigit(groups[0].separator.value);
        assert rest == [rest[0]] + rest[1..];
        StripNonDigitsAppend([rest[0]], rest[1..]);
        assert StripNonDigits([rest[0]]) == [];
        MatchesGroupsDigits(rest[1..], groups[1..]);
      } else {
        MatchesGroupsDigits(rest, groups[1..]);
      }
    } else {
      assert s == [];
    }
  }

  /** Bare digits of the right number match, with every separator left out. */
  lemma {:induction false} BareDigitsMatch(s: string, groups: seq<Group>)
    requires SeparatorsAreNotDigits(groups)
    requires AllDigits(s) && |s| == DigitCount(groups)
    ensures MatchesGroups(s, groups)
    decreases |groups|
  {
    if groups != [] {
      var g := groups[0];
      var rest := s[g.digits..];
      assert SeparatorsAreNotDigits(groups[1..]) by {
        forall i | 0 <= i < |groups[1..]| && groups[1..][i].separator.Some?
          ensures !IsDigit(groups[1..][i].separator.value)
        {
          assert groups[1..][i] == groups[i + 1];
        }
      }
      if rest != [] {
        assert IsDigit(rest[0]);
        if g.separator.Some? {
          assert !IsDigit(groups[0].separator.value);
        }
      }
      BareDigitsMatch(rest, groups[1..]);
    }
  }

  lemma CnpjGroupCounts()
    ensures SeparatorsAreNotDigits(CnpjGroups)
    ensures DigitCount(CnpjGroups) == 14 && SeparatorCount(CnpjGroups) == 4
  {
    assert CnpjGroups[1..] == [Group(3, Some('.')), Group(3, Some('/')), Group(4, Some('-')), Group(2, None)];
    assert CnpjGroups[1..][1..] == [Group(3, Some('/')), Group(4, Some('-')), Group(2, None)];
    assert CnpjGroups[1..][1..][1..] == [Group(4, Some('-')), Group(2, None)];
    assert CnpjGroups[1..][1..][1..][1..] == [Group(2, None)];
    assert CnpjGroups[1..][1..][1..][1..][1..] == [];
  }

  /** The CNPJ pattern as the schema applies it. */
  predicate CnpjPattern(s: string)
    ensures CnpjPattern(s) ==> |StripNonDigits(s)| == 14 && 14 <= |s| <= 18
  {
    if MatchesGroups(s, CnpjGroups) then
      CnpjGroupCounts();
      MatchesGroupsDigits(s, CnpjGroups);
      true
    else false
  }

  /**
   * A CNPJ the schema's pattern accepts has exactly 14 digits and 14 to 18
   * characters, so once the schema has passed, the handler's own 14-digit
   * check after stripping can never fail.
   */
  lemma CnpjPatternGivesFourteenDigits(s: string)
    requires CnpjPattern(s)
    ensures |StripNonDigits(s)| == 14
    ensures 14 <= |s| <= 18
  {
    CnpjGroupCounts();
    MatchesGroupsDigits(s, CnpjGroups);
  }

  /** Fourteen bare digits are a CNPJ the pattern accepts. */
  lemma BareCnpjAccepted(s: string)
    requires AllDigits(s) && |s| == 14
    ensures CnpjPattern(s)
  {
    CnpjGroupCounts();
    BareDigitsMatch(s, CnpjGroups);
  }

  /** The schema of the dialog; it has no transforms, so valid data comes back unchanged. */
  predicate SchemaHolds(f: SignupForm, emailWellFormed: bool) {
    && 2 <= |f.fullName| <= 100 && AllOf(f.fullName, IsNameChar)
    && 10 <= |f.phone| <= 15 && AllOf(f.phone, IsPhoneChar)
    && 14 <= |f.cnpj| <= 18 && CnpjPattern(f.cnpj)
    && 1 <= f.members <= 10000
    && emailWellFormed && |f.email| <= 255
    && 8 <= |f.password| <= 128 && PasswordPattern(f.password)
  }

  function NameChecks(s: string): seq<Check> {
    [ Check(|s| >= 2, "Nome deve ter pelo menos 2 caracteres"),
      Check(|s| <= 100, "Nome muito longo"),
      Check(AllOf(s, IsNameChar), "Nome contém caracteres inválidos") ]
  }

  function PhoneChecks(s: string): seq<Check> {
    [ Check(|s| >= 10, "Telefone deve ter pelo menos 10 dígitos"),
      Check(|s| <= 15, "Telefone muito longo"),
      Check(AllOf(s, IsPhoneChar), "Formato de telefone inválido") ]
  }

  function CnpjChecks(s: string): seq<Check> {
    [ Check(|s| >= 14, "CNPJ deve ter 14 dígitos"),
      Check(|s| <= 18, "CNPJ muito longo"),
      Check(CnpjPattern(s), "Formato de CNPJ inválido") ]
  }

  function MembersChecks(n: int): seq<Check> {
    [ Check(n >= 1, "Deve ter pelo menos 1 membro"),
      Check(n <= 10000, "Número muito alto") ]
  }

  function EmailChecks(s: string, wellFormed: bool): seq<Check> {
    [ Check(wellFormed, "Email inválido"),
      Check(|s| <= 255, "Email muito longo") ]
  }

  /** `freeTrialSchema`: every field checked, their issues reported in field order. */
  function ParseSignupForm(f: SignupForm, emailWellFormed: bool): (r: Parsed<SignupForm>)
    ensures r.Valid? <==> SchemaHolds(f, emailWellFormed)
    ensures r.Valid? ==> r.value == f
    ensures r.Invalid? ==> r.issues != []
  {
    var n, p, c := NameChecks(f.fullName), PhoneChecks(f.phone), CnpjChecks(f.cnpj);
    var m, e, w := MembersChecks(f.members), EmailChecks(f.email, emailWellFormed), PasswordChecks(f.password);
    FailuresOfThree(n[0], n[1], n[2]);
    FailuresOfThree(p[0], p[1], p[2]);
    FailuresOfThree(c[0], c[1], c[2]);
    FailuresOfTwo(m[0], m[1]);
    FailuresOfTwo(e[0], e[1]);
    FailuresOfThree(w[0], w[1], w[2]);
    var issues := Failures(n) + Failures(p) + Failures(c) + Failures(m) + Failures(e) + Failures(w);
    if issues == [] then Valid(f) else Invalid(issues)
  }

  /** The values the handler sends on. */
  datatype Sanitized = Sanitized(
    fullName: string,
    phone: string,
    cnpj: string,
    members: int,
    email: string,
    password: string)

  /** Name and phone trimmed, CNPJ reduced to digits, e-mail lower-cased then trimmed, password untouched. */
  function Sanitize(f: SignupForm): (d: Sanitized)
    ensures d.fullName == Trim(f.fullName) && d.phone == Trim(f.phone)
    ensures d.email == Trim(ToLower(f.email)) && d.cnpj == StripNonDigits(f.cnpj)
    ensures IsTrimmed(d.fullName) && IsTrimmed(d.phone) && IsTrimmed(d.email)
    ensures IsLowered(d.email)
    ensures AllDigits(d.cnpj) && IsSubsequence(d.cnpj, f.cnpj)
    ensures d.members == f.members && d.password == f.password
  {
    ToLowerIsLowered(f.email);
    Sanitized(Trim(f.fullName), Trim(f.phone), StripNonDigits(f.cnpj), f.members, Trim(ToLower(f.email)), f.password)
  }

  /** The form the sanitised data would fill in. */
  function AsForm(d: Sanitized): SignupForm {
    SignupForm(d.fullName, d.phone, d.cnpj, d.members, d.email, d.password)
  }

  /** Sanitising is idempotent: data already sanitised comes back unchanged. */
  lemma SanitizeIdempotent(f: SignupForm)
    ensures Sanitize(AsForm(Sanitize(f))) == Sanitize(f)
  {
    var d := Sanitize(f);
    TrimIdempotent(f.fullName);
    TrimIdempotent(f.phone);
    LoweredIsFixed(d.email);
    TrimOfTrimmed(d.email);
  }

  /** What `signUp` comes back with; a throw and a reported error end up in the same catch. */
  datatype SignUpOutcome = SignUpFailed(error: ErrorHandler.ErrorValue) | SignUpNoUser | SignUpCreated(userId: string)

  /** `create_trial_client`'s result object. */
  datatype TrialClientResult = TrialClientResult(success: bool, error: Option<string>)

  /** What the RPC comes back with: a reported error, a result (possibly null), or a throw. */
  datatype RpcOutcome =
    | RpcFailed(error: ErrorHandler.ErrorValue)
    | RpcReturned(result: Option<TrialClientResult>)
    | RpcThrew(error: ErrorHandler.ErrorValue)

  /** The provider calls the handler makes, in order. */
  datatype Call =
    | SignUpCall(email: string, password: string, fullName: string)
    | CreateClientCall(userId: string, fullName: string, phone: string, cnpj: string, members: int, email: string)
    | DeleteUserCall(userId: string)

  const CnpjLengthMessage: string := "CNPJ deve ter exatamente 14 dígitos"
  const NoUserMessage: string := "Falha na criação do usuário"
  const CreateClientMessage: string := "Erro ao criar cliente"
  const SuccessTitle: string := "Cadastro realizado com sucesso!"

  /** An `Error` built from a message alone. */
  function Thrown(message: string): ErrorHandler.ErrorValue {
    ErrorHandler.ErrorValue(Some(message), None)
  }

  /** How a submission ended: the calls made, the caught error if any, and what the user sees. */
  datatype SubmitResult = SubmitResult(
    calls: seq<Call>,
    error: Option<ErrorHandler.ErrorValue>,
    toast: string,
    closed: bool,
    navigate: Option<string>,
    isLoading: bool)

  /** The end of a failed submission. */
  function Failed(calls: seq<Call>, error: ErrorHandler.ErrorValue): (r: SubmitResult)
    ensures r.error == Some(error) && r.calls == calls && !r.closed && r.navigate.None? && !r.isLoading
  {
    SubmitResult(calls, Some(error), SignupErrorText(error), false, None, false)
  }

  /**
   * The part of `onSubmit` after sign-up produced a user: create the client
   * through the RPC, and when the RPC reports a failure (as an error or as a
   * negative or null result) try to delete the new auth user before failing.
   * The deletion's own failure is swallowed; a throw from the RPC itself
   * skips the deletion.
   */
  function AfterSignUp(d: Sanitized, signUpCall: Call, userId: string, rpc: RpcOutcome): (r: SubmitResult)
    ensures !r.isLoading
    ensures |r.calls| >= 2 && r.calls[..2] == [signUpCall, CreateClientCall(userId, d.fullName, d.phone, d.cnpj, d.members, d.email)]
    ensures r.error.None? <==> rpc.RpcReturned? && rpc.result.Some? && rpc.result.value.success
    ensures r.error.None? ==> r.toast == SuccessTitle && r.closed && r.navigate == Some("/dashboard") && |r.calls| == 2
    ensures rpc.RpcThrew? ==> |r.calls| == 2 && r.error == Some(rpc.error)
    ensures rpc.RpcFailed? || (rpc.RpcReturned? && (rpc.result.None? || !rpc.result.value.success)) ==>
      |r.calls| == 3 && r.calls[2] == DeleteUserCall(userId) && r.error.Some?
    ensures rpc.RpcFailed? ==> r.error == Some(rpc.error)
    ensures rpc.RpcReturned? && rpc.result.None? ==> r.error == Some(Thrown(CreateClientMessage))
    ensures r.error.Some? ==> r.toast == SignupErrorText(r.error.value) && !r.closed && r.navigate.None?
  {
    var calls := [signUpCall, CreateClientCall(userId, d.fullName, d.phone, d.cnpj, d.members, d.email)];
    match rpc
    case RpcThrew(error) => Failed(calls, error)
    case RpcFailed(error) => Failed(calls + [DeleteUserCall(userId)], error)
    case RpcReturned(result) =>
      if result.Some? && result.value.success then
        SubmitResult(calls, None, SuccessTitle, true, Some("/dashboard"), false)
      else
        var message := if result.Some? then ErrorHandler.OrElse(result.value.error, CreateClientMessage)
                       else CreateClientMessage;
        Failed(calls + [DeleteUserCall(userId)], Thrown(message))
  }

  /**
   * `onSubmit`: check the stripped CNPJ, sign up, and continue with the
   * client creation only when sign-up reported no error and produced a user.
   * On success the dialog closes and the page moves to the dashboard after a
   * delay; `isLoading` is cleared on every path.
   */
  function OnSubmit(f: SignupForm, signUp: SignUpOutcome, rpc: RpcOutcome): (r: SubmitResult)
    ensures !r.isLoading
    ensures r.error.None? <==>
      && |StripNonDigits(f.cnpj)| == 14
      && signUp.SignUpCreated?
      && rpc.RpcReturned? && rpc.result.Some? && rpc.result.value.success
    ensures r.error.None? ==> r.toast == SuccessTitle && r.closed && r.navigate == Some("/dashboard")
    ensures r.error.Some? ==> r.toast == SignupErrorText(r.error.value) && !r.closed && r.navigate.None?
    ensures |StripNonDigits(f.cnpj)| != 14 ==> r.calls == [] && r.error == Some(Thrown(CnpjLengthMessage))
    ensures |StripNonDigits(f.cnpj)| == 14 ==>
      |r.calls| >= 1 && r.calls[0] == SignUpCall(Sanitize(f).email, Sanitize(f).password, Sanitize(f).fullName)
    ensures |StripNonDigits(f.cnpj)| == 14 && signUp.SignUpFailed? ==> r.error == Some(signUp.error)
    ensures |StripNonDigits(f.cnpj)| == 14 && signUp.SignUpNoUser? ==> r.error == Some(Thrown(NoUserMessage))
    ensures |StripNonDigits(f.cnpj)| == 14 && signUp.SignUpCreated? && (rpc.RpcFailed? || rpc.RpcThrew?) ==>
      r.error == Some(rpc.error)
  {
    var d := Sanitize(f);
    if |d.cnpj| != 14 then Failed([], Thrown(CnpjLengthMessage))
    else
      var signUpCall := SignUpCall(d.email, d.password, d.fullName);
      match signUp
      case SignUpFailed(error) => Failed([signUpCall], error)
      case SignUpNoUser => Failed([signUpCall], Thrown(NoUserMessage))
      case SignUpCreated(userId) => AfterSignUp(d, signUpCall, userId, rpc)
  }

  predicate CallsCreateClient(calls: seq<Call>) {
    exists i :: 0 <= i < |calls| && calls[i].CreateClientCall?
  }

  /** No client is created unless sign-up produced a user. */
  lemma NoRpcWithoutUser(f: SignupForm, signUp: SignUpOutcome, rpc: RpcOutcome)
    requires !signUp.SignUpCreated?
    ensures !CallsCreateClient(OnSubmit(f, signUp, rpc).calls)
    ensures OnSubmit(f, signUp, rpc).error.Some?
  {
  }

  /**
   * A client-creation failure reported by the RPC, as an error or as a
   * negative result, deletes the new auth user as the last call before the
   * error surfaces.
   */
  lemma CleanupPrecedesFailure(f: SignupForm, userId: string, rpc: RpcOutcome)
    requires |StripNonDigits(f.cnpj)| == 14
    requires rpc.RpcFailed? || (rpc.RpcReturned? && (rpc.result.None? || !rpc.result.value.success))
    ensures var r := OnSubmit(f, SignUpCreated(userId), rpc);
      && |r.calls| == 3 && r.calls[1].CreateClientCall? && r.calls[2] == DeleteUserCall(userId)
      && r.error.Some?
  {
    var d := Sanitize(f);
    var r := OnSubmit(f, SignUpCreated(userId), rpc);
    assert r == AfterSignUp(d, SignUpCall(d.email, d.password, d.fullName), userId, rpc);
    assert r.calls[..2][1] == r.calls[1];
  }

  /** A negative result's own text is the error, or the fixed fallback when it has none. */
  lemma NegativeResultMessage(f: SignupForm, userId: string, result: TrialClientResult)
    requires |StripNonDigits(f.cnpj)| == 14 && !result.success
    ensures OnSubmit(f, SignUpCreated(userId), RpcReturned(Some(result))).error ==
      Some(Thrown(if result.error.Some? && result.error.value != "" then result.error.value else CreateClientMessage))
  {
    var d := Sanitize(f);
    assert OnSubmit(f, SignUpCreated(userId), RpcReturned(Some(result)))
        == AfterSignUp(d, SignUpCall(d.email, d.password, d.fullName), userId, RpcReturned(Some(result)));
  }

  /** For a form the schema accepted, the handler's CNPJ check never fires. */
  lemma SchemaValidFormPassesCnpjCheck(f: SignupForm, emailWellFormed: bool, signUp: SignUpOutcome, rpc: RpcOutcome)
    requires ParseSignupForm(f, emailWellFormed).Valid?
    ensures |OnSubmit(f, signUp, rpc).calls| >= 1
    ensures OnSubmit(f, signUp, rpc).calls[0].SignUpCall?
  {
    assert SchemaHolds(f, emailWellFormed);
    CnpjPatternGivesFourteenDigits(f.cnpj);
  }

  const EmailTakenText: string := "Este email já está cadastrado"
  const CnpjTakenText: string := "Este CNPJ já está cadastrado"
  const CnpjInvalidText: string := "CNPJ informado é inválido"
  const SignupRateText: string := "Muitas tentativas de cadastro. Aguarde alguns minutos e tente novamente."
  const DuplicateText: string := "Email ou CNPJ já cadastrado"
  const PermissionText: string := "Erro de permissão. Tente novamente em alguns instantes."
  const SignupDefaultText: string := "Erro inesperado durante o cadastro"

  /** `error.message?.includes(…)` reads an absent message as one that contains nothing. */
  function MessageOf(error: ErrorHandler.ErrorValue): string {
    error.message.GetOr("")
  }

  /** The caught error's text: case-sensitive substring tests, then the codes, first match wins. */
  function SignupErrorText(error: ErrorHandler.ErrorValue): (text: string)
    ensures text in {EmailTakenText, CnpjTakenText, CnpjInvalidText, SignupRateText, DuplicateText,
                     PermissionText, SignupDefaultText}
  {
    var m := MessageOf(error);
    if Contains(m, "Email já cadastrado") || Contains(m, "duplicate key") then EmailTakenText
    else if Contains(m, "CNPJ já cadastrado") then CnpjTakenText
    else if Contains(m, "CNPJ inválido") then CnpjInvalidText
    else if Contains(m, "User already registered") then EmailTakenText
    else if Contains(m, "over_email_send_rate_limit") then SignupRateText
    else if error.code == Some("23505") then DuplicateText
    else if error.code == Some("42501") then PermissionText
    else SignupDefaultText
  }

  /** The same mapping as a rule table. */
  const SignupRules: seq<ErrorHandler.Rule> := [
    ErrorHandler.MessageRule(["Email já cadastrado", "duplicate key"], EmailTakenText),
    ErrorHandler.MessageRule(["CNPJ já cadastrado"], CnpjTakenText),
    ErrorHandler.MessageRule(["CNPJ inválido"], CnpjInvalidText),
    ErrorHandler.MessageRule(["User already registered"], EmailTakenText),
    ErrorHandler.MessageRule(["over_email_send_rate_limit"], SignupRateText),
    ErrorHandler.CodeRule("23505", DuplicateText),
    ErrorHandler.CodeRule("42501", PermissionText)]

  /** The mapping is the first-match classifier over the rule table, on the message as written. */
  lemma SignupErrorTextIsFirstMatch(error: ErrorHandler.ErrorValue)
    ensures SignupErrorText(error) == ErrorHandler.FirstMatch(SignupRules, MessageOf(error), error.code, SignupDefaultText)
  {
    var m, c, d := MessageOf(error), error.code, SignupDefaultText;
    ErrorHandler.HasAnyTwo(m, "Email já cadastrado", "duplicate key");
    ErrorHandler.HasAnyOne(m, "CNPJ já cadastrado");
    ErrorHandler.HasAnyOne(m, "CNPJ inválido");
    ErrorHandler.HasAnyOne(m, "User already registered");
    ErrorHandler.HasAnyOne(m, "over_email_send_rate_limit");
    assert ErrorHandler.FirstMatch(SignupRules[7..], m, c, d) == d;
    ErrorHandler.FirstMatchStep(SignupRules, 6, m, c, d);
    ErrorHandler.FirstMatchStep(SignupRules, 5, m, c, d);
    ErrorHandler.FirstMatchStep(SignupRules, 4, m, c, d);
    ErrorHandler.FirstMatchStep(SignupRules, 3, m, c, d);
    ErrorHandler.FirstMatchStep(SignupRules, 2, m, c, d);
    ErrorHandler.FirstMatchStep(SignupRules, 1, m, c, d);
    ErrorHandler.FirstMatchStep(SignupRules, 0, m, c, d);
    assert SignupRules[0..] == SignupRules;
  }

  /** A pattern longer than the text, or as long but different, does not occur in it. */
  lemma NotContained(s: string, p: string)
    requires |p| > |s| || (|p| == |s| && p != s)
    ensures !Contains(s, p)
  {
    forall i: nat | i <= |s|
      ensures !OccursAt(s, p, i)
    {
      if i == 0 && |p| == |s| {
        assert s[0..|p|] == s;
      }
    }
  }

  /** Unlike the shared handler, this mapping is case-sensitive. */
  lemma SignupErrorTextIsCaseSensitive()
    ensures SignupErrorText(Thrown("duplicate key")) == EmailTakenText
    ensures SignupErrorText(Thrown("DUPLICATE KEY")) == SignupDefaultText
  {
    assert OccursAt("duplicate key", "duplicate key", 0);
    var m := "DUPLICATE KEY";
    NotContained(m, "Email já cadastrado");
    NotContained(m, "duplicate key");
    NotContained(m, "CNPJ já cadastrado");
    NotContained(m, "CNPJ inválido");
    NotContained(m, "User already registered");
    NotContained(m, "over_email_send_rate_limit");
  }
}
