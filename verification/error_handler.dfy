/**
 * The error handler shared by the application: the user-facing message for
 * an error, the redaction of sensitive fields before logging, and the record
 * that is logged in production builds.
 */
module ErrorHandler {
  import opened Wrappers
  import opened Text

  /** The two properties of a thrown or returned error the handler reads. */
  datatype ErrorValue = ErrorValue(message: Option<string>, code: Option<string>)

  const DefaultUserMessage: string := "Ocorreu um erro inesperado"

  const CredentialsText: string := "Email ou senha incorretos"
  const UnconfirmedText: string := "Verifique sua caixa de email e confirme sua conta"
  const RateLimitText: string := "Muitas tentativas. Tente novamente em alguns minutos"
  const WeakPasswordText: string := "Senha muito fraca. Use pelo menos 8 caracteres com letras e números"
  const SignupDisabledText: string := "Cadastros temporariamente desabilitados"
  const DuplicateText: string := "Este email ou CNPJ já está cadastrado"
  const DeniedText: string := "Acesso negado. Verifique suas permissões"
  const NetworkText: string := "Problema de conexão. Verifique sua internet e tente novamente"

  /** Every message `getUserMessage` can produce besides the caller's default. */
  const UserMessages: set<string> := {
    CredentialsText, UnconfirmedText, RateLimitText, WeakPasswordText,
    SignupDisabledText, DuplicateText, DeniedText, NetworkText }

  /** `error?.message?.toLowerCase() || ''` */
  function LoweredMessage(error: Option<ErrorValue>): string {
    if error.Some? && error.value.message.Some? then ToLower(error.value.message.value) else ""
  }

  /** `error?.code` */
  function CodeOf(error: Option<ErrorValue>): Option<string> {
    if error.Some? then error.value.code else None
  }

  predicate HasAny(s: string, patterns: seq<string>) {
    exists i :: 0 <= i < |patterns| && Contains(s, patterns[i])
  }

  /** `getUserMessage`: classify by lower-cased message and by code, first match wins. */
  function GetUserMessage(error: Option<ErrorValue>, default: string): (text: string)
    ensures text in UserMessages || text == default
    ensures HasAny(LoweredMessage(error), ["invalid login credentials", "invalid_credentials"]) ==>
      text == CredentialsText
  {
    Classify(LoweredMessage(error), CodeOf(error), default)
  }

  /** The classification itself, on the lower-cased message `m` and the code. */
  function Classify(m: string, code: Option<string>, default: string): (text: string)
    ensures text in UserMessages || text == default
    ensures HasAny(m, ["invalid login credentials", "invalid_credentials"]) ==> text == CredentialsText
  {
    HasAnyTwo(m, "invalid login credentials", "invalid_credentials");
    if Contains(m, "invalid login credentials") || Contains(m, "invalid_credentials") then CredentialsText
    else if Contains(m, "email not confirmed") || Contains(m, "unconfirmed") then UnconfirmedText
    else if Contains(m, "too_many_requests") || Contains(m, "rate_limit") then RateLimitText
    else if Contains(m, "weak_password") then WeakPasswordText
    else if Contains(m, "signup_disabled") then SignupDisabledText
    else if code == Some("23505") then DuplicateText
    else if code == Some("42501") then DeniedText
    else if Contains(m, "network") || Contains(m, "fetch") then NetworkText
    else default
  }

  /** One classification rule: a message test or a code test, and the text it yields. */
  datatype Rule = MessageRule(patterns: seq<string>, text: string) | CodeRule(code: string, text: string)

  /** The rules in the order `getUserMessage` tries them. */
  const Rules: seq<Rule> := [
    MessageRule(["invalid login credentials", "invalid_credentials"], CredentialsText),
    MessageRule(["email not confirmed", "unconfirmed"], UnconfirmedText),
    MessageRule(["too_many_requests", "rate_limit"], RateLimitText),
    MessageRule(["weak_password"], WeakPasswordText),
    MessageRule(["signup_disabled"], SignupDisabledText),
    CodeRule("23505", DuplicateText),
    CodeRule("42501", DeniedText),
    MessageRule(["network", "fetch"], NetworkText)]

  predicate RuleMatches(rule: Rule, loweredMessage: string, code: Option<string>) {
    match rule
    case MessageRule(patterns, _) => HasAny(loweredMessage, patterns)
    case CodeRule(c, _) => code == Some(c)
  }

  /** A generic first-match classifier over a rule list. */
  function FirstMatch(rules: seq<Rule>, loweredMessage: string, code: Option<string>, default: string): (text: string)
    ensures text == default || exists i :: 0 <= i < |rules| && text == rules[i].text
    decreases |rules|
  {
    if rules == [] then default
    else if RuleMatches(rules[0], loweredMessage, code) then rules[0].text
    else FirstMatch(rules[1..], loweredMessage, code, default)
  }

  lemma HasAnyTwo(s: string, a: string, b: string)
    ensures HasAny(s, [a, b]) <==> Contains(s, a) || Contains(s, b)
  {
    if Contains(s, a) { assert [a, b][0] == a; }
    if Contains(s, b) { assert [a, b][1] == b; }
  }

  lemma HasAnyOne(s: string, a: string)
    ensures HasAny(s, [a]) <==> Contains(s, a)
  {
    if Contains(s, a) { assert [a][0] == a; }
  }

  /** `getUserMessage` is the first-match classifier over `Rules`. */
  lemma GetUserMessageIsFirstMatch(error: Option<ErrorValue>, default: string)
    ensures GetUserMessage(error, default) == FirstMatch(Rules, LoweredMessage(error), CodeOf(error), default)
  {
    var m, c := LoweredMessage(error), CodeOf(error);
    HasAnyTwo(m, "invalid login credentials", "invalid_credentials");
    HasAnyTwo(m, "email not confirmed", "unconfirmed");
    HasAnyTwo(m, "too_many_requests", "rate_limit");
    HasAnyOne(m, "weak_password");
    HasAnyOne(m, "signup_disabled");
    HasAnyTwo(m, "network", "fetch");
    var d := default;
    assert FirstMatch(Rules[8..], m, c, d) == d;
    FirstMatchStep(Rules, 7, m, c, d);
    FirstMatchStep(Rules, 6, m, c, d);
    FirstMatchStep(Rules, 5, m, c, d);
    FirstMatchStep(Rules, 4, m, c, d);
    FirstMatchStep(Rules, 3, m, c, d);
    FirstMatchStep(Rules, 2, m, c, d);
    FirstMatchStep(Rules, 1, m, c, d);
    FirstMatchStep(Rules, 0, m, c, d);
    assert Rules[0..] == Rules;
  }

  lemma FirstMatchStep(rules: seq<Rule>, k: nat, m: string, c: Option<string>, d: string)
    requires k < |rules|
    ensures FirstMatch(rules[k..], m, c, d) ==
      if RuleMatches(rules[k], m, c) then rules[k].text else FirstMatch(rules[k + 1..], m, c, d)
  {
    assert rules[k..][1..] == rules[k + 1..];
  }

  /** Matching ignores case: a message and its lower-cased form classify alike. */
  lemma GetUserMessageIgnoresCase(message: string, code: Option<string>, default: string)
    ensures GetUserMessage(Some(ErrorValue(Some(message), code)), default)
         == GetUserMessage(Some(ErrorValue(Some(ToLower(message)), code)), default)
  {
    ToLowerIdempotent(message);
    assert LoweredMessage(Some(ErrorValue(Some(message), code)))
        == LoweredMessage(Some(ErrorValue(Some(ToLower(message)), code)));
  }

  /** A missing error, or one without a message, is classified like the empty message. */
  lemma MissingMessageIsEmpty(code: Option<string>, default: string)
    ensures GetUserMessage(None, default) == GetUserMessage(Some(ErrorValue(Some(""), None)), default)
    ensures GetUserMessage(Some(ErrorValue(None, code)), default)
         == GetUserMessage(Some(ErrorValue(Some(""), code)), default)
  {
  }

  /** Log payloads: the JSON-like values `sanitizeForLogging` is given. */
  datatype Json =
    | JNull
    | JBool(b: bool)
    | JNumber(n: int)
    | JString(s: string)
    | JObject(fields: map<string, Json>)

  const SensitiveFields: seq<string> := ["password", "token", "secret", "key", "cnpj", "cpf"]

  const RedactedValue: Json := JString("[REDACTED]")

  /**
   * `sanitizeForLogging`: non-objects come back unchanged; an object is
   * copied with every top-level sensitive field that is present replaced by
   * the redaction marker, and nothing added.
   */
  method SanitizeForLogging(data: Json) returns (r: Json)
    ensures !data.JObject? ==> r == data
    ensures data.JObject? ==> r.JObject? && r.fields.Keys == data.fields.Keys
    ensures data.JObject? ==> forall k :: k in data.fields && k in SensitiveFields ==> r.fields[k] == RedactedValue
    ensures data.JObject? ==> forall k :: k in data.fields && k !in SensitiveFields ==> r.fields[k] == data.fields[k]
  {
    if !data.JObject? {
      return data;
    }
    var sanitized := data.fields;
    for i := 0 to |SensitiveFields|
      invariant sanitized.Keys == data.fields.Keys
      invariant forall k :: k in sanitized && k in SensitiveFields[..i] ==> sanitized[k] == RedactedValue
      invariant forall k :: k in sanitized && k !in SensitiveFields[..i] ==> sanitized[k] == data.fields[k]
    {
      var field := SensitiveFields[i];
      if field in sanitized {
        sanitized := sanitized[field := RedactedValue];
      }
    }
    assert SensitiveFields[..|SensitiveFields|] == SensitiveFields;
    return JObject(sanitized);
  }

  /** What `logError` is told about the failing action. */
  datatype ErrorInfo = ErrorInfo(action: string, context: Option<map<string, string>>, userMessage: Option<string>)

  /** The record the production branch builds; the timestamp is supplied by the caller. */
  datatype LogRecord = LogRecord(action: string, message: string, timestamp: string, userId: string, errorCode: string)

  /** `x || fallback` for an optional string: absent and empty both fall back. */
  function OrElse(x: Option<string>, fallback: string): (r: string)
    ensures r == fallback || (x.Some? && r == x.value && r != "")
  {
    if x.Some? && x.value != "" then x.value else fallback
  }

  /** The context names a non-empty `userId`. */
  predicate HasUserId(info: ErrorInfo)
  {
    info.context.Some? && "userId" in info.context.value && info.context.value["userId"] != ""
  }

  /** `logError`: no record is built in development (console output is not modelled); in production only the safe fields are. */
  function LogError(error: Option<ErrorValue>, info: ErrorInfo, isDevelopment: bool, timestamp: string)
    : (r: Option<LogRecord>)
    ensures r.Some? <==> !isDevelopment
    ensures r.Some? ==> r.value.action == info.action
    ensures r.Some? ==> r.value.message == OrElse(info.userMessage, DefaultUserMessage)
    ensures r.Some? ==> r.value.errorCode == OrElse(CodeOf(error), "unknown")
    ensures r.Some? ==> r.value.timestamp == timestamp
    ensures r.Some? && HasUserId(info) ==> r.value.userId == info.context.value["userId"]
    ensures r.Some? && !HasUserId(info) ==> r.value.userId == "unknown"
  {
    if isDevelopment then None
    else
      var userId := if info.context.Some? && "userId" in info.context.value then Some(info.context.value["userId"]) else None;
      Some(LogRecord(
        info.action,
        OrElse(info.userMessage, DefaultUserMessage),
        timestamp,
        OrElse(userId, "unknown"),
        OrElse(CodeOf(error), "unknown")))
  }

  /** The raw error message never reaches the production record. */
  lemma LogErrorIgnoresMessage(m1: Option<string>, m2: Option<string>, code: Option<string>,
                               info: ErrorInfo, isDevelopment: bool, timestamp: string)
    ensures LogError(Some(ErrorValue(m1, code)), info, isDevelopment, timestamp)
         == LogError(Some(ErrorValue(m2, code)), info, isDevelopment, timestamp)
  {
  }
}
