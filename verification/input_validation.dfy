/**
 * The shared input schemas and the text sanitiser. A schema runs all of its
 * checks and reports every failing one in declaration order; only input that
 * passes them all is transformed. The e-mail format check belongs to the
 * validation library and is taken as a given boolean.
 */
module InputValidation {
  import opened Wrappers
  import opened Text

  /** A schema's verdict: the transformed value, or the messages of the failed checks. */
  datatype Parsed<T> = Valid(value: T) | Invalid(issues: seq<string>)

  /** One check of a schema: whether it passed and the message it reports otherwise. */
  datatype Check = Check(ok: bool, message: string)

  /** The messages of the failing checks, in order. */
  function Failures(checks: seq<Check>): (issues: seq<string>)
    ensures |issues| <= |checks|
    ensures issues == [] <==> forall i :: 0 <= i < |checks| ==> checks[i].ok
    ensures forall i :: 0 <= i < |checks| && !checks[i].ok ==> checks[i].message in issues
    decreases |checks|
  {
    if checks == [] then []
    else if checks[0].ok then Failures(checks[1..])
    else [checks[0].message] + Failures(checks[1..])
  }

  /** What a schema of two checks reports. */
  lemma FailuresOfTwo(a: Check, b: Check)
    ensures Failures([a, b]) == (if a.ok then [] else [a.message]) + (if b.ok then [] else [b.message])
  {
    assert [a, b][1..] == [b];
    assert [b][1..] == [];
  }

  /** What a schema of three checks reports. */
  lemma FailuresOfThree(a: Check, b: Check, c: Check)
    ensures Failures([a, b, c]) ==
      (if a.ok then [] else [a.message]) + (if b.ok then [] else [b.message]) + (if c.ok then [] else [c.message])
  {
    assert [a, b, c][1..] == [b, c];
    FailuresOfTwo(b, c);
  }

  /** The characters the regex `.` does not match. */
  predicate IsLineTerminator(c: char) {
    c == '\n' || c == '\r' || c == '\U{2028}' || c == '\U{2029}'
  }

  /** The input up to its first line terminator: what a look-ahead `.*` from the start can see. */
  function FirstLine(s: string): (r: string)
    ensures |r| <= |s| && r == s[..|r|]
    ensures forall i :: 0 <= i < |r| ==> !IsLineTerminator(r[i])
    ensures |r| == |s| || IsLineTerminator(s[|r|])
  {
    if s == [] || IsLineTerminator(s[0]) then [] else [s[0]] + FirstLine(s[1..])
  }

  predicate HasLower(s: string) { exists i :: 0 <= i < |s| && IsAsciiLower(s[i]) }

  predicate HasUpper(s: string) { exists i :: 0 <= i < |s| && IsAsciiUpper(s[i]) }

  predicate HasDigit(s: string) { exists i :: 0 <= i < |s| && IsDigit(s[i]) }

  /** `/^(?=.*[a-z])(?=.*[A-Z])(?=.*\d)/`: each class occurs before the first line break. */
  predicate PasswordPattern(s: string)
    ensures PasswordPattern(s) ==> HasLower(s) && HasUpper(s) && HasDigit(s)
  {
    var line := FirstLine(s);
    HasLower(line) && HasUpper(line) && HasDigit(line)
  }

  /** On a single-line password the pattern just asks for the three kinds of character. */
  lemma PasswordPatternSingleLine(s: string)
    requires forall i :: 0 <= i < |s| ==> !IsLineTerminator(s[i])
    ensures PasswordPattern(s) <==> HasLower(s) && HasUpper(s) && HasDigit(s)
  {
    assert FirstLine(s) == s;
  }

  const PasswordTooShort: string := "Senha deve ter pelo menos 8 caracteres"
  const PasswordTooLong: string := "Senha muito longa"
  const PasswordTooWeak: string := "Senha deve conter ao menos uma letra minúscula, uma maiúscula e um número"

  /** The checks of `passwordSchema`. */
  function PasswordChecks(p: string): seq<Check> {
    [ Check(|p| >= 8, PasswordTooShort),
      Check(|p| <= 128, PasswordTooLong),
      Check(PasswordPattern(p), PasswordTooWeak) ]
  }

  /** `passwordSchema`: 8 to 128 characters with a lower-case letter, an upper-case letter and a digit. */
  function PasswordSchema(p: string): (r: Parsed<string>)
    ensures r.Valid? <==> 8 <= |p| <= 128 && PasswordPattern(p)
    ensures r.Valid? ==> r.value == p
    ensures r.Invalid? ==> r.issues != [] && forall i :: 0 <= i < |r.issues| ==>
      r.issues[i] in {PasswordTooShort, PasswordTooLong, PasswordTooWeak}
  {
    FailuresOfThree(PasswordChecks(p)[0], PasswordChecks(p)[1], PasswordChecks(p)[2]);
    var issues := Failures(PasswordChecks(p));
    if issues == [] then Valid(p) else Invalid(issues)
  }

  /** `emailSchema`: the library's format check, at most 255 characters, then lower-cased and trimmed. */
  function EmailSchema(email: string, wellFormed: bool): (r: Parsed<string>)
    ensures r.Valid? <==> wellFormed && |email| <= 255
    ensures |email| > 255 ==> r.Invalid? && "Email muito longo" in r.issues
    ensures r.Valid? ==> r.value == Trim(ToLower(email)) && IsTrimmed(r.value) && IsLowered(r.value)
  {
    FailuresOfTwo(Check(wellFormed, "Email inválido"), Check(|email| <= 255, "Email muito longo"));
    var issues := Failures([Check(wellFormed, "Email inválido"), Check(|email| <= 255, "Email muito longo")]);
    if issues == [] then
      ToLowerIsLowered(email);
      Valid(Trim(ToLower(email)))
    else Invalid(issues)
  }

  /** Characters of `[a-zA-ZÀ-ÿ\s\-\.]`. */
  predicate IsNameChar(c: char) {
    IsAsciiLower(c) || IsAsciiUpper(c) || ('\U{00C0}' <= c <= '\U{00FF}') || IsWhitespace(c) || c == '-' || c == '.'
  }

  /** Characters of `[a-zA-ZÀ-ÿ0-9\s\-\.]`. */
  predicate IsChurchNameChar(c: char) {
    IsNameChar(c) || IsDigit(c)
  }

  /** `^[...]+$` for a class given as a predicate. */
  predicate AllOf(s: string, inClass: char -> bool) {
    s != [] && forall i :: 0 <= i < |s| ==> inClass(s[i])
  }

  /** A bounded-length, character-class-restricted text schema that trims its output. */
  function TextSchema(s: string, min: nat, max: nat, inClass: char -> bool,
                      short: string, long: string, invalid: string): (r: Parsed<string>)
    ensures r.Valid? <==> min <= |s| <= max && AllOf(s, inClass)
    ensures r.Valid? ==> r.value == Trim(s)
  {
    FailuresOfThree(Check(|s| >= min, short), Check(|s| <= max, long), Check(AllOf(s, inClass), invalid));
    var issues := Failures([Check(|s| >= min, short), Check(|s| <= max, long), Check(AllOf(s, inClass), invalid)]);
    if issues == [] then Valid(Trim(s)) else Invalid(issues)
  }

  /** `churchNameSchema` */
  function ChurchNameSchema(s: string): (r: Parsed<string>)
    ensures r.Valid? <==> 2 <= |s| <= 100 && forall i :: 0 <= i < |s| ==> IsChurchNameChar(s[i])
    ensures r.Valid? ==> r.value == Trim(s)
  {
    TextSchema(s, 2, 100, IsChurchNameChar,
               "Nome da igreja deve ter pelo menos 2 caracteres",
               "Nome da igreja muito longo",
               "Nome da igreja contém caracteres inválidos")
  }

  /** `pastorNameSchema`: like the church name, without digits. */
  function PastorNameSchema(s: string): (r: Parsed<string>)
    ensures r.Valid? <==> 2 <= |s| <= 100 && forall i :: 0 <= i < |s| ==> IsNameChar(s[i])
    ensures r.Valid? ==> r.value == Trim(s)
  {
    TextSchema(s, 2, 100, IsNameChar,
               "Nome do pastor deve ter pelo menos 2 caracteres",
               "Nome do pastor muito longo",
               "Nome do pastor contém caracteres inválidos")
  }

  /** `addressSchema`: 5 to 200 characters of anything, trimmed. */
  function AddressSchema(s: string): (r: Parsed<string>)
    ensures r.Valid? <==> 5 <= |s| <= 200
    ensures r.Valid? ==> r.value == Trim(s)
  {
    FailuresOfTwo(Check(|s| >= 5, "Endereço deve ter pelo menos 5 caracteres"), Check(|s| <= 200, "Endereço muito longo"));
    var issues := Failures([Check(|s| >= 5, "Endereço deve ter pelo menos 5 caracteres"),
                            Check(|s| <= 200, "Endereço muito longo")]);
    if issues == [] then Valid(Trim(s)) else Invalid(issues)
  }

  /** The church `tipo` enumeration. */
  function ChurchTypeSchema(t: string): (r: Parsed<string>)
    ensures r.Valid? <==> t == "matriz" || t == "filial"
    ensures r.Valid? ==> r.value == t
  {
    if t == "matriz" || t == "filial" then Valid(t) else Invalid(["Tipo de igreja inválido"])
  }

  /** `text.trim().replace(/[<>]/g, '')`: what `sanitizeText` cuts its prefix from. */
  function Unbracketed(text: string): string {
    Delete(Trim(text), {'<', '>'})
  }

  /**
   * `sanitizeText`: trim, delete every angle bracket, keep at most the first
   * 1000 characters.
   */
  function SanitizeText(text: string): (r: string)
    ensures forall i :: 0 <= i < |r| ==> r[i] != '<' && r[i] != '>'
    ensures |r| <= 1000
    ensures |r| == if |Unbracketed(text)| <= 1000 then |Unbracketed(text)| else 1000
    ensures r == Unbracketed(text)[..|r|]
    ensures IsSubsequence(r, text)
  {
    var t := Trim(text);
    var u := Delete(t, {'<', '>'});
    var r := if |u| <= 1000 then u else u[..1000];
    assert r == u[..|r|];
    SubsequenceOfPrefix(u, t, |r|);
    InfixIsSubsequence(text, LeadingWhitespace(text), LeadingWhitespace(text) + |t|);
    SubsequenceTransitive(r, t, text);
    r
  }

  /** Sanitising is not idempotent: a bracket can shield white space from the trim. */
  lemma SanitizeTextNotIdempotent()
    ensures SanitizeText("< a") == " a"
    ensures SanitizeText(SanitizeText("< a")) == "a"
  {
    assert LeadingWhitespace("< a") == 0;
    assert TrailingWhitespace("< a") == 0;
    assert Trim("< a") == "< a";
    assert Delete("< a", {'<', '>'}) == " a" by {
      assert ("< a")[1..] == " a";
      assert (" a")[1..] == "a";
      assert ("a")[1..] == "";
    }
    assert LeadingWhitespace(" a") == 1 by {
      assert (" a")[1..] == "a";
    }
    assert TrailingWhitespace("a") == 0;
    assert Trim(" a") == "a";
    assert Delete("a", {'<', '>'}) == "a" by {
      assert ("a")[1..] == "";
    }
  }

  datatype ChurchForm = ChurchForm(nome: string, endereco: string, tipo: string, pastorNome: string, pastorEmail: string)

  /** The issues of the five fields, concatenated in field order. */
  function IssuesOf<A, B, C, D, E>(a: Parsed<A>, b: Parsed<B>, c: Parsed<C>, d: Parsed<D>, e: Parsed<E>): seq<string> {
    (if a.Invalid? then a.issues else []) + (if b.Invalid? then b.issues else []) +
    (if c.Invalid? then c.issues else []) + (if d.Invalid? then d.issues else []) +
    (if e.Invalid? then e.issues else [])
  }

  /** `validateChurchData`: every field parsed by its schema; valid only when all of them are. */
  function ValidateChurchData(form: ChurchForm, pastorEmailWellFormed: bool): (r: Parsed<ChurchForm>)
    ensures r.Valid? <==>
      && ChurchNameSchema(form.nome).Valid?
      && AddressSchema(form.endereco).Valid?
      && ChurchTypeSchema(form.tipo).Valid?
      && PastorNameSchema(form.pastorNome).Valid?
      && EmailSchema(form.pastorEmail, pastorEmailWellFormed).Valid?
    ensures r.Valid? ==>
      (&& r.value.nome == Trim(form.nome)
       && r.value.endereco == Trim(form.endereco)
       && r.value.tipo == form.tipo
       && r.value.pastorNome == Trim(form.pastorNome)
       && r.value.pastorEmail == Trim(ToLower(form.pastorEmail)) && IsLowered(r.value.pastorEmail))
    ensures r.Invalid? ==> r.issues != []
  {
    var nome := ChurchNameSchema(form.nome);
    var endereco := AddressSchema(form.endereco);
    var tipo := ChurchTypeSchema(form.tipo);
    var pastor := PastorNameSchema(form.pastorNome);
    var email := EmailSchema(form.pastorEmail, pastorEmailWellFormed);
    if nome.Valid? && endereco.Valid? && tipo.Valid? && pastor.Valid? && email.Valid? then
      Valid(ChurchForm(nome.value, endereco.value, tipo.value, pastor.value, email.value))
    else
      Invalid(IssuesOf(nome, endereco, tipo, pastor, email))
  }

  datatype LoginData = LoginData(email: string, password: string)

  /** `validateLoginData`: the e-mail schema, and any non-empty password. */
  function ValidateLoginData(email: string, password: string, emailWellFormed: bool): (r: Parsed<LoginData>)
    ensures r.Valid? <==> EmailSchema(email, emailWellFormed).Valid? && |password| >= 1
    ensures r.Valid? ==> r.value == LoginData(Trim(ToLower(email)), password)
  {
    var e := EmailSchema(email, emailWellFormed);
    var p := if |password| >= 1 then Valid(password) else Invalid(["Senha é obrigatória"]);
    if e.Valid? && p.Valid? then Valid(LoginData(e.value, p.value))
    else Invalid((if e.Invalid? then e.issues else []) + (if p.Invalid? then p.issues else []))
  }

  /** Login validation puts no strength rule on the password: one character is enough. */
  lemma LoginAcceptsAnyNonEmptyPassword(email: string, password: string)
    requires password != []
    requires EmailSchema(email, true).Valid?
    ensures ValidateLoginData(email, password, true).Valid?
  {
  }
}
