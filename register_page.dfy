/** The registration page `src/pages/register/index.js`: password scoring,
    the whole-form validation, the CEP (Brazilian postal code) mask applied
    while typing, the eight-digit rule that triggers an address lookup, and
    the form state its change handlers update. */
module RegisterPage {
  import opened Common
  import opened Text

  // ------------------------------------------------------ password rules

  /** `/[A-Z]/.test(s)`. */
  predicate HasUpper(s: string) { exists i :: 0 <= i < |s| && IsUpper(s[i]) }

  /** `/[a-z]/.test(s)`. */
  predicate HasLower(s: string) { exists i :: 0 <= i < |s| && IsLower(s[i]) }

  /** `/\d/.test(s)`. */
  predicate HasDigit(s: string) { exists i :: 0 <= i < |s| && IsDigit(s[i]) }

  /** The class `[!@#$%^&*]`. */
  predicate IsSpecial(c: char) {
    c == '!' || c == '@' || c == '#' || c == '$' || c == '%' || c == '^' || c == '&' || c == '*'
  }

  predicate HasSpecial(s: string) { exists i :: 0 <= i < |s| && IsSpecial(s[i]) }

  const CriteriaCount := 5

  /** Criterion `k` of the five, in the order the page checks them. */
  predicate Criterion(password: string, k: nat)
    requires k < CriteriaCount
  {
    if k == 0 then JsLength(password) >= 6
    else if k == 1 then HasUpper(password)
    else if k == 2 then HasLower(password)
    else if k == 3 then HasDigit(password)
    else HasSpecial(password)
  }

  /** The feedback message shown when criterion `k` fails. */
  const CriterionMessages: seq<string> := [
    "A senha deve ter pelo menos 6 caracteres",
    "A senha deve conter pelo menos uma letra maiúscula",
    "A senha deve conter pelo menos uma letra minúscula",
    "A senha deve conter pelo menos um número",
    "A senha deve conter pelo menos um caractere especial (!@#$%^&*)"
  ]

  /** Number of the first `k` criteria the password meets, accumulated in
      checking order. */
  function StrengthUpTo(password: string, k: nat): (n: nat)
    requires k <= CriteriaCount
    ensures n <= k
  {
    if k == 0 then 0
    else StrengthUpTo(password, k - 1) + (if Criterion(password, k - 1) then 1 else 0)
  }

  /** Messages of the failing criteria among the first `k`, in checking order. */
  function FeedbackUpTo(password: string, k: nat): seq<string>
    requires k <= CriteriaCount
  {
    if k == 0 then []
    else FeedbackUpTo(password, k - 1) + (if Criterion(password, k - 1) then [] else [CriterionMessages[k - 1]])
  }

  /** The password's strength: how many of the five criteria it meets. */
  function Strength(password: string): (n: nat)
    ensures n <= CriteriaCount
  {
    StrengthUpTo(password, CriteriaCount)
  }

  /** The feedback lines of `validatePassword`. */
  function Feedback(password: string): seq<string> {
    FeedbackUpTo(password, CriteriaCount)
  }

  lemma {:induction false} StrengthPlusFeedbackUpTo(password: string, k: nat)
    requires k <= CriteriaCount
    ensures StrengthUpTo(password, k) + |FeedbackUpTo(password, k)| == k
  {
    if k > 0 {
      StrengthPlusFeedbackUpTo(password, k - 1);
    }
  }

  /** Every criterion either adds one to the strength or one feedback line. */
  lemma StrengthPlusFeedback(password: string)
    ensures Strength(password) + |Feedback(password)| == CriteriaCount
  {
    StrengthPlusFeedbackUpTo(password, CriteriaCount);
  }

  lemma {:induction false} FeedbackEmptyIffAllUpTo(password: string, k: nat)
    requires k <= CriteriaCount
    ensures FeedbackUpTo(password, k) == [] <==> forall j :: 0 <= j < k ==> Criterion(password, j)
  {
    if k > 0 {
      FeedbackEmptyIffAllUpTo(password, k - 1);
    }
  }

  /** No feedback exactly when all five criteria hold. */
  lemma FeedbackEmptyIffAll(password: string)
    ensures Feedback(password) == [] <==> forall j :: 0 <= j < CriteriaCount ==> Criterion(password, j)
  {
    FeedbackEmptyIffAllUpTo(password, CriteriaCount);
  }

  lemma {:induction false} FirstFeedbackUpTo(password: string, k: nat, first: nat)
    requires first < k <= CriteriaCount
    requires !Criterion(password, first)
    requires forall j :: 0 <= j < first ==> Criterion(password, j)
    ensures FeedbackUpTo(password, k) != [] && FeedbackUpTo(password, k)[0] == CriterionMessages[first]
  {
    if k == first + 1 {
      FeedbackEmptyIffAllUpTo(password, first);
    } else {
      FirstFeedbackUpTo(password, k - 1, first);
    }
  }

  /** The first feedback line, the one the form shows, is the message of the
      first failing criterion. */
  lemma FirstFeedbackIsFirstFailure(password: string, first: nat)
    requires first < CriteriaCount
    requires !Criterion(password, first)
    requires forall j :: 0 <= j < first ==> Criterion(password, j)
    ensures Feedback(password) != [] && Feedback(password)[0] == CriterionMessages[first]
  {
    FirstFeedbackUpTo(password, CriteriaCount, first);
  }

  /** The length rule counts UTF-16 units: a five-character password ending
      in an emoji meets all five criteria. */
  lemma AstralPasswordIsStrong()
    ensures Strength("Aa1!\U{1F600}") == CriteriaCount && Feedback("Aa1!\U{1F600}") == []
  {
    var p := "Aa1!\U{1F600}";
    JsLengthOfSurrogatePair();
    assert IsUpper(p[0]) && IsLower(p[1]) && IsDigit(p[2]) && IsSpecial(p[3]);
    assert forall j :: 0 <= j < CriteriaCount ==> Criterion(p, j);
    FeedbackEmptyIffAll(p);
    StrengthPlusFeedback(p);
  }

  /** The CSS class shown for a strength. */
  function StrengthClass(strength: nat): (c: string)
    ensures c == "strength-weak" <==> strength <= 2
    ensures c == "strength-medium" <==> 3 <= strength <= 4
    ensures c == "strength-strong" <==> strength >= 5
  {
    if strength <= 2 then "strength-weak"
    else if strength <= 4 then "strength-medium"
    else "strength-strong"
  }

  /** `validatePassword`: one test per criterion, counting the ones met and
      collecting the messages of the ones failed. */
  method ValidatePassword(password: string) returns (strengthClass: string, feedback: seq<string>)
    ensures feedback == Feedback(password)
    ensures strengthClass == StrengthClass(Strength(password))
    ensures Strength(password) + |feedback| == CriteriaCount
  {
    var strength := 0;
    feedback := [];
    strength := strength + (if JsLength(password) >= 6 then 1 else 0);
    feedback := feedback + (if JsLength(password) >= 6 then [] else [CriterionMessages[0]]);
    assert strength == StrengthUpTo(password, 1) && feedback == FeedbackUpTo(password, 1);
    strength := strength + (if HasUpper(password) then 1 else 0);
    feedback := feedback + (if HasUpper(password) then [] else [CriterionMessages[1]]);
    assert strength == StrengthUpTo(password, 2) && feedback == FeedbackUpTo(password, 2);
    strength := strength + (if HasLower(password) then 1 else 0);
    feedback := feedback + (if HasLower(password) then [] else [CriterionMessages[2]]);
    assert strength == StrengthUpTo(password, 3) && feedback == FeedbackUpTo(password, 3);
    strength := strength + (if HasDigit(password) then 1 else 0);
    feedback := feedback + (if HasDigit(password) then [] else [CriterionMessages[3]]);
    assert strength == StrengthUpTo(password, 4) && feedback == FeedbackUpTo(password, 4);
    strength := strength + (if HasSpecial(password) then 1 else 0);
    feedback := feedback + (if HasSpecial(password) then [] else [CriterionMessages[4]]);
    assert strength == Strength(password) && feedback == Feedback(password);
    if strength <= 2 {
      strengthClass := "strength-weak";
    } else if strength <= 4 {
      strengthClass := "strength-medium";
    } else {
      strengthClass := "strength-strong";
    }
    StrengthPlusFeedback(password);
  }

  // -------------------------------------------------------- email rule

  /** `s[i..j]` is a non-empty run of non-space characters. */
  predicate NonSpaceRun(s: string, i: int, j: int)
    requires 0 <= i <= j <= |s|
  {
    i < j && forall m :: i <= m < j ==> !IsSpace(s[m])
  }

  /** An `@` at `at` and a `.` at `dot` delimit a match: a non-space just
      before the `@`, a run of non-spaces strictly between the two, and a
      non-space just after the `.`. */
  predicate DelimitsEmail(s: string, at: int, dot: int) {
    0 < at && at + 1 < dot && dot + 1 < |s| && s[at] == '@' && s[dot] == '.'
    && !IsSpace(s[at - 1]) && !IsSpace(s[dot + 1]) && NonSpaceRun(s, at + 1, dot)
  }

  /** `/\S+@\S+\.\S+/.test(s)`, searched over the two delimiters. */
  predicate EmailMatches(s: string) {
    exists at, dot :: 0 < at < dot < |s| && DelimitsEmail(s, at, dot)
  }

  /** The substring `s[i..j]` splits as `\S+`, `@`, `\S+`, `.`, `\S+`. */
  ghost predicate MatchSpan(s: string, i: int, at: int, dot: int, j: int) {
    0 <= i < at < dot < j <= |s| && s[at] == '@' && s[dot] == '.'
    && NonSpaceRun(s, i, at) && NonSpaceRun(s, at + 1, dot) && NonSpaceRun(s, dot + 1, j)
  }

  /** The regular-expression reading: some substring matches the pattern. */
  ghost predicate RegexMatch(s: string) {
    exists i, at, dot, j :: MatchSpan(s, i, at, dot, j)
  }

  /** The delimiter search finds a match exactly when the pattern matches
      some substring. */
  lemma EmailMatchesIffRegex(s: string)
    ensures EmailMatches(s) <==> RegexMatch(s)
  {
    if EmailMatches(s) {
      var at, dot :| 0 < at < dot < |s| && DelimitsEmail(s, at, dot);
      assert MatchSpan(s, at - 1, at, dot, dot + 2);
    }
    if RegexMatch(s) {
      var i, at, dot, j :| MatchSpan(s, i, at, dot, j);
      assert DelimitsEmail(s, at, dot);
    }
  }

  /** The pattern is unanchored: text around a match does not spoil it. */
  lemma EmailMatchUnanchored(pre: string, s: string, post: string)
    requires EmailMatches(s)
    ensures EmailMatches(pre + s + post)
  {
    var u := pre + s;
    var t := u + post;
    var at, dot :| 0 < at < dot < |s| && DelimitsEmail(s, at, dot);
    var o := |pre|;
    forall m | 0 <= m < |s| ensures t[o + m] == s[m] {
      assert t[o + m] == u[o + m];
      assert u[o + m] == s[m];
    }
    assert t[o + at] == '@' && t[o + dot] == '.';
    assert t[o + at - 1] == s[at - 1] && t[o + dot + 1] == s[dot + 1];
    forall m | o + at + 1 <= m < o + dot ensures !IsSpace(t[m]) {
      assert t[o + (m - o)] == s[m - o];
    }
    assert DelimitsEmail(t, o + at, o + dot);
  }

  // ------------------------------------------------------ whole form

  const NameRequired := "Nome é obrigatório"
  const EmailRequired := "Email é obrigatório"
  const EmailInvalid := "Email inválido"
  const PasswordsDiffer := "As senhas não conferem"

  /** The four fields of `formData`. */
  predicate HasFormFields(f: map<string, string>) {
    "name" in f && "email" in f && "password" in f && "confirmPassword" in f
  }

  /** What `validateForm` accepts: a non-blank name, a non-blank email
      matching the pattern, a password without feedback, and a matching
      confirmation. */
  predicate FormAcceptable(f: map<string, string>)
    requires HasFormFields(f)
  {
    Trim(f["name"]) != "" && Trim(f["email"]) != "" && EmailMatches(f["email"])
    && Feedback(f["password"]) == [] && f["password"] == f["confirmPassword"]
  }

  /** The same in terms of the five password criteria and of white space:
      the form is accepted exactly when every rule holds. */
  lemma AcceptableIffAllRules(f: map<string, string>)
    requires HasFormFields(f)
    ensures FormAcceptable(f) <==>
      !IsBlank(f["name"]) && !IsBlank(f["email"]) && EmailMatches(f["email"])
      && (forall k :: 0 <= k < CriteriaCount ==> Criterion(f["password"], k))
      && f["password"] == f["confirmPassword"]
  {
    FeedbackEmptyIffAll(f["password"]);
    TrimEmptyIffBlank(f["name"]);
    TrimEmptyIffBlank(f["email"]);
  }

  function NameStep(errors: map<string, string>, nameBlank: bool): map<string, string> {
    if nameBlank then errors["name" := NameRequired] else errors
  }

  function EmailStep(errors: map<string, string>, emailBlank: bool, emailMatches: bool): map<string, string> {
    if emailBlank then errors["email" := EmailRequired]
    else if !emailMatches then errors["email" := EmailInvalid]
    else errors
  }

  function PasswordStep(errors: map<string, string>, feedback: seq<string>): map<string, string> {
    if |feedback| > 0 then errors["password" := feedback[0]] else errors
  }

  function ConfirmStep(errors: map<string, string>, passwordsDiffer: bool): map<string, string> {
    if passwordsDiffer then errors["confirmPassword" := PasswordsDiffer] else errors
  }

  /** The `newErrors` dictionary `validateForm` builds from the outcome of
      each rule, checked in the order name, email, password, confirmation. */
  function ErrorsFor(nameBlank: bool, emailBlank: bool, emailMatches: bool, feedback: seq<string>, passwordsDiffer: bool)
    : map<string, string>
  {
    ConfirmStep(PasswordStep(EmailStep(NameStep(map[], nameBlank), emailBlank, emailMatches), feedback),
                passwordsDiffer)
  }

  /** Which fields `newErrors` names and with which message: one entry per
      failed rule, and none when every rule holds. */
  lemma ErrorsForMeaning(nameBlank: bool, emailBlank: bool, emailMatches: bool, feedback: seq<string>, passwordsDiffer: bool)
    ensures var e := ErrorsFor(nameBlank, emailBlank, emailMatches, feedback, passwordsDiffer);
      && e.Keys <= {"name", "email", "password", "confirmPassword"}
      && ("name" in e <==> nameBlank)
      && ("name" in e ==> e["name"] == NameRequired)
      && ("email" in e <==> emailBlank || !emailMatches)
      && ("email" in e ==> e["email"] == (if emailBlank then EmailRequired else EmailInvalid))
      && ("password" in e <==> feedback != [])
      && ("password" in e ==> e["password"] == feedback[0])
      && ("confirmPassword" in e <==> passwordsDiffer)
      && ("confirmPassword" in e ==> e["confirmPassword"] == PasswordsDiffer)
      && (|e| == 0 <==> !nameBlank && !emailBlank && emailMatches && feedback == [] && !passwordsDiffer)
  {
    var e := ErrorsFor(nameBlank, emailBlank, emailMatches, feedback, passwordsDiffer);
    assert |e| != 0 ==> exists k :: k in e;
  }

  /** The outcome of each rule of `validateForm`. */
  datatype RuleOutcomes = RuleOutcomes(
    nameBlank: bool, emailBlank: bool, emailMatches: bool, feedback: seq<string>, passwordsDiffer: bool)

  /** The rules applied to the form `f`. */
  function RulesOf(f: map<string, string>): RuleOutcomes
    requires HasFormFields(f)
  {
    RuleOutcomes(Trim(f["name"]) == "", Trim(f["email"]) == "", EmailMatches(f["email"]),
                 Feedback(f["password"]), f["password"] != f["confirmPassword"])
  }

  /** The errors `validateForm` stores for the form `f`. */
  function FormErrors(f: map<string, string>): map<string, string>
    requires HasFormFields(f)
  {
    var r := RulesOf(f);
    ErrorsFor(r.nameBlank, r.emailBlank, r.emailMatches, r.feedback, r.passwordsDiffer)
  }

  /** `validateForm` returns true exactly when the form is acceptable. */
  lemma FormErrorsEmptyIffAcceptable(f: map<string, string>)
    requires HasFormFields(f)
    ensures |FormErrors(f)| == 0 <==> FormAcceptable(f)
  {
    var r := RulesOf(f);
    ErrorsForMeaning(r.nameBlank, r.emailBlank, r.emailMatches, r.feedback, r.passwordsDiffer);
  }

  /** The rule checks at the start of `validateForm`, the password rule
      through `validatePassword`. */
  method CheckRules(f: map<string, string>) returns (rules: RuleOutcomes)
    requires HasFormFields(f)
    ensures rules == RulesOf(f)
  {
    var password := f["password"];
    var strengthClass, feedback := ValidatePassword(password);
    rules := RuleOutcomes(Trim(f["name"]) == "", Trim(f["email"]) == "", EmailMatches(f["email"]),
                          feedback, password != f["confirmPassword"]);
  }

  /** `validateForm` on the form `f`: the errors it stores and its answer. */
  method ValidateFields(f: map<string, string>) returns (newErrors: map<string, string>, ok: bool)
    requires HasFormFields(f)
    ensures newErrors == FormErrors(f)
    ensures ok <==> |newErrors| == 0
  {
    var rules := CheckRules(f);
    newErrors := CollectErrors(rules.nameBlank, rules.emailBlank, rules.emailMatches, rules.feedback,
                               rules.passwordsDiffer);
    ok := |newErrors| == 0;
  }

  /** `validateForm`'s filling of `newErrors`, one rule at a time, given
      the outcome of each rule. */
  method CollectErrors(nameBlank: bool, emailBlank: bool, emailMatches: bool, feedback: seq<string>, passwordsDiffer: bool)
    returns (newErrors: map<string, string>)
    ensures newErrors == ErrorsFor(nameBlank, emailBlank, emailMatches, feedback, passwordsDiffer)
  {
    newErrors := map[];
    if nameBlank {
      newErrors := newErrors["name" := NameRequired];
    }
    ghost var afterName := newErrors;
    if emailBlank {
      newErrors := newErrors["email" := EmailRequired];
    } else if !emailMatches {
      newErrors := newErrors["email" := EmailInvalid];
    }
    ghost var afterEmail := newErrors;
    if |feedback| > 0 {
      newErrors := newErrors["password" := feedback[0]];
    }
    ghost var afterPassword := newErrors;
    if passwordsDiffer {
      newErrors := newErrors["confirmPassword" := PasswordsDiffer];
    }
    assert afterName == NameStep(map[], nameBlank);
    assert afterEmail == EmailStep(afterName, emailBlank, emailMatches);
    assert afterPassword == PasswordStep(afterEmail, feedback);
  }

  /** A field's error is "set" when present and non-empty (`errors[name]` is truthy). */
  predicate ErrorShown(errors: map<string, string>, name: string) {
    name in errors && errors[name] != ""
  }

  /** `errors` after typing into field `name`: a shown error is blanked. */
  function ClearFieldError(errors: map<string, string>, name: string): (r: map<string, string>)
    ensures !ErrorShown(r, name)
    ensures forall k :: k in errors && k != name ==> k in r && r[k] == errors[k]
    ensures r.Keys == errors.Keys
  {
    if ErrorShown(errors, name) then errors[name := ""] else errors
  }

  // -------------------------------------------------------- CEP rules

  /** Digits of `s` only (`d` below) or digits with one dash after the fifth. */
  predicate MaskShaped(r: string) {
    (forall i :: 0 <= i < |r| ==> IsDigit(r[i]) || r[i] == '-')
    && (forall i, j :: 0 <= i < |r| && 0 <= j < |r| && r[i] == '-' && r[j] == '-' ==> i == j)
  }

  /** `handleCepChange`'s formatting: strip the non-digits and, beyond five
      digits, insert a dash and keep at most eight digits. */
  function CepMask(raw: string): (r: string)
    ensures MaskShaped(r)
    ensures |r| <= 9
    ensures |Digits(raw)| <= 5 ==> r == Digits(raw)
    ensures |Digits(raw)| > 5 ==>
      r == Digits(raw)[..5] + "-" + Digits(raw)[5..Min(8, |Digits(raw)|)]
  {
    var d := Digits(raw);
    if |d| > 5 then
      var r := d[..5] + "-" + d[5..Min(8, |d|)];
      assert forall i :: 0 <= i < |r| && i != 5 ==> IsDigit(r[i]);
      r
    else d
  }

  /** Stripping the dash out of two digit runs joined by it gives the runs. */
  lemma {:induction false} DigitsOfDashJoin(a: string, b: string)
    requires forall i :: 0 <= i < |a| ==> IsDigit(a[i])
    requires forall i :: 0 <= i < |b| ==> IsDigit(b[i])
    ensures Digits(a + "-" + b) == a + b
  {
    DigitsAppend(a + "-", b);
    DigitsAppend(a, "-");
    assert Digits("-") == [];
    DigitsOfDigits(a);
    DigitsOfDigits(b);
  }

  /** The digits of the masked value are the first (at most eight) digits typed. */
  lemma MaskKeepsLeadingDigits(raw: string)
    ensures Digits(CepMask(raw)) == Digits(raw)[..Min(8, |Digits(raw)|)]
  {
    var d := Digits(raw);
    var m := Min(8, |d|);
    if |d| > 5 {
      var a, b := d[..5], d[5..m];
      DigitsOfDashJoin(a, b);
      assert a + b == d[..m];
    } else {
      DigitsOfDigits(d);
      assert d[..m] == d;
    }
  }

  /** Re-masking an already masked value changes nothing. */
  lemma MaskIdempotent(raw: string)
    ensures CepMask(CepMask(raw)) == CepMask(raw)
  {
    MaskKeepsLeadingDigits(raw);
    var d := Digits(raw);
    var e := Digits(CepMask(raw));
    assert e == d[..Min(8, |d|)];
    if |d| > 5 {
      assert e[..5] == d[..5];
      assert e[5..Min(8, |e|)] == d[5..Min(8, |d|)];
    }
  }

  /** `handleCepBlur`'s guard: the lookup runs on the stripped value only
      when exactly eight digits remain. */
  function CepLookupTarget(raw: string): (r: Option<string>)
    ensures r.Some? <==> |Digits(raw)| == 8
    ensures r.Some? ==> r.value == Digits(raw)
  {
    var cep := Digits(raw);
    if |cep| != 8 then None else Some(cep)
  }

  /** Leaving a field filled by the mask triggers the lookup exactly when at
      least eight digits were typed. */
  lemma MaskedCepTriggersLookup(raw: string)
    ensures CepLookupTarget(CepMask(raw)).Some? <==> |Digits(raw)| >= 8
  {
    MaskKeepsLeadingDigits(raw);
  }

  // ---------------------------------------------------------- form state

  /** The page's `formData`, `address`, `errors` and `passwordStrength`
      state cells. */
  class RegisterForm {
    var formData: map<string, string>
    var address: map<string, string>
    var errors: map<string, string>
    var passwordStrength: string

    ghost predicate Valid()
      reads this
    {
      HasFormFields(formData)
    }

    constructor ()
      ensures Valid()
      ensures formData == map["name" := "", "email" := "", "password" := "", "confirmPassword" := ""]
      ensures address == map["street" := "", "number" := "", "complement" := "", "neighborhood" := "",
                              "city" := "", "state" := "", "zipCode" := "", "country" := "Brasil"]
      ensures errors == map[] && passwordStrength == ""
    {
      formData := map["name" := "", "email" := "", "password" := "", "confirmPassword" := ""];
      address := map["street" := "", "number" := "", "complement" := "", "neighborhood" := "",
                     "city" := "", "state" := "", "zipCode" := "", "country" := "Brasil"];
      errors := map[];
      passwordStrength := "";
    }

    /** `handleChange` for the input called `name`. */
    method HandleChange(name: string, value: string)
      requires Valid()
      modifies this
      ensures Valid()
      ensures formData == old(formData)[name := value]
      ensures address == old(address)
      ensures passwordStrength == (if name == "password" then StrengthClass(Strength(value)) else old(passwordStrength))
      ensures errors == ClearFieldError(old(errors), name)
    {
      formData := formData[name := value];
      if name == "password" {
        var strengthClass, feedback := ValidatePassword(value);
        passwordStrength := strengthClass;
      }
      if name in errors && errors[name] != "" {
        errors := errors[name := ""];
      }
    }

    /** `handleAddressChange` for the address input called `name`. */
    method HandleAddressChange(name: string, value: string)
      requires Valid()
      modifies this
      ensures Valid()
      ensures address == old(address)[name := value]
      ensures formData == old(formData) && passwordStrength == old(passwordStrength)
      ensures errors == ClearFieldError(old(errors), name)
    {
      address := address[name := value];
      if name in errors && errors[name] != "" {
        errors := errors[name := ""];
      }
    }

    /** `handleCepChange`. */
    method HandleCepChange(raw: string)
      requires Valid()
      modifies this
      ensures Valid()
      ensures address == old(address)["zipCode" := CepMask(raw)]
      ensures formData == old(formData) && errors == old(errors) && passwordStrength == old(passwordStrength)
    {
      var value := Digits(raw);
      if |value| > 5 {
        value := value[..5] + "-" + value[5..Min(8, |value|)];
      }
      address := address["zipCode" := value];
    }

    /** `validateForm`: rebuild `errors` from scratch and report whether it
        came out empty. */
    method ValidateForm() returns (ok: bool)
      requires Valid()
      modifies this`errors
      ensures Valid()
      ensures errors == FormErrors(formData)
      ensures ok <==> |errors| == 0
    {
      var newErrors;
      newErrors, ok := ValidateFields(formData);
      errors := newErrors;
    }
  }
}
