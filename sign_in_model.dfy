/** The sign-in schema: a well-formed e-mail and a password of at least six
    characters, checked in that order. */
module SignInModel {
  import opened Zod
  import opened ValidationErrors
  import opened Email

  const EmailMessage: string := "Некорректный формат email"
  const PasswordMessage: string := "Пароль должен быть не менее 6 символов"
  const MinPasswordLength: nat := 6

  /** `SignInData`: the record the form holds and the schema checks. */
  datatype SignInData = SignInData(email: string, password: string)

  const SignInFields: set<string> := {"email", "password"}

  /** The checks of `SignInSchema`, in field order, for any verdicts. */
  function TwoRules(emailOk: bool, passwordOk: bool): seq<Rule>
  {
    [Rule(emailOk, "email", EmailMessage), Rule(passwordOk, "password", PasswordMessage)]
  }

  /** The checks `SignInSchema` runs on `d`. */
  function SignInRules(d: SignInData): seq<Rule>
  {
    TwoRules(IsEmail(d.email), |d.password| >= MinPasswordLength)
  }

  /** `SignInSchema.parse(d)`. Every issue it reports is about one of the
      record's own fields. */
  function ParseSignIn(d: SignInData): (r: ParseOutcome)
    ensures r.Success? || r.ZodFailure?
    ensures r.ZodFailure? ==> NoReservedField(r.issues)
    ensures r.ZodFailure? ==>
      forall i :: 0 <= i < |r.issues| ==> r.issues[i].path.Field? && r.issues[i].path.name in SignInFields
  {
    var rules := SignInRules(d);
    assert forall i :: 0 <= i < |Issues(rules)| ==>
      Issues(rules)[i].path.Field? && Issues(rules)[i].path.name in SignInFields by {
      forall i | 0 <= i < |Issues(rules)|
        ensures Issues(rules)[i].path.Field? && Issues(rules)[i].path.name in SignInFields
      {
        IssuesFromRules(rules, i);
      }
    }
    Parse(Issues(rules))
  }

  /** The errors of the two checks, for any verdicts: the e-mail check's
      entry, then the password check's. */
  function TwoChecks(emailOk: bool, passwordOk: bool): ErrorMap
  {
    AfterCheck(AfterCheck(map[], emailOk, "email", EmailMessage), passwordOk, "password", PasswordMessage)
  }

  /** Folding the two checks gives that chain. */
  lemma TwoChecksUnrolled(emailOk: bool, passwordOk: bool)
    ensures RulesErrors(TwoRules(emailOk, passwordOk)) == TwoChecks(emailOk, passwordOk)
  {
    var rules := TwoRules(emailOk, passwordOk);
    var first := rules[..1];
    assert first[..0] == [];
    assert RulesErrors(first) == AfterCheck(map[], emailOk, "email", EmailMessage);
  }

  /** What the two checks' errors say, for any verdicts. */
  lemma TwoChecksShape(emailOk: bool, passwordOk: bool)
    ensures var r := TwoChecks(emailOk, passwordOk);
      && r.Keys <= SignInFields
      && ("email" in r <==> !emailOk) && ("email" in r ==> r["email"] == EmailMessage)
      && ("password" in r <==> !passwordOk) && ("password" in r ==> r["password"] == PasswordMessage)
      && (r == map[] <==> emailOk && passwordOk)
  {
  }

  /** The errors of the sign-in schema for `d`: messages under the record's
      own field names only. What each entry means is `SignInErrorsMeaning`. */
  function ValidateSignIn(d: SignInData): (r: ErrorMap)
    ensures r.Keys <= SignInFields
  {
    TwoChecksUnrolled(IsEmail(d.email), |d.password| >= MinPasswordLength);
    TwoChecksShape(IsEmail(d.email), |d.password| >= MinPasswordLength);
    RulesErrors(SignInRules(d))
  }

  /** `getValidationErrors(SignInSchema, d)` computes exactly these errors. */
  lemma ValidateSignInAgrees(d: SignInData)
    ensures ErrorsOf(ParseSignIn(d)) == ValidateSignIn(d)
  {
    RulesErrorsAgree(SignInRules(d));
    ErrorsOfParse(Issues(SignInRules(d)));
  }

  /** `getValidationErrors(SignInSchema, d)`, as the form calls it. */
  method GetSignInErrors(d: SignInData) returns (errors: ErrorMap)
    ensures errors == ValidateSignIn(d)
  {
    errors := GetValidationErrors(ParseSignIn(d));
    ValidateSignInAgrees(d);
  }

  /** What the sign-in errors say: an e-mail entry exactly when the address
      is malformed, a password entry exactly when it is too short, no other
      key, and an empty map exactly when the schema accepts the record. */
  lemma SignInErrorsMeaning(d: SignInData)
    ensures var r := ValidateSignIn(d);
      && r.Keys <= SignInFields
      && ("email" in r <==> !IsEmail(d.email))
      && ("email" in r ==> r["email"] == EmailMessage)
      && ("password" in r <==> |d.password| < MinPasswordLength)
      && ("password" in r ==> r["password"] == PasswordMessage)
      && (r == map[] <==> ParseSignIn(d).Success?)
  {
    TwoChecksUnrolled(IsEmail(d.email), |d.password| >= MinPasswordLength);
    TwoChecksShape(IsEmail(d.email), |d.password| >= MinPasswordLength);
    RulesErrorsEmpty(SignInRules(d));
  }

  /** A record with a well-formed address and a long enough password passes. */
  lemma ValidSignInHasNoErrors(d: SignInData)
    requires MatchesEmailRegex(d.email) && |d.password| >= MinPasswordLength
    ensures ValidateSignIn(d) == map[]
  {
    EmailRegexEquiv(d.email);
    SignInErrorsMeaning(d);
  }

  /** A malformed address, in each of the ways the format rules out, is reported. */
  lemma MalformedEmailReported(d: SignInData)
    requires || multiset(d.email)['@'] != 1
             || (exists k :: 0 <= k < |d.email| && IsSpace(d.email[k]))
             || (|d.email| > 0 && d.email[0] == '@')
             || (forall at :: 0 < at < |d.email| && d.email[at] == '@' ==> !HasInnerDot(d.email[at + 1..]))
    ensures "email" in ValidateSignIn(d) && ValidateSignIn(d)["email"] == EmailMessage
  {
    EmailRejects(d.email);
    SignInErrorsMeaning(d);
  }

  /** Each field's verdict depends on that field's value alone. */
  lemma SignInFieldsIndependent(d1: SignInData, d2: SignInData)
    ensures d1.email == d2.email ==>
      ("email" in ValidateSignIn(d1) <==> "email" in ValidateSignIn(d2)) &&
      ("email" in ValidateSignIn(d1) ==> ValidateSignIn(d1)["email"] == ValidateSignIn(d2)["email"])
    ensures d1.password == d2.password ==>
      ("password" in ValidateSignIn(d1) <==> "password" in ValidateSignIn(d2)) &&
      ("password" in ValidateSignIn(d1) ==> ValidateSignIn(d1)["password"] == ValidateSignIn(d2)["password"])
  {
    SignInErrorsMeaning(d1);
    SignInErrorsMeaning(d2);
  }
}
