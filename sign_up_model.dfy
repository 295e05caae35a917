/** The sign-up schema: six field checks in declaration order, then the
    cross-field check that the two passwords agree, reported on
    `confirmPassword`. */
module SignUpModel {
  import opened Zod
  import opened ValidationErrors
  import opened Email

  const FirstNameMessage: string := "Имя обязательно для заполнения"
  const NickNameMessage: string := "Ник обязателен для заполнения"
  const EmailMessage: string := "Некорректный формат email"
  const GenderMessage: string := "Пол обязателен для выбора"
  const PasswordMessage: string := "Пароль должен быть не менее 6 символов"
  const ConfirmMessage: string := "Повторите пароль"
  const MismatchMessage: string := "Пароли не совпадают"
  const MinNameLength: nat := 1
  const MinPasswordLength: nat := 6

  /** The gender field: one of the two enumerated values, or absent. */
  datatype GenderValue = Null | Undefined | Male | Female

  /** `SignUpData`: the record the form holds and the schema checks. */
  datatype SignUpData = SignUpData(
    firstName: string,
    nickName: string,
    email: string,
    gender: GenderValue,
    password: string,
    confirmPassword: string)

  const SignUpFields: set<string> :=
    {"firstName", "nickName", "email", "gender", "password", "confirmPassword"}

  /** The gender refine: only `"male"` and `"female"` are accepted, so the
      two absent values the union lets through are exactly the ones it
      rejects. */
  predicate GenderChosen(g: GenderValue)
    ensures GenderChosen(g) <==> !(g.Null? || g.Undefined?)
  {
    g == Male || g == Female
  }

  /** The field-level part of the schema: every field passes its own rule. */
  predicate FieldChecksPass(d: SignUpData)
  {
    && |d.firstName| >= MinNameLength
    && |d.nickName| >= MinNameLength
    && IsEmail(d.email)
    && GenderChosen(d.gender)
    && |d.password| >= MinPasswordLength
    && |d.confirmPassword| >= MinPasswordLength
  }

  /** The checks of `SignUpSchema` for any verdicts: the field checks in
      the order the fields are declared, then the refine on the whole
      object, which reports on `confirmPassword`. */
  function SevenRules(b1: bool, b2: bool, b3: bool, b4: bool, b5: bool, b6: bool, b7: bool): seq<Rule>
  {
    [Rule(b1, "firstName", FirstNameMessage),
     Rule(b2, "nickName", NickNameMessage),
     Rule(b3, "email", EmailMessage),
     Rule(b4, "gender", GenderMessage),
     Rule(b5, "password", PasswordMessage),
     Rule(b6, "confirmPassword", ConfirmMessage),
     Rule(b7, "confirmPassword", MismatchMessage)]
  }

  /** The checks `SignUpSchema` runs on `d`. */
  function SignUpRules(d: SignUpData): seq<Rule>
  {
    SevenRules(|d.firstName| >= MinNameLength, |d.nickName| >= MinNameLength, IsEmail(d.email),
      GenderChosen(d.gender), |d.password| >= MinPasswordLength,
      |d.confirmPassword| >= MinPasswordLength, d.password == d.confirmPassword)
  }

  /** `SignUpSchema.parse(d)`. Every issue, the cross-field one included, is
      about one of the record's own fields. */
  function ParseSignUp(d: SignUpData): (r: ParseOutcome)
    ensures r.Success? || r.ZodFailure?
    ensures r.ZodFailure? ==> NoReservedField(r.issues)
    ensures r.ZodFailure? ==>
      forall i :: 0 <= i < |r.issues| ==> r.issues[i].path.Field? && r.issues[i].path.name in SignUpFields
  {
    var rules := SignUpRules(d);
    assert forall i :: 0 <= i < |Issues(rules)| ==>
      Issues(rules)[i].path.Field? && Issues(rules)[i].path.name in SignUpFields by {
      forall i | 0 <= i < |Issues(rules)|
        ensures Issues(rules)[i].path.Field? && Issues(rules)[i].path.name in SignUpFields
      {
        IssuesFromRules(rules, i);
      }
    }
    Parse(Issues(rules))
  }

  /** The errors of the seven checks in schema order, for any verdicts
      `b1`..`b7`: each check adds its message unless it passes or its field
      already has one. */
  function SevenChecks(b1: bool, b2: bool, b3: bool, b4: bool, b5: bool, b6: bool, b7: bool): ErrorMap
  {
    var m1 := AfterCheck(map[], b1, "firstName", FirstNameMessage);
    var m2 := AfterCheck(m1, b2, "nickName", NickNameMessage);
    var m3 := AfterCheck(m2, b3, "email", EmailMessage);
    var m4 := AfterCheck(m3, b4, "gender", GenderMessage);
    var m5 := AfterCheck(m4, b5, "password", PasswordMessage);
    var m6 := AfterCheck(m5, b6, "confirmPassword", ConfirmMessage);
    AfterCheck(m6, b7, "confirmPassword", MismatchMessage)
  }

  /** Folding the seven checks gives that chain. */
  lemma SevenChecksUnrolled(b1: bool, b2: bool, b3: bool, b4: bool, b5: bool, b6: bool, b7: bool)
    ensures RulesErrors(SevenRules(b1, b2, b3, b4, b5, b6, b7)) == SevenChecks(b1, b2, b3, b4, b5, b6, b7)
  {
    var r1 := [] + [Rule(b1, "firstName", FirstNameMessage)];
    var r2 := r1 + [Rule(b2, "nickName", NickNameMessage)];
    var r3 := r2 + [Rule(b3, "email", EmailMessage)];
    var r4 := r3 + [Rule(b4, "gender", GenderMessage)];
    var r5 := r4 + [Rule(b5, "password", PasswordMessage)];
    var r6 := r5 + [Rule(b6, "confirmPassword", ConfirmMessage)];
    RulesErrorsSnoc([], Rule(b1, "firstName", FirstNameMessage));
    RulesErrorsSnoc(r1, Rule(b2, "nickName", NickNameMessage));
    RulesErrorsSnoc(r2, Rule(b3, "email", EmailMessage));
    RulesErrorsSnoc(r3, Rule(b4, "gender", GenderMessage));
    RulesErrorsSnoc(r4, Rule(b5, "password", PasswordMessage));
    RulesErrorsSnoc(r5, Rule(b6, "confirmPassword", ConfirmMessage));
    RulesErrorsSnoc(r6, Rule(b7, "confirmPassword", MismatchMessage));
    assert SevenRules(b1, b2, b3, b4, b5, b6, b7) == r6 + [Rule(b7, "confirmPassword", MismatchMessage)];
  }

  /** The first three checks' fields, for any verdicts: an entry exactly
      when the check fails, with its own message. */
  lemma SevenChecksNames(b1: bool, b2: bool, b3: bool, b4: bool, b5: bool, b6: bool, b7: bool)
    ensures var r := SevenChecks(b1, b2, b3, b4, b5, b6, b7);
      && ("firstName" in r <==> !b1) && ("firstName" in r ==> r["firstName"] == FirstNameMessage)
      && ("nickName" in r <==> !b2) && ("nickName" in r ==> r["nickName"] == NickNameMessage)
      && ("email" in r <==> !b3) && ("email" in r ==> r["email"] == EmailMessage)
  {
  }

  /** The gender and password checks likewise, and no key outside the
      record's fields. */
  lemma SevenChecksFields(b1: bool, b2: bool, b3: bool, b4: bool, b5: bool, b6: bool, b7: bool)
    ensures var r := SevenChecks(b1, b2, b3, b4, b5, b6, b7);
      && r.Keys <= SignUpFields
      && ("gender" in r <==> !b4) && ("gender" in r ==> r["gender"] == GenderMessage)
      && ("password" in r <==> !b5) && ("password" in r ==> r["password"] == PasswordMessage)
  {
  }

  /** The two checks on `confirmPassword` share one entry; the length check,
      coming first, wins. */
  lemma SevenChecksConfirm(b1: bool, b2: bool, b3: bool, b4: bool, b5: bool, b6: bool, b7: bool)
    ensures var r := SevenChecks(b1, b2, b3, b4, b5, b6, b7);
      && ("confirmPassword" in r <==> !b6 || !b7)
      && (!b6 ==> r["confirmPassword"] == ConfirmMessage)
      && (b6 && !b7 ==> r["confirmPassword"] == MismatchMessage)
  {
  }

  /** The seven checks' errors are empty exactly when every check passes, and
      hold only the mismatch when that is the one check failing. */
  lemma SevenChecksEmpty(b1: bool, b2: bool, b3: bool, b4: bool, b5: bool, b6: bool, b7: bool)
    ensures var r := SevenChecks(b1, b2, b3, b4, b5, b6, b7);
      && (r == map[] <==> b1 && b2 && b3 && b4 && b5 && b6 && b7)
      && (b1 && b2 && b3 && b4 && b5 && b6 && !b7 ==> r == map["confirmPassword" := MismatchMessage])
  {
    SevenChecksNames(b1, b2, b3, b4, b5, b6, b7);
    SevenChecksFields(b1, b2, b3, b4, b5, b6, b7);
    SevenChecksConfirm(b1, b2, b3, b4, b5, b6, b7);
  }

  /** The errors of the sign-up schema for `d`: messages under the record's
      own field names only. What each entry means is `SignUpErrorsMeaning`. */
  function ValidateSignUp(d: SignUpData): (r: ErrorMap)
    ensures r.Keys <= SignUpFields
  {
    SevenChecksUnrolled(|d.firstName| >= MinNameLength, |d.nickName| >= MinNameLength, IsEmail(d.email),
      GenderChosen(d.gender), |d.password| >= MinPasswordLength,
      |d.confirmPassword| >= MinPasswordLength, d.password == d.confirmPassword);
    SevenChecksFields(|d.firstName| >= MinNameLength, |d.nickName| >= MinNameLength, IsEmail(d.email),
      GenderChosen(d.gender), |d.password| >= MinPasswordLength,
      |d.confirmPassword| >= MinPasswordLength, d.password == d.confirmPassword);
    RulesErrors(SignUpRules(d))
  }

  /** `getValidationErrors(SignUpSchema, d)` computes exactly these errors. */
  lemma ValidateSignUpAgrees(d: SignUpData)
    ensures ErrorsOf(ParseSignUp(d)) == ValidateSignUp(d)
  {
    RulesErrorsAgree(SignUpRules(d));
    ErrorsOfParse(Issues(SignUpRules(d)));
  }

  /** `getValidationErrors(SignUpSchema, d)`, as the form calls it. */
  method GetSignUpErrors(d: SignUpData) returns (errors: ErrorMap)
    ensures errors == ValidateSignUp(d)
  {
    errors := GetValidationErrors(ParseSignUp(d));
    ValidateSignUpAgrees(d);
  }

  /** What the sign-up errors say: each single-field rule gives its field an
      entry exactly when it fails; a short `confirmPassword` shows the length
      message, which comes before the cross-field one; and no key lies
      outside the record's fields. */
  lemma SignUpErrorsMeaning(d: SignUpData)
    ensures var r := ValidateSignUp(d);
      && r.Keys <= SignUpFields
      && ("firstName" in r <==> |d.firstName| < MinNameLength)
      && ("firstName" in r ==> r["firstName"] == FirstNameMessage)
      && ("nickName" in r <==> |d.nickName| < MinNameLength)
      && ("nickName" in r ==> r["nickName"] == NickNameMessage)
      && ("email" in r <==> !IsEmail(d.email))
      && ("email" in r ==> r["email"] == EmailMessage)
      && ("gender" in r <==> !GenderChosen(d.gender))
      && ("gender" in r ==> r["gender"] == GenderMessage)
      && ("password" in r <==> |d.password| < MinPasswordLength)
      && ("password" in r ==> r["password"] == PasswordMessage)
      && (|d.confirmPassword| < MinPasswordLength ==>
            "confirmPassword" in r && r["confirmPassword"] == ConfirmMessage)
      && ("confirmPassword" in r ==>
            |d.confirmPassword| < MinPasswordLength || d.password != d.confirmPassword)
  {
    SevenChecksUnrolled(|d.firstName| >= MinNameLength, |d.nickName| >= MinNameLength, IsEmail(d.email),
      GenderChosen(d.gender), |d.password| >= MinPasswordLength,
      |d.confirmPassword| >= MinPasswordLength, d.password == d.confirmPassword);
    SevenChecksNames(|d.firstName| >= MinNameLength, |d.nickName| >= MinNameLength, IsEmail(d.email),
      GenderChosen(d.gender), |d.password| >= MinPasswordLength,
      |d.confirmPassword| >= MinPasswordLength, d.password == d.confirmPassword);
    SevenChecksFields(|d.firstName| >= MinNameLength, |d.nickName| >= MinNameLength, IsEmail(d.email),
      GenderChosen(d.gender), |d.password| >= MinPasswordLength,
      |d.confirmPassword| >= MinPasswordLength, d.password == d.confirmPassword);
    SevenChecksConfirm(|d.firstName| >= MinNameLength, |d.nickName| >= MinNameLength, IsEmail(d.email),
      GenderChosen(d.gender), |d.password| >= MinPasswordLength,
      |d.confirmPassword| >= MinPasswordLength, d.password == d.confirmPassword);
  }

  /** The sign-up errors are empty exactly when every rule holds and the
      passwords agree, that is, exactly when the schema accepts the record. */
  lemma SignUpAccepts(d: SignUpData)
    ensures ValidateSignUp(d) == map[] <==> FieldChecksPass(d) && d.password == d.confirmPassword
    ensures ValidateSignUp(d) == map[] <==> ParseSignUp(d).Success?
  {
    SevenChecksUnrolled(|d.firstName| >= MinNameLength, |d.nickName| >= MinNameLength, IsEmail(d.email),
      GenderChosen(d.gender), |d.password| >= MinPasswordLength,
      |d.confirmPassword| >= MinPasswordLength, d.password == d.confirmPassword);
    SevenChecksEmpty(|d.firstName| >= MinNameLength, |d.nickName| >= MinNameLength, IsEmail(d.email),
      GenderChosen(d.gender), |d.password| >= MinPasswordLength,
      |d.confirmPassword| >= MinPasswordLength, d.password == d.confirmPassword);
    RulesErrorsEmpty(SignUpRules(d));
  }

  /** When every field passes on its own but the passwords differ, the only
      entry is the mismatch message, on `confirmPassword`. */
  lemma MismatchIsOnlyError(d: SignUpData)
    requires FieldChecksPass(d) && d.password != d.confirmPassword
    ensures ValidateSignUp(d) == map["confirmPassword" := MismatchMessage]
  {
    SevenChecksUnrolled(|d.firstName| >= MinNameLength, |d.nickName| >= MinNameLength, IsEmail(d.email),
      GenderChosen(d.gender), |d.password| >= MinPasswordLength,
      |d.confirmPassword| >= MinPasswordLength, d.password == d.confirmPassword);
    SevenChecksEmpty(|d.firstName| >= MinNameLength, |d.nickName| >= MinNameLength, IsEmail(d.email),
      GenderChosen(d.gender), |d.password| >= MinPasswordLength,
      |d.confirmPassword| >= MinPasswordLength, d.password == d.confirmPassword);
  }

  /** A long enough confirmation that differs from the password shows the
      mismatch message whatever the other fields hold: the refine on the
      whole object runs after field checks that failed, as in Zod 3, where
      none of these checks aborts the parse. */
  lemma MismatchShownDespiteFieldErrors(d: SignUpData)
    requires |d.confirmPassword| >= MinPasswordLength && d.password != d.confirmPassword
    ensures "confirmPassword" in ValidateSignUp(d)
    ensures ValidateSignUp(d)["confirmPassword"] == MismatchMessage
  {
    SevenChecksUnrolled(|d.firstName| >= MinNameLength, |d.nickName| >= MinNameLength, IsEmail(d.email),
      GenderChosen(d.gender), |d.password| >= MinPasswordLength,
      |d.confirmPassword| >= MinPasswordLength, d.password == d.confirmPassword);
    SevenChecksConfirm(|d.firstName| >= MinNameLength, |d.nickName| >= MinNameLength, IsEmail(d.email),
      GenderChosen(d.gender), |d.password| >= MinPasswordLength,
      |d.confirmPassword| >= MinPasswordLength, d.password == d.confirmPassword);
  }

  /** A mismatch is never reported on `password` nor on the record as a whole. */
  lemma MismatchNotOnPassword(d: SignUpData)
    requires |d.password| >= MinPasswordLength && d.password != d.confirmPassword
    ensures "password" !in ValidateSignUp(d) && RootKey !in ValidateSignUp(d)
  {
    SignUpErrorsMeaning(d);
  }

  /** A complete record with matching passwords passes. */
  lemma ValidSignUpHasNoErrors(d: SignUpData)
    requires |d.firstName| >= MinNameLength && |d.nickName| >= MinNameLength
    requires MatchesEmailRegex(d.email) && GenderChosen(d.gender)
    requires |d.password| >= MinPasswordLength && d.password == d.confirmPassword
    ensures ValidateSignUp(d) == map[]
  {
    EmailRegexEquiv(d.email);
    SignUpAccepts(d);
  }
}
