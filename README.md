# training-forms: the validation and form-state core in Dafny

The application has two forms: sign-in (e-mail and password) and sign-up
(first name, nickname, e-mail, gender, password and its confirmation). Each
form keeps its record in component state, checks it against a Zod schema, and
shows the first error message of every field under that field. The model
covers the part of this that is logic rather than rendering:

- **Schemas.** `SignInSchema` and `SignUpSchema` run their checks in field
  order. The sign-up schema ends with a cross-field check that the two
  passwords agree, and reports it on `confirmPassword`.
  - Modules `SignInModel` and `SignUpModel`; the e-mail format is in `Email`.
- **Zod, as far as the forms use it.** Module `Zod` holds:
  - the ordered list of issues a failed `parse` throws;
  - the three ways `parse` can end;
  - the object `ZodError.format()` builds, with its keys in insertion
    order, which is the order `Object.keys` lists for the forms'
    non-numeric field names.

  Two of its functions are plain definitions, with no property of their own
  beyond their bodies. `Zod.Check` is one field check: no issue, or one
  issue on its field with its message. `Zod.Parse` is the end of `parse`:
  success on no issue, otherwise a `ZodError` with those issues. What is
  proved about them is in the rows for `Zod.Issues`, `Zod.IssuesFromRules`,
  `ValidationErrors.ErrorsOfParse` and `ValidationErrors.RulesErrorsEmpty`.
- **`getValidationErrors`.** Module `ValidationErrors` has it as a method
  with the source's loop over the formatted keys. The method is proved
  against a reference meaning: the first message of every field that some
  issue names.
- **`objectHasElements`.** This is module `ObjectUtils`.
- **The controllers.** `SignIn.SignInForm` and `SignUp.SignUpForm` are
  classes whose fields are the components' state cells:
  - `formState`, `errors` and `isSubmitting`;
  - the `isSubmittedRef` flag, as `isSubmitted`.

  Their methods are the event handlers: `Change`, `Submit`, `Complete` and
  `ResetForm`. `SubmitDisabled` is the button's `disabled` expression.

Three scenario methods replay the forms' end-to-end behaviour through the
classes' contracts:

- `SignIn.SignInRound` fills in a valid record, submits it, and completes
  with success.
- `SignIn.NoLiveValidationBeforeSubmit` shows that no error appears while
  editing before a submit attempt, and that one does appear after it.
- `SignUp.MismatchedPasswordsRound` fills in valid fields with unequal
  passwords and submits: nothing is sent, and only the mismatch is shown.

They have no contract of their own, so they have no row below.

The submit collaborator (`onSubmit`) is not code the model can see:

- the records handed to it are appended to the field `sent`;
- its outcome is the argument of a separate `Complete(ok)` step.

The source's `handleSubmit` spans both halves. The part before `await` is
`Submit`; the part after it is `Complete`.

The regular expression `^[^\s@]+@[^\s@]+\.[^\s@]+$` is stated as
`Email.MatchesEmailRegex`: some placing of the `@` and the `.` leaves three
non-empty runs of `[^\s@]`. `Email.EmailRegexEquiv` proves that this is the
same set of strings as `Email.IsEmail`, which requires:

- no whitespace;
- exactly one `@`;
- something before the `@`;
- a domain with a `.` that is neither its first nor its last character.

`\s` is the ECMAScript WhiteSpace and LineTerminator set (`Email.IsSpace`).
The general proofs use nothing about it except that `@` and `.` are not in
it. Only the sample address `a@b.co` (`Email.SampleAddress`, and the
sign-in scenario through it) also uses that its letters are not spaces.

The schemas are given as ordered lists of checks (`Zod.Rule`: verdict, field,
message):

- `Zod.Issues` turns the list into the issues a parse reports.
- `ValidationErrors.RulesErrors` folds the same list into the error map.
- `ValidationErrors.RulesErrorsAgree` proves that the fold equals the first
  message per field of those issues (`ValidationErrors.FirstErrors`).
- The link to `getValidationErrors` itself is the `ensures` of the method
  `ValidationErrors.GetValidationErrors`, whose result is
  `ValidationErrors.ErrorsOf` of the parse outcome. Together with
  `ValidationErrors.ErrorsOfParse`, this is what
  `SignInModel.ValidateSignInAgrees` and `SignUpModel.ValidateSignUpAgrees`
  use.

## Model

| member | source | states |
|---|---|---|
| Zod.Issues | src/components/SignUp/model.ts:3-21 | a schema's checks report no issue at all exactly when every one of them passes |
| Zod.IssuesFromRules | src/components/SignUp/model.ts:3-21 | every reported issue is the issue of some failing check, on that check's field with that check's message |
| Zod.Format | src/utils/getValidationErrors.ts:12 | `format()` always has the root `_errors` entry as a list, every other key is a field node, and its key list and its entries name the same keys |
| ValidationErrors.FirstErrors | src/utils/getValidationErrors.ts:15-19 | the reference meaning of the result, the first message of every field some issue names: at most one entry per issue. What its entries are is `FirstErrorsKeys` and `FirstErrorsFirst`. |
| ValidationErrors.ErrorsOf | src/utils/getValidationErrors.ts:7-24 | the map `getValidationErrors` returns for each way `parse` ends: only a `ZodError` gives entries, and then they are `FirstErrors` of its issues (`ErrorsOfParse`, `ErrorsOfEmpty`) |
| ValidationErrors.FirstErrorsKeys | src/utils/getValidationErrors.ts:15-19 | a field has an entry if and only if some issue is about that field |
| ValidationErrors.FirstErrorsFirst | src/utils/getValidationErrors.ts:17-18 | the entry of a field is the message of the first issue about it; later messages for it are dropped |
| ValidationErrors.FirstErrorsAppend | src/utils/getValidationErrors.ts:15-19 | for any split of the issue list, the entries from the earlier part override those from the later part |
| ValidationErrors.FirstErrorsThenCheck | src/utils/getValidationErrors.ts:15-19 | one more check adds its message only when it fails and its field has no entry yet |
| ValidationErrors.RulesErrorsSnoc | src/utils/getValidationErrors.ts:15-19 | the check at the end of the list is folded in last, after all the checks before it |
| ValidationErrors.RulesErrorsAgree | src/utils/getValidationErrors.ts:7-22 | folding a schema's checks gives exactly the first message per field of the issues they report |
| ValidationErrors.ErrorsOfParse | src/utils/getValidationErrors.ts:7-22 | whether `parse` returns or throws, the result is the first message per field of the issues |
| ValidationErrors.ErrorsOfEmpty | src/utils/getValidationErrors.ts:7-24 | the result is empty if and only if the parse did not fail with an issue on some field |
| ValidationErrors.RulesErrorsEmpty | src/utils/getValidationErrors.ts:7-22 | a schema's error map is empty if and only if the schema accepts the record |
| ValidationErrors.FirstErrorsKeysWithin | src/utils/getValidationErrors.ts:15-19 | when every issue is about one of a set of fields, every key of the result is in that set |
| ValidationErrors.FormatAgrees | src/utils/getValidationErrors.ts:12-19 | `format()` has a node for a field exactly when the field has an entry, and the node's first message is that entry |
| ValidationErrors.GetValidationErrors | src/utils/getValidationErrors.ts:3-26 | the loop over the formatted keys returns: the empty map on success; the empty map on a foreign exception; otherwise the first message of every field. The root `_errors` list is never copied. |
| ObjectUtils.ObjectHasElements | src/utils/objectHasElements.ts:1-6 | false for a missing object; otherwise true if and only if the object has some key, that is, if and only if it is not the empty map |
| ObjectUtils.AddedKeyHasElements | src/utils/objectHasElements.ts:5 | an object with any key added has elements |
| Email.IsSpace | src/components/SignIn/model.ts:6 | JavaScript's `\s`; neither separator of an address, `@` or `.`, is a space |
| Email.MatchesEmailRegex | src/components/SignIn/model.ts:6 | the regular expression read as backtracking over the placing of `@` and `.`; a match has at least 5 characters. Its meaning is `EmailRegexEquiv`. |
| Email.IsEmail | src/components/SignIn/model.ts:6 | the plain description of the accepted addresses; such an address has at least 5 characters. It is the regular expression by `EmailRegexEquiv`. |
| Email.TwoAts | src/components/SignIn/model.ts:6 | two `@` at different places make the count of `@` at least two |
| Email.OnlyAt | src/components/SignIn/model.ts:6 | with exactly one `@`, every other position holds something else |
| Email.RegexNoSpace | src/components/SignIn/model.ts:6 | a string the regular expression matches has no whitespace |
| Email.RegexOneAt | src/components/SignIn/model.ts:6 | a string the regular expression matches holds exactly one `@` |
| Email.RegexImpliesEmail | src/components/SignIn/model.ts:6 | every string the regular expression matches has the plain format |
| Email.EmailImpliesRegex | src/components/SignIn/model.ts:6 | every string of the plain format is matched, at its `@` and an interior `.` of the domain |
| Email.EmailRegexEquiv | src/components/SignIn/model.ts:6 | the regular expression accepts a string if and only if it has the plain format |
| Email.EmailRejects | src/components/SignIn/model.ts:6 | each of these is rejected: a count of `@` other than one; any whitespace; an empty part before the `@`; no `@`; a domain with no interior `.` |
| Email.EmailFromParts | src/components/SignIn/model.ts:6 | three non-empty runs of non-space, non-`@` characters joined by `@` and `.` are accepted |
| Email.SampleAddress | src/components/SignIn/model.ts:6 | `a@b.co` is accepted |
| SignInModel.ParseSignIn | src/components/SignIn/model.ts:3-8 | parsing never throws anything but a `ZodError`, and every issue is about `email` or `password` |
| SignInModel.TwoChecksUnrolled | src/components/SignIn/model.ts:3-8 | the two checks fold to the e-mail check's entry followed by the password check's |
| SignInModel.TwoChecksShape | src/components/SignIn/model.ts:3-8 | for any verdicts, a field has an entry exactly when its check fails, with that check's message, and there is no other key |
| SignInModel.ValidateSignIn | src/components/SignIn/model.ts:3-8 | the errors `SignInSchema` gives a record: entries only under `email` and `password`. What each entry means is `SignInErrorsMeaning`. |
| SignInModel.ValidateSignInAgrees | src/components/SignIn/model.ts:3-8 | `getValidationErrors(SignInSchema, d)` computes exactly the sign-in errors of `d` |
| SignInModel.GetSignInErrors | src/components/SignIn/SignIn.tsx:35 | the call the form makes returns the sign-in errors of the record |
| SignInModel.SignInErrorsMeaning | src/components/SignIn/model.ts:3-11 | the sign-in errors contain:<br>• an `email` entry with "Некорректный формат email" exactly when the address is malformed<br>• a `password` entry with "Пароль должен быть не менее 6 символов" exactly when it is shorter than 6<br>• no other key<br>They are empty exactly when the schema accepts the record. |
| SignInModel.ValidSignInHasNoErrors | src/components/SignIn/model.ts:3-8 | an address the regular expression matches and a password of at least 6 characters give no errors |
| SignInModel.MalformedEmailReported | src/components/SignIn/model.ts:4-6 | each of these gives the e-mail message: no `@` or several; whitespace; an empty local part; a domain without an interior `.` |
| SignInModel.SignInFieldsIndependent | src/components/SignIn/model.ts:3-8 | two records that agree on a field get the same verdict and message for that field |
| SignUpModel.ParseSignUp | src/components/SignUp/model.ts:3-21 | parsing never throws anything but a `ZodError`, and every issue, the cross-field one included, is about one of the six fields |
| SignUpModel.SevenChecksUnrolled | src/components/SignUp/model.ts:3-21 | the seven checks fold, in schema order, to the chain of single-check steps |
| SignUpModel.SevenChecksNames | src/components/SignUp/model.ts:5-9 | for any verdicts, `firstName`, `nickName` and `email` each have an entry exactly when their check fails, with their own message |
| SignUpModel.SevenChecksFields | src/components/SignUp/model.ts:10-15 | for any verdicts, `gender` and `password` likewise, and there is no key outside the six fields |
| SignUpModel.SevenChecksConfirm | src/components/SignUp/model.ts:16-21 | for any verdicts of the other checks, `confirmPassword` has an entry exactly when its length check or the password refine fails; the length message wins when both fail. The refine's verdict counts even when other field checks fail, as in Zod 3. |
| SignUpModel.SevenChecksEmpty | src/components/SignUp/model.ts:3-21 | the errors are empty exactly when all seven checks pass, and are only the mismatch message when the refine is the one failing check |
| SignUpModel.ValidateSignUp | src/components/SignUp/model.ts:3-21 | the errors `SignUpSchema` gives a record: entries only under the six fields. What each entry means is `SignUpErrorsMeaning` and `SignUpAccepts`. |
| SignUpModel.ValidateSignUpAgrees | src/components/SignUp/model.ts:3-21 | `getValidationErrors(SignUpSchema, d)` computes exactly the sign-up errors of `d` |
| SignUpModel.GetSignUpErrors | src/components/SignUp/SignUp.tsx:44 | the call the form makes returns the sign-up errors of the record |
| SignUpModel.GenderChosen | src/components/SignUp/model.ts:10-14 | the gender refine: of the values the union admits, exactly `null` and `undefined` are rejected |
| SignUpModel.SignUpErrorsMeaning | src/components/SignUp/model.ts:3-24 | per field:<br>• `firstName` has "Имя обязательно для заполнения" exactly when it is empty<br>• `nickName` has "Ник обязателен для заполнения" exactly when it is empty<br>• `email` has the format message exactly when malformed<br>• `gender` has "Пол обязателен для выбора" exactly when it is neither male nor female<br>• `password` has the length message exactly when it is shorter than 6<br>• a short `confirmPassword` shows "Повторите пароль"<br>• `confirmPassword` has an entry only when it is short or the passwords differ<br>• no key outside the six fields |
| SignUpModel.SignUpAccepts | src/components/SignUp/model.ts:3-21 | the sign-up errors are empty exactly when every field rule holds and the passwords agree, and exactly when the schema accepts the record |
| SignUpModel.MismatchIsOnlyError | src/components/SignUp/model.ts:18-21 | when all field checks pass but the passwords differ, the errors are exactly `confirmPassword` = "Пароли не совпадают" |
| SignUpModel.MismatchShownDespiteFieldErrors | src/components/SignUp/model.ts:16-21 | a confirmation of at least 6 characters that differs from the password shows "Пароли не совпадают", whatever the other fields hold |
| SignUpModel.MismatchNotOnPassword | src/components/SignUp/model.ts:18-21 | with a valid password, a mismatch puts no entry on `password` and none on the record as a whole |
| SignUpModel.ValidSignUpHasNoErrors | src/components/SignUp/model.ts:3-21 | all fields valid, with an address the regular expression matches and equal passwords, give no errors |
| SignIn.DefaultSignInErrors | src/components/SignIn/SignIn.tsx:12-18 | submitting the untouched form `{email: "", password: ""}` shows exactly the e-mail and the password messages |
| SignIn.WithField | src/components/SignIn/SignIn.tsx:30-31 | the new record has the value under the named field and the other field unchanged |
| SignIn.SignInForm.constructor | src/components/SignIn/SignIn.tsx:12-18 | the form starts with the empty record, no errors, no submit attempt, not submitting |
| SignIn.SignInForm.SubmitDisabled | src/components/SignIn/SignIn.tsx:20 | the button is disabled exactly while submitting or while some error is shown |
| SignIn.SignInForm.ResetForm | src/components/SignIn/SignIn.tsx:22-26 | reset restores the empty record, clears the errors and the submit flag, and touches nothing else |
| SignIn.SignInForm.Change | src/components/SignIn/SignIn.tsx:28-39 | a change stores the new record; before any submit attempt it leaves the errors as they were, afterwards it replaces them with the errors of the new record |
| SignIn.SignInForm.Submit | src/components/SignIn/SignIn.tsx:41-56 | submit always sets the flag and keeps the record. With errors: it shows them, ends not submitting, and does not call the collaborator. Without errors: it calls the collaborator exactly once with the current record and stays submitting. |
| SignIn.SignInForm.Complete | src/components/SignIn/SignIn.tsx:55-62 | success resets the form; failure keeps record, errors and flag; either way submitting ends |
| SignUp.DefaultSignUpErrors | src/components/SignUp/SignUp.tsx:12-19 | submitting the untouched `DEFAULT_SIGN_IN_FIELDS` record shows every field's own message, with the length message on `confirmPassword` |
| SignUp.WithField | src/components/SignUp/SignUp.tsx:37-41 | the new record holds the value under the named field, or the chosen option for the gender radio group, and every other field unchanged |
| SignUp.SignUpForm.constructor | src/components/SignUp/SignUp.tsx:12-27 | the form starts with the defaults record: every text empty, gender null; no errors, no submit attempt |
| SignUp.SignUpForm.SubmitDisabled | src/components/SignUp/SignUp.tsx:29 | the button is disabled exactly while submitting or while some error is shown |
| SignUp.SignUpForm.ResetForm | src/components/SignUp/SignUp.tsx:31-35 | reset restores the defaults record, clears the errors and the submit flag |
| SignUp.SignUpForm.Change | src/components/SignUp/SignUp.tsx:37-48 | a change stores the new record; errors change only once a submit was attempted, and then become those of the new record |
| SignUp.SignUpForm.Submit | src/components/SignUp/SignUp.tsx:50-65 | as for sign-in: an invalid record is shown and not sent, and a valid one is sent exactly once |
| SignUp.SignUpForm.Complete | src/components/SignUp/SignUp.tsx:64-71 | success resets the form; failure keeps the state; either way submitting ends |
| SignUp.SubmitMismatched | src/components/SignUp/SignUp.tsx:57-62 | submitting a record whose fields pass but whose passwords differ sends nothing, shows only the mismatch on `confirmPassword`, and ends not submitting |

## Left out

- Rendering is not modelled: JSX, CSS modules, icons, and the `Input`
  component (src/components/Input/Input.tsx is not part of this model).
- The fake collaborators of src/App.tsx are not modelled: their timers and
  `console.log`. The collaborator's outcome is the argument of
  `Complete(ok)`, and the `console.warn` in the catch block is dropped.
- React scheduling is not modelled: batched or deferred `setState`, stale
  closures and memoisation. Each handler is applied atomically to the
  current state.
- `Submit` requires that no submit is in flight. The disabled button
  prevents a second submit in the source; a programmatic re-entrant submit
  while awaiting is not modelled.
- `Complete` requires a submit in flight: it models the continuation after
  `await`.
- `Change` takes only the names of the form's own inputs. On the sign-up
  form the gender group supplies only `male` or `female`. An arbitrary
  `name` would add a key that is not part of the record.
- `format()` is modelled only for flat paths: the root and one top-level
  field. Nested paths, and the invalid-union issue a non-enum gender string
  would produce, are not modelled.
- `GetValidationErrors` requires that no issue is on a field named
  `_errors`. On such an issue, `format()` itself would throw.
- SignUpModel.SevenChecksConfirm, `SignUpModel.ValidateSignUp` and
  `SignUpModel.MismatchShownDespiteFieldErrors` follow Zod 3. There, none
  of these field checks aborts the parse, so the object-level refine runs
  even after a field check has failed, and its mismatch issue is reported.
  The installed Zod version is not part of this model. Under a Zod that
  skipped the refine once a field check failed, a record with a failing
  field, a long enough confirmation and unequal passwords would show no
  mismatch entry. `SignUpModel.MismatchIsOnlyError` and
  `SignUpModel.SignUpErrorsMeaning` hold under either reading.
- Email.IsSpace: the exact Unicode membership of `\s` is transcribed. The
  general proofs use only that `@` and `.` are not spaces. Only the sample
  address `a@b.co` (`Email.SampleAddress`, and `SignIn.SignInRound`
  through it) also uses that `a`, `b`, `c` and `o` are not spaces.
- SignInModel.SignInErrorsMeaning, `SignUpModel.SignUpErrorsMeaning`,
  `SignUpModel.SignUpAccepts`, `SignUpModel.MismatchIsOnlyError` and every
  other member that states a `min()` length check, the form controllers
  through them included: string length is sequence length. The model does
  not count UTF-16 code units, so a character outside the Basic
  Multilingual Plane counts once, not twice.
- `getValidationErrors` is generic over any schema in the source. The
  model instantiates it for the two schemas of the forms.
