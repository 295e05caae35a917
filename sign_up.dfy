/** The sign-up form controller: the state behind `SignUp` and the events
    that change it. As for sign-in, the records handed to the submit
    collaborator are logged in `sent` and its outcome is a separate step. */
module SignUp {
  import opened ValidationErrors
  import opened ObjectUtils
  import opened SignUpModel

  /** `DEFAULT_SIGN_IN_FIELDS`: every text field empty, no gender chosen. */
  const DefaultSignUpFields: SignUpData := SignUpData("", "", "", Null, "", "")

  /** Submitting the untouched form shows every field's own message; the
      short `confirmPassword` shows its length message, not the mismatch. */
  lemma DefaultSignUpErrors()
    ensures ValidateSignUp(DefaultSignUpFields) ==
      map["firstName" := FirstNameMessage, "nickName" := NickNameMessage, "email" := EmailMessage,
          "gender" := GenderMessage, "password" := PasswordMessage, "confirmPassword" := ConfirmMessage]
  {
    SignUpErrorsMeaning(DefaultSignUpFields);
  }

  /** What a field holds: text, or the gender radio group's value. */
  datatype Content = Text(text: string) | Choice(gender: GenderValue)

  /** The value the form holds under a field name. */
  function FieldValue(d: SignUpData, name: string): Content
    requires name in SignUpFields
  {
    match name
    case "firstName" => Text(d.firstName)
    case "nickName" => Text(d.nickName)
    case "email" => Text(d.email)
    case "gender" => Choice(d.gender)
    case "password" => Text(d.password)
    case _ => Text(d.confirmPassword)
  }

  /** The value a radio button of the gender group carries. */
  predicate IsGenderOption(value: string)
  {
    value == "male" || value == "female"
  }

  /** What a change event's `value` becomes under `name`: the text itself, or
      for the gender group the option it names. */
  function ContentOf(name: string, value: string): Content
    requires name == "gender" ==> IsGenderOption(value)
  {
    if name != "gender" then Text(value)
    else if value == "male" then Choice(Male)
    else Choice(Female)
  }

  /** `{ ...formState, [name]: value }`: the named field takes the new value,
      every other field keeps its own. */
  function WithField(d: SignUpData, name: string, value: string): (r: SignUpData)
    requires name in SignUpFields
    requires name == "gender" ==> IsGenderOption(value)
    ensures FieldValue(r, name) == ContentOf(name, value)
    ensures forall f :: f in SignUpFields && f != name ==> FieldValue(r, f) == FieldValue(d, f)
  {
    match name
    case "firstName" => d.(firstName := value)
    case "nickName" => d.(nickName := value)
    case "email" => d.(email := value)
    case "gender" => d.(gender := if value == "male" then Male else Female)
    case "password" => d.(password := value)
    case _ => d.(confirmPassword := value)
  }

  class SignUpForm {
    /** `formState` */
    var formState: SignUpData
    /** `errors`, the messages shown under the fields */
    var errors: ErrorMap
    /** `isSubmittedRef.current`: whether a submit was attempted since the last reset */
    var isSubmitted: bool
    /** `isSubmitting` */
    var isSubmitting: bool
    /** every record handed to the `onSubmit` collaborator, in order */
    var sent: seq<SignUpData>

    /** Before a submit attempt nothing is shown; after one, the errors shown
        are always those of the current record. */
    ghost predicate Valid()
      reads this
    {
      if isSubmitted then errors == ValidateSignUp(formState) else errors == map[]
    }

    constructor ()
      ensures Valid()
      ensures formState == DefaultSignUpFields && errors == map[]
      ensures !isSubmitted && !isSubmitting && sent == []
    {
      formState := DefaultSignUpFields;
      errors := map[];
      isSubmitted := false;
      isSubmitting := false;
      sent := [];
    }

    /** The submit button's `disabled`: while submitting or while any error is shown. */
    function SubmitDisabled(): (disabled: bool)
      reads this
      ensures disabled <==> isSubmitting || errors != map[]
    {
      isSubmitting || ObjectHasElements(Some(errors))
    }

    /** `resetForm`: the default record, no errors, no submit attempt. */
    method ResetForm()
      modifies this
      ensures Valid()
      ensures formState == DefaultSignUpFields && errors == map[] && !isSubmitted
      ensures isSubmitting == old(isSubmitting) && sent == old(sent)
    {
      formState := DefaultSignUpFields;
      errors := map[];
      isSubmitted := false;
    }

    /** `handleFieldChange`, from a text input or a gender radio button:
        store the new value; re-validate the new record only once a submit
        has been attempted. */
    method Change(name: string, value: string)
      requires Valid() && name in SignUpFields
      requires name == "gender" ==> IsGenderOption(value)
      modifies this
      ensures Valid()
      ensures formState == WithField(old(formState), name, value)
      ensures errors == if isSubmitted then ValidateSignUp(formState) else old(errors)
      ensures isSubmitted == old(isSubmitted) && isSubmitting == old(isSubmitting) && sent == old(sent)
    {
      var newState := WithField(formState, name, value);
      formState := newState;
      if isSubmitted {
        errors := GetSignUpErrors(newState);
      }
    }

    /** `handleSubmit` up to the `await`: mark the attempt, validate, and
        either show the errors and stop, or hand the record to the
        collaborator once and stay submitting until it answers. */
    method Submit() returns (invoked: bool)
      requires Valid() && !isSubmitting
      modifies this
      ensures Valid()
      ensures isSubmitted && formState == old(formState)
      ensures invoked <==> ValidateSignUp(formState) == map[]
      ensures invoked ==> isSubmitting && sent == old(sent) + [formState] && errors == map[]
      ensures !invoked ==> !isSubmitting && sent == old(sent) && errors == ValidateSignUp(formState)
      ensures !invoked ==> SubmitDisabled()
    {
      isSubmitted := true;
      isSubmitting := true;
      var validationErrors := GetSignUpErrors(formState);
      if ObjectHasElements(Some(validationErrors)) {
        errors := validationErrors;
        isSubmitting := false;
        return false;
      }
      sent := sent + [formState];
      return true;
    }

    /** The rest of `handleSubmit` once the collaborator answers: reset on
        success, keep everything on failure, and stop submitting either way. */
    method Complete(ok: bool)
      requires Valid() && isSubmitting
      modifies this
      ensures Valid()
      ensures !isSubmitting && sent == old(sent)
      ensures ok ==> formState == DefaultSignUpFields && errors == map[] && !isSubmitted
      ensures !ok ==> formState == old(formState) && errors == old(errors) && isSubmitted == old(isSubmitted)
    {
      if ok {
        ResetForm();
      }
      isSubmitting := false;
    }
  }

  /** Submitting a record whose fields all pass their own checks but whose
      passwords differ: the collaborator is not called, only the mismatch is
      shown, and the form is idle again. */
  method SubmitMismatched(form: SignUpForm)
    requires form.Valid() && !form.isSubmitting
    requires FieldChecksPass(form.formState)
    requires form.formState.password != form.formState.confirmPassword
    modifies form
    ensures !form.isSubmitting && form.sent == old(form.sent) && form.isSubmitted
    ensures form.errors == map["confirmPassword" := MismatchMessage]
  {
    MismatchIsOnlyError(form.formState);
    assert "confirmPassword" in ValidateSignUp(form.formState);
    var invoked := form.Submit();
  }

  /** Filling in a form whose fields all pass their own checks but whose
      passwords differ, then submitting it: the collaborator is never called,
      only the mismatch is shown, and the form is idle again. */
  method MismatchedPasswordsRound(firstName: string, nickName: string, email: string,
                                  gender: string, password: string, confirmPassword: string)
    requires |firstName| >= MinNameLength && |nickName| >= MinNameLength
    requires Email.IsEmail(email) && IsGenderOption(gender)
    requires |password| >= MinPasswordLength && |confirmPassword| >= MinPasswordLength
    requires password != confirmPassword
  {
    var form := new SignUpForm();
    form.Change("firstName", firstName);
    form.Change("nickName", nickName);
    form.Change("email", email);
    form.Change("gender", gender);
    form.Change("password", password);
    form.Change("confirmPassword", confirmPassword);
    assert form.formState.firstName == firstName && form.formState.nickName == nickName;
    assert form.formState.email == email && form.formState.password == password;
    assert form.formState.confirmPassword == confirmPassword;
    assert form.formState.gender != Null && form.formState.gender != Undefined;
    assert form.errors == map[];
    SubmitMismatched(form);
  }
}
