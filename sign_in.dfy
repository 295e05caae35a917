/** The sign-in form controller: the state behind `SignIn` and the three
    events that change it. The submit collaborator is not called here; the
    records handed to it are logged in `sent`, and its outcome arrives as a
    separate `Complete` step. */
module SignIn {
  import opened ValidationErrors
  import opened ObjectUtils
  import opened SignInModel

  /** The empty record the form starts from and returns to on reset. */
  const DefaultSignInFields: SignInData := SignInData("", "")

  /** Submitting the untouched form shows both fields' messages. */
  lemma DefaultSignInErrors()
    ensures ValidateSignIn(DefaultSignInFields) ==
      map["email" := EmailMessage, "password" := PasswordMessage]
  {
    SignInErrorsMeaning(DefaultSignInFields);
  }

  /** The value the form holds under a field name. */
  function FieldValue(d: SignInData, name: string): string
    requires name in SignInFields
  {
    if name == "email" then d.email else d.password
  }

  /** `{ ...formState, [name]: value }`: the named field takes the new value,
      the other keeps its own. */
  function WithField(d: SignInData, name: string, value: string): (r: SignInData)
    requires name in SignInFields
    ensures FieldValue(r, name) == value
    ensures forall f :: f in SignInFields && f != name ==> FieldValue(r, f) == FieldValue(d, f)
  {
    if name == "email" then d.(email := value) else d.(password := value)
  }

  class SignInForm {
    /** `formState` */
    var formState: SignInData
    /** `errors`, the messages shown under the fields */
    var errors: ErrorMap
    /** `isSubmittedRef.current`: whether a submit was attempted since the last reset */
    var isSubmitted: bool
    /** `isSubmitting` */
    var isSubmitting: bool
    /** every record handed to the `onSubmit` collaborator, in order */
    var sent: seq<SignInData>

    /** Before a submit attempt nothing is shown; after one, the errors shown
        are always those of the current record. */
    ghost predicate Valid()
      reads this
    {
      if isSubmitted then errors == ValidateSignIn(formState) else errors == map[]
    }

    constructor ()
      ensures Valid()
      ensures formState == DefaultSignInFields && errors == map[]
      ensures !isSubmitted && !isSubmitting && sent == []
    {
      formState := DefaultSignInFields;
      errors := map[];
      isSubmitted := false;
      isSubmitting := false;
      sent := [];
    }

    /** The submit button's `disabled`: while submitting or while any error is shown. */
    function SubmitDisabled(): (disabled: bool)
      reads this
      ensures disabled <==> isSubmitting || errors != map[]
    {
      isSubmitting || ObjectHasElements(Some(errors))
    }

    /** `resetForm`: the empty record, no errors, no submit attempt. */
    method ResetForm()
      modifies this
      ensures Valid()
      ensures formState == DefaultSignInFields && errors == map[] && !isSubmitted
      ensures isSubmitting == old(isSubmitting) && sent == old(sent)
    {
      formState := DefaultSignInFields;
      errors := map[];
      isSubmitted := false;
    }

    /** `handleFieldChange`: store the new value; re-validate the new record
        only once a submit has been attempted. */
    method Change(name: string, value: string)
      requires Valid() && name in SignInFields
      modifies this
      ensures Valid()
      ensures formState == WithField(old(formState), name, value)
      ensures errors == if isSubmitted then ValidateSignIn(formState) else old(errors)
      ensures isSubmitted == old(isSubmitted) && isSubmitting == old(isSubmitting) && sent == old(sent)
    {
      var newState := WithField(formState, name, value);
      formState := newState;
      if isSubmitted {
        errors := GetSignInErrors(newState);
      }
    }

    /** `handleSubmit` up to the `await`: mark the attempt, validate, and
        either show the errors and stop, or hand the record to the
        collaborator once and stay submitting until it answers. */
    method Submit() returns (invoked: bool)
      requires Valid() && !isSubmitting
      modifies this
      ensures Valid()
      ensures isSubmitted && formState == old(formState)
      ensures invoked <==> ValidateSignIn(formState) == map[]
      ensures invoked ==> isSubmitting && sent == old(sent) + [formState] && errors == map[]
      ensures !invoked ==> !isSubmitting && sent == old(sent) && errors == ValidateSignIn(formState)
      ensures !invoked ==> SubmitDisabled()
    {
      isSubmitted := true;
      isSubmitting := true;
      var validationErrors := GetSignInErrors(formState);
      if ObjectHasElements(Some(validationErrors)) {
        errors := validationErrors;
        isSubmitting := false;
        return false;
      }
      sent := sent + [formState];
      return true;
    }

    /** The rest of `handleSubmit` once the collaborator answers: reset on
        success, keep everything on failure, and stop submitting either way. */
    method Complete(ok: bool)
      requires Valid() && isSubmitting
      modifies this
      ensures Valid()
      ensures !isSubmitting && sent == old(sent)
      ensures ok ==> formState == DefaultSignInFields && errors == map[] && !isSubmitted
      ensures !ok ==> formState == old(formState) && errors == old(errors) && isSubmitted == old(isSubmitted)
    {
      if ok {
        ResetForm();
      }
      isSubmitting := false;
    }
  }

  /** A full round: fill in a valid record, submit it, and let the collaborator succeed. */
  method SignInRound()
  {
    var form := new SignInForm();
    form.Change("email", "a@b.co");
    assert form.errors == map[];
    form.Change("password", "secret");
    assert form.formState == SignInData("a@b.co", "secret");
    Email.SampleAddress();
    SignInErrorsMeaning(form.formState);
    var invoked := form.Submit();
    assert invoked && form.sent == [SignInData("a@b.co", "secret")];
    assert form.SubmitDisabled();
    form.Complete(true);
    assert form.formState == DefaultSignInFields && !form.isSubmitted && !form.SubmitDisabled();
  }

  /** Editing before any submit attempt shows no error, however bad the input. */
  method NoLiveValidationBeforeSubmit()
  {
    var form := new SignInForm();
    form.Change("email", "ab");
    form.Change("password", "123");
    assert form.errors == map[];
    assert !Email.IsEmail("ab") by {
      assert multiset("ab")['@'] == 0 by { assert "ab" == ['a'] + ['b']; }
      Email.EmailRejects("ab");
    }
    SignInErrorsMeaning(form.formState);
    var invoked := form.Submit();
    assert !invoked && "email" in form.errors && "password" in form.errors;
    form.Change("password", "123456");
    SignInErrorsMeaning(form.formState);
    assert "password" !in form.errors && "email" in form.errors;
  }
}
