/** The login form: the e-mail and password fields, the error shown under
    each, and the move to the dashboard on a valid submit. */
module LoginForm {
  import opened Validators

  datatype Field = Email | Password

  /** One string per field: the form's values, or the error under each field
      ("" when there is none). */
  datatype Fields = Fields(email: string, password: string)

  const BLANK := Fields("", "")

  const DASHBOARD := "/dashboard"

  function Get(f: Fields, field: Field): string {
    match field
    case Email => f.email
    case Password => f.password
  }

  /** A copy of `f` with one field replaced: that field changes and no other. */
  function Set(f: Fields, field: Field, v: string): (r: Fields)
    ensures Get(r, field) == v
    ensures forall other :: other != field ==> Get(r, other) == Get(f, other)
  {
    match field
    case Email => f.(email := v)
    case Password => f.(password := v)
  }

  /** The errors `validate` computes: a field's message is shown exactly when
      its value fails that field's regular expression. */
  function ErrorsFor(data: Fields): (e: Fields)
    ensures e.email == "" <==> EmailPattern(data.email)
    ensures e.password == "" <==> PasswordPattern(data.password)
    ensures e.email == "" || e.email == EMAIL_ERROR
    ensures e.password == "" || e.password == PASSWORD_ERROR
  {
    EmailRule(data.email);
    PasswordRule(data.password);
    Fields(if IsValidEmail(data.email) then "" else EMAIL_ERROR,
           if IsValidPassword(data.password) then "" else PASSWORD_ERROR)
  }

  /** Every error is empty. */
  predicate NoErrors(e: Fields) {
    e.email == "" && e.password == ""
  }

  /** The form is valid exactly when both fields match their patterns. */
  lemma ValidExactly(data: Fields)
    ensures NoErrors(ErrorsFor(data)) <==> EmailPattern(data.email) && PasswordPattern(data.password)
  {
  }

  /** Typing into one field then validating leaves the other field's error as
      validation of the other value alone would set it. */
  lemma ErrorsAreFieldwise(data: Fields, field: Field, v: string, other: Field)
    requires other != field
    ensures Get(ErrorsFor(Set(data, field, v)), other) == Get(ErrorsFor(data), other)
  {
  }

  class LoginForm {
    var formData: Fields
    var errors: Fields
    /** The routes navigated to, oldest first. */
    var navigations: seq<string>

    constructor ()
      ensures formData == BLANK && errors == BLANK && navigations == []
    {
      formData := BLANK;
      errors := BLANK;
      navigations := [];
    }

    /** `validate`: recompute the errors and report whether there are none. */
    method Validate() returns (ok: bool)
      modifies this
      ensures errors == ErrorsFor(formData)
      ensures ok <==> EmailPattern(formData.email) && PasswordPattern(formData.password)
      ensures formData == old(formData) && navigations == old(navigations)
    {
      errors := ErrorsFor(formData);
      ok := NoErrors(errors);
    }

    /** `handleChange`: store the typed value and clear that field's error. */
    method HandleChange(field: Field, value: string)
      modifies this
      ensures formData == Set(old(formData), field, value)
      ensures errors == Set(old(errors), field, "")
      ensures navigations == old(navigations)
    {
      formData := Set(formData, field, value);
      errors := Set(errors, field, "");
    }

    /** `handleSubmit`: validate, and go to the dashboard when valid. */
    method HandleSubmit() returns (navigated: bool)
      modifies this
      ensures formData == old(formData) && errors == ErrorsFor(formData)
      ensures navigated <==> EmailPattern(formData.email) && PasswordPattern(formData.password)
      ensures navigations == old(navigations) + (if navigated then [DASHBOARD] else [])
    {
      navigated := Validate();
      if navigated {
        navigations := navigations + [DASHBOARD];
      }
    }
  }
}
