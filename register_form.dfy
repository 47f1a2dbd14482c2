/** The registration form: user name, e-mail and password fields with an error
    under each; a valid submit hands the entered data on. */
module RegisterForm {
  import opened Validators

  datatype Field = Username | Email | Password

  /** One string per field: the form's values, or the error under each field
      ("" when there is none). */
  datatype Fields = Fields(username: string, email: string, password: string)

  const BLANK := Fields("", "", "")

  function Get(f: Fields, field: Field): string {
    match field
    case Username => f.username
    case Email => f.email
    case Password => f.password
  }

  /** A copy of `f` with one field replaced: that field changes and no other. */
  function Set(f: Fields, field: Field, v: string): (r: Fields)
    ensures Get(r, field) == v
    ensures forall other :: other != field ==> Get(r, other) == Get(f, other)
  {
    match field
    case Username => f.(username := v)
    case Email => f.(email := v)
    case Password => f.(password := v)
  }

  /** Whether a value matches its field's regular expression. */
  ghost predicate Matches(field: Field, v: string) {
    match field
    case Username => IsValidUsername(v)
    case Email => EmailPattern(v)
    case Password => PasswordPattern(v)
  }

  function MessageFor(field: Field): string {
    match field
    case Username => USERNAME_ERROR
    case Email => EMAIL_ERROR
    case Password => PASSWORD_ERROR
  }

  /** The errors `validate` computes: each field shows its own message exactly
      when its value fails its pattern, and nothing otherwise. */
  function ErrorsFor(data: Fields): (e: Fields)
    ensures forall field :: Get(e, field) == "" <==> Matches(field, Get(data, field))
    ensures forall field :: Get(e, field) == "" || Get(e, field) == MessageFor(field)
  {
    EmailRule(data.email);
    PasswordRule(data.password);
    Fields(if IsValidUsername(data.username) then "" else USERNAME_ERROR,
           if IsValidEmail(data.email) then "" else EMAIL_ERROR,
           if IsValidPassword(data.password) then "" else PASSWORD_ERROR)
  }

  predicate NoErrors(e: Fields) {
    e.username == "" && e.email == "" && e.password == ""
  }

  /** The form is valid exactly when all three fields match. */
  lemma ValidExactly(data: Fields)
    ensures NoErrors(ErrorsFor(data)) <==> forall field :: Matches(field, Get(data, field))
  {
    var e := ErrorsFor(data);
    assert e.username == Get(e, Username) && e.email == Get(e, Email) && e.password == Get(e, Password);
  }

  class RegistrationForm {
    var formData: Fields
    var errors: Fields
    /** The data handed on by valid submits, oldest first. */
    var submitted: seq<Fields>

    constructor ()
      ensures formData == BLANK && errors == BLANK && submitted == []
    {
      formData := BLANK;
      errors := BLANK;
      submitted := [];
    }

    method Validate() returns (ok: bool)
      modifies this
      ensures errors == ErrorsFor(formData)
      ensures ok <==> forall field :: Matches(field, Get(formData, field))
      ensures formData == old(formData) && submitted == old(submitted)
    {
      errors := ErrorsFor(formData);
      ok := NoErrors(errors);
      ValidExactly(formData);
    }

    method HandleChange(field: Field, value: string)
      modifies this
      ensures formData == Set(old(formData), field, value)
      ensures errors == Set(old(errors), field, "")
      ensures submitted == old(submitted)
    {
      formData := Set(formData, field, value);
      errors := Set(errors, field, "");
    }

    /** `handleSubmit`: validate, and hand the data on when valid. */
    method HandleSubmit() returns (accepted: bool)
      modifies this
      ensures formData == old(formData) && errors == ErrorsFor(formData)
      ensures accepted <==> forall field :: Matches(field, Get(formData, field))
      ensures submitted == old(submitted) + (if accepted then [formData] else [])
    {
      accepted := Validate();
      if accepted {
        submitted := submitted + [formData];
      }
    }
  }
}
