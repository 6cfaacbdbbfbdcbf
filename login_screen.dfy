/**
 * The form logic of `src/screens/auth/LoginScreen.js`: the validation run before
 * logging in and the per-field input handler. The e-mail chain is the one the
 * sign-up form uses.
 */
module LoginScreen {
  import opened JsText
  import opened FormErrors
  import SignUpScreen

  datatype Field = Email | Password

  /** The `inputs` state object. */
  datatype Inputs = Inputs(email: string, password: string) {
    function Get(f: Field): string {
      match f
      case Email => email
      case Password => password
    }

    /** `{ ...prev, [f]: v }` */
    function With(f: Field, v: string): (r: Inputs)
      ensures r.Get(f) == v
      ensures forall g :: g != f ==> r.Get(g) == Get(g)
    {
      match f
      case Email => this.(email := v)
      case Password => this.(password := v)
    }
  }

  /** The `errors` state object. */
  type Errors = map<Field, string>

  const PasswordRequired := "Password is required"
  const PasswordTooShort := "Password must be at least 6 characters"

  /** The password chain of `validate`: required, then six characters. */
  function PasswordMessage(password: string): Option<string> {
    if password == "" then Some(PasswordRequired)
    else if |password| < 6 then Some(PasswordTooShort)
    else None
  }

  /** A password is refused exactly when it is shorter than six characters; the empty
      one is reported missing rather than short. */
  lemma PasswordMessageSpec(password: string)
    ensures PasswordMessage(password).Some? <==> |password| < 6
    ensures PasswordMessage(password) == Some(PasswordRequired) <==> password == ""
    ensures PasswordMessage(password) == Some(PasswordTooShort) <==> 0 < |password| < 6
  {
  }

  /** The message `validate` records for field `f`, if any. */
  function MessageFor(inputs: Inputs, f: Field): Option<string> {
    match f
    case Email => SignUpScreen.EmailMessage(inputs.email)
    case Password => PasswordMessage(inputs.password)
  }

  /**
   * `validate`: each field gets the message of the first failing check of its
   * chain, or none, and the form is valid exactly when no message was recorded.
   */
  method Validate(inputs: Inputs) returns (valid: bool, errors: Errors)
    ensures forall f :: Lookup(errors, f) == MessageFor(inputs, f)
    ensures valid <==> errors == map[]
  {
    valid := true;
    errors := map[];

    var email := SignUpScreen.EmailMessage(inputs.email);
    if email.Some? {
      errors := errors[Email := email.value];
      valid := false;
    }

    var password := PasswordMessage(inputs.password);
    if password.Some? {
      errors := errors[Password := password.value];
      valid := false;
    }

    forall f ensures Lookup(errors, f) == MessageFor(inputs, f) {
      match f
      case Email =>
      case Password =>
    }
    if !valid {
      assert Email in errors || Password in errors;
    }
  }

  /** A form the login screen accepts has a well-formed e-mail and at least six characters
      of password. */
  lemma {:induction false} AcceptedFormIsWellFormed(inputs: Inputs)
    requires forall f :: MessageFor(inputs, f).None?
    ensures MatchesEmailPattern(inputs.email)
    ensures |inputs.password| >= 6
  {
    assert MessageFor(inputs, Email).None?;
    assert MessageFor(inputs, Password).None?;
    SignUpScreen.EmailMessageSpec(inputs.email);
    PasswordMessageSpec(inputs.password);
  }

  /** The credentials of a sign-up form that passes are accepted by the login form. */
  lemma {:induction false} SignedUpCredentialsPass(signUp: SignUpScreen.Inputs)
    requires forall f :: SignUpScreen.MessageFor(signUp, f).None?
    ensures forall f :: MessageFor(Inputs(signUp.email, signUp.password), f).None?
  {
    assert SignUpScreen.MessageFor(signUp, SignUpScreen.Email).None?;
    assert SignUpScreen.MessageFor(signUp, SignUpScreen.Password).None?;
    SignUpScreen.PasswordMessageSpec(signUp.password);
    PasswordMessageSpec(signUp.password);
    forall f ensures MessageFor(Inputs(signUp.email, signUp.password), f).None? {
      match f
      case Email =>
      case Password =>
    }
  }

  /**
   * `handleInputChange(f, v)`: field `f` takes the new value; the message of `f`
   * is blanked when it was truthy; nothing else changes.
   */
  function HandleInputChange(inputs: Inputs, errors: Errors, f: Field, v: string): (r: (Inputs, Errors))
    ensures r.0.Get(f) == v
    ensures forall g :: g != f ==> r.0.Get(g) == inputs.Get(g)
    ensures r.1 == BlankError(errors, f)
  {
    (inputs.With(f, v), BlankError(errors, f))
  }
}
