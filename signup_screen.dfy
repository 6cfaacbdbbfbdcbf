/**
 * The form logic of `src/screens/auth/SignUpScreen.js`: the live password
 * checklist, the validation run before sign-up, and the per-field input handler.
 */
module SignUpScreen {
  import opened JsText
  import opened FormErrors

  datatype Field = FullName | Email | Phone | Password | ConfirmPassword

  /** The `inputs` state object. */
  datatype Inputs = Inputs(fullName: string, email: string, phone: string, password: string, confirmPassword: string) {
    function Get(f: Field): string {
      match f
      case FullName => fullName
      case Email => email
      case Phone => phone
      case Password => password
      case ConfirmPassword => confirmPassword
    }

    /** `{ ...prev, [f]: v }` */
    function With(f: Field, v: string): (r: Inputs)
      ensures r.Get(f) == v
      ensures forall g :: g != f ==> r.Get(g) == Get(g)
    {
      match f
      case FullName => this.(fullName := v)
      case Email => this.(email := v)
      case Phone => this.(phone := v)
      case Password => this.(password := v)
      case ConfirmPassword => this.(confirmPassword := v)
    }
  }

  /** The `errors` state object: a message per field that has one. */
  type Errors = map<Field, string>

  const FullNameRequired := "Full name is required"
  const FullNameTooShort := "Name must be at least 2 characters"
  const EmailRequired := "Email is required"
  const EmailInvalid := "Please enter a valid email"
  const PhoneInvalid := "Please enter a valid phone number"
  const PasswordRequired := "Password is required"
  const PasswordTooShort := "Password must be at least 8 characters"
  const PasswordWeak := "Password does not meet requirements"
  const ConfirmRequired := "Please confirm your password"
  const ConfirmMismatch := "Passwords do not match"

  /** One line of the password checklist. */
  datatype Criterion = Criterion(text: string, met: bool)

  /** `passwordCriteria`: length, upper-case, lower-case and digit, in that order. */
  function PasswordCriteria(password: string): (r: seq<Criterion>)
    ensures |r| == 4
    ensures r[0].met <==> |password| >= 8
    ensures r[1].met <==> Contains(password, Upper)
    ensures r[2].met <==> Contains(password, Lower)
    ensures r[3].met <==> Contains(password, Digit)
  {
    [ Criterion("At least 8 characters", |password| >= 8),
      Criterion("One uppercase letter", Contains(password, Upper)),
      Criterion("One lowercase letter", Contains(password, Lower)),
      Criterion("One number", Contains(password, Digit)) ]
  }

  predicate AllMet(criteria: seq<Criterion>) {
    forall i :: 0 <= i < |criteria| ==> criteria[i].met
  }

  /** A password the validation accepts ticks every line of the checklist. */
  lemma AcceptedPasswordMeetsCriteria(password: string)
    requires password != "" && |password| >= 8 && MeetsPasswordPattern(password)
    ensures AllMet(PasswordCriteria(password))
  {
  }

  /** The full-name chain of `validate`. */
  function FullNameMessage(fullName: string): Option<string> {
    if Trim(fullName) == "" then Some(FullNameRequired)
    else if |Trim(fullName)| < 2 then Some(FullNameTooShort)
    else None
  }

  /** A full name is refused when it has fewer than two characters once trimmed, and
      reported missing exactly when it is nothing but white space. */
  lemma FullNameMessageSpec(fullName: string)
    ensures FullNameMessage(fullName).Some? <==> |Trim(fullName)| < 2
    ensures FullNameMessage(fullName) == Some(FullNameRequired) <==> AllSpace(fullName)
  {
    TrimEmptyIffBlank(fullName);
  }

  /** The e-mail chain of `validate`. */
  function EmailMessage(email: string): Option<string> {
    if email == "" then Some(EmailRequired)
    else if !MatchesEmailPattern(email) then Some(EmailInvalid)
    else None
  }

  /** An e-mail is refused exactly when the pattern does not match it; the empty one is
      reported missing rather than malformed. */
  lemma EmailMessageSpec(email: string)
    ensures EmailMessage(email).Some? <==> !MatchesEmailPattern(email)
    ensures EmailMessage(email) == Some(EmailRequired) <==> email == ""
  {
  }

  /** The phone check of `validate`: only a filled-in number is checked. */
  function PhoneMessage(phone: string): Option<string> {
    if phone != "" && |DigitsOf(phone)| < 10 then Some(PhoneInvalid) else None
  }

  /** A phone number made of ten or more digits passes. */
  lemma PhoneOfDigitsPasses(phone: string)
    requires |phone| >= 10 && forall k :: 0 <= k < |phone| ==> IsDigit(phone[k])
    ensures PhoneMessage(phone) == None
  {
    DigitsOfDigits(phone);
  }

  /** Separators between the digits (spaces, dashes, brackets) never change the verdict
      on a phone number. */
  lemma PhoneSeparatorsIgnored(a: string, separator: string, b: string)
    requires forall k :: 0 <= k < |separator| ==> !IsDigit(separator[k])
    requires a + b != ""
    ensures PhoneMessage(a + separator + b) == PhoneMessage(a + b)
  {
    DigitsOfAppend(a + separator, b);
    DigitsOfAppend(a, separator);
    DigitsOfAppend(a, b);
    DigitsOfNone(separator);
  }

  /** The password chain of `validate`. */
  function PasswordMessage(password: string): Option<string> {
    if password == "" then Some(PasswordRequired)
    else if |password| < 8 then Some(PasswordTooShort)
    else if !MeetsPasswordPattern(password) then Some(PasswordWeak)
    else None
  }

  /** A password is refused when it is shorter than eight characters or fails the
      pattern; one that passes ticks every line of the checklist. */
  lemma PasswordMessageSpec(password: string)
    ensures PasswordMessage(password).Some? <==> |password| < 8 || !MeetsPasswordPattern(password)
    ensures PasswordMessage(password) == Some(PasswordRequired) <==> password == ""
    ensures PasswordMessage(password) == Some(PasswordTooShort) <==> 0 < |password| < 8
    ensures PasswordMessage(password).None? ==> AllMet(PasswordCriteria(password))
  {
  }

  /** The confirmation chain of `validate`. */
  function ConfirmMessage(password: string, confirmPassword: string): Option<string> {
    if confirmPassword == "" then Some(ConfirmRequired)
    else if password != confirmPassword then Some(ConfirmMismatch)
    else None
  }

  /** The confirmation passes exactly when it is filled in and equal to the password. */
  lemma ConfirmMessageSpec(password: string, confirmPassword: string)
    ensures ConfirmMessage(password, confirmPassword).None? <==> confirmPassword != "" && confirmPassword == password
    ensures ConfirmMessage(password, confirmPassword) == Some(ConfirmRequired) <==> confirmPassword == ""
  {
  }

  /** The message `validate` records for field `f`, if any. */
  function MessageFor(inputs: Inputs, f: Field): Option<string> {
    match f
    case FullName => FullNameMessage(inputs.fullName)
    case Email => EmailMessage(inputs.email)
    case Phone => PhoneMessage(inputs.phone)
    case Password => PasswordMessage(inputs.password)
    case ConfirmPassword => ConfirmMessage(inputs.password, inputs.confirmPassword)
  }

  /** A form on which no chain yields a message has a well-formed e-mail, a password
      that ticks the whole checklist, and a matching confirmation. */
  lemma {:induction false} AcceptedFormIsWellFormed(inputs: Inputs)
    requires forall f :: MessageFor(inputs, f).None?
    ensures MatchesEmailPattern(inputs.email)
    ensures AllMet(PasswordCriteria(inputs.password))
    ensures inputs.confirmPassword == inputs.password
  {
    assert MessageFor(inputs, Email).None?;
    assert MessageFor(inputs, Password).None?;
    assert MessageFor(inputs, ConfirmPassword).None?;
    EmailMessageSpec(inputs.email);
    PasswordMessageSpec(inputs.password);
  }

  /** Errors that agree with `MessageFor` on each of the five fields agree on all of them. */
  lemma EveryFieldNoted(inputs: Inputs, errors: Errors)
    requires Lookup(errors, FullName) == MessageFor(inputs, FullName)
    requires Lookup(errors, Email) == MessageFor(inputs, Email)
    requires Lookup(errors, Phone) == MessageFor(inputs, Phone)
    requires Lookup(errors, Password) == MessageFor(inputs, Password)
    requires Lookup(errors, ConfirmPassword) == MessageFor(inputs, ConfirmPassword)
    ensures forall f :: Lookup(errors, f) == MessageFor(inputs, f)
  {
  }

  /**
   * `validate`: every field gets the message of the first failing check of its
   * chain, or none; an unticked terms box makes the result false without adding a
   * message.
   */
  method Validate(inputs: Inputs, isChecked: bool) returns (valid: bool, errors: Errors)
    ensures forall f :: Lookup(errors, f) == MessageFor(inputs, f)
    ensures valid <==> isChecked && forall f :: f !in errors
  {
    valid := true;
    errors := map[];
    var fullName := FullNameMessage(inputs.fullName);
    if fullName.Some? {
      errors := errors[FullName := fullName.value];
      valid := false;
    }

    var email := EmailMessage(inputs.email);
    if email.Some? {
      errors := errors[Email := email.value];
      valid := false;
    }

    var phone := PhoneMessage(inputs.phone);
    if phone.Some? {
      errors := errors[Phone := phone.value];
      valid := false;
    }

    var password := PasswordMessage(inputs.password);
    if password.Some? {
      errors := errors[Password := password.value];
      valid := false;
    }

    var confirm := ConfirmMessage(inputs.password, inputs.confirmPassword);
    if confirm.Some? {
      errors := errors[ConfirmPassword := confirm.value];
      valid := false;
    }

    if !isChecked {
      valid := false;
    }
    EveryFieldNoted(inputs, errors);
  }

  /**
   * `handleInputChange(f, v)`: field `f` takes the new value; the message of `f`
   * is blanked when it was truthy; nothing else changes.
   */
  function HandleInputChange(inputs: Inputs, errors: Errors, f: Field, v: string): (r: (Inputs, Errors))
    ensures r.0.Get(f) == v
    ensures forall g :: g != f ==> r.0.Get(g) == inputs.Get(g)
    ensures r.1 == BlankError(errors, f)
  {
    (inputs.With(f, v), BlankError(errors, f))
  }
}
