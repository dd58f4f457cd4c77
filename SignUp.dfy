/**
  The sign-up form (`components/auth/SignUp.tsx`): `handleSubmit` clears the error, then checks the
  fields in a fixed order and stops at the first failure; only a form that passes every check
  reports success.
*/
module SignUp {

  datatype Form = Form(name: string, email: string, password: string, confirmPassword: string)

  /** The outcome of one submit: the translation key of the error shown, or success. */
  datatype Outcome = Rejected(errorKey: string) | SignedUp

  const AllFieldsKey := "auth_signup_error_all_fields"
  const PasswordMatchKey := "auth_signup_error_password_match"
  const PasswordLengthKey := "auth_signup_error_password_length"
  const MinPasswordLength := 8

  predicate AnyFieldEmpty(f: Form) {
    f.name == "" || f.email == "" || f.password == "" || f.confirmPassword == ""
  }

  /**
    `handleSubmit`: an empty field is reported first, then mismatched passwords, then a short
    password; each submit has exactly one of these four outcomes.
  */
  function HandleSubmit(f: Form): (r: Outcome)
    ensures r == SignedUp <==>
      !AnyFieldEmpty(f) && f.password == f.confirmPassword && |f.password| >= MinPasswordLength
    ensures r == Rejected(AllFieldsKey) <==> AnyFieldEmpty(f)
    ensures r == Rejected(PasswordMatchKey) <==> !AnyFieldEmpty(f) && f.password != f.confirmPassword
    ensures r == Rejected(PasswordLengthKey) <==>
      !AnyFieldEmpty(f) && f.password == f.confirmPassword && |f.password| < MinPasswordLength
  {
    if AnyFieldEmpty(f) then Rejected(AllFieldsKey)
    else if f.password != f.confirmPassword then Rejected(PasswordMatchKey)
    else if |f.password| < MinPasswordLength then Rejected(PasswordLengthKey)
    else SignedUp
  }

  /**
    The error shown after a submit: the error is cleared first, so it is the translation of this
    submit's error key, or empty on success; the error shown before plays no part.
  */
  function ErrorAfterSubmit(f: Form, t: string -> string): (error: string)
    ensures HandleSubmit(f).SignedUp? ==> error == ""
    ensures HandleSubmit(f).Rejected? ==> error == t(HandleSubmit(f).errorKey)
  {
    match HandleSubmit(f)
    case SignedUp => ""
    case Rejected(key) => t(key)
  }

  /** A password of seven characters is rejected for its length even when it is confirmed. */
  lemma ShortPasswordRejected(name: string, email: string, password: string)
    requires name != "" && email != "" && 0 < |password| < MinPasswordLength
    ensures HandleSubmit(Form(name, email, password, password)) == Rejected(PasswordLengthKey)
  {
  }

  /** The empty-field check comes first: a form with an empty field and mismatched passwords reports the empty field. */
  lemma EmptyFieldReportedFirst(f: Form)
    requires AnyFieldEmpty(f) && f.password != f.confirmPassword
    ensures HandleSubmit(f) == Rejected(AllFieldsKey)
  {
  }
}
