/**
  The login form (`components/auth/Login.tsx`): `handleSubmit` reports success when both fields are
  filled and shows an error otherwise; `handleGoogleLogin` reports success unconditionally (it is a
  stand-in for the real provider).
*/
module Login {

  const LoginErrorKey := "auth_login_error"

  /** The error shown afterwards, and whether `onLoginSuccess` was called. */
  datatype Result = Result(error: string, success: bool)

  /** The previous error plays no part: the outcome is a function of the two fields alone. */
  function HandleSubmit(email: string, password: string, t: string -> string): (r: Result)
    ensures r.success <==> email != "" && password != ""
    ensures r.success ==> r.error == ""
    ensures !r.success ==> r.error == t(LoginErrorKey)
  {
    if email != "" && password != "" then Result("", true)
    else Result(t(LoginErrorKey), false)
  }

  function HandleGoogleLogin(error: string): (r: Result)
    ensures r.success && r.error == error
  {
    Result(error, true)
  }
}
