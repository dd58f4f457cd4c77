/**
  The administrator login (`components/auth/AdminLogin.tsx`): `handleLogin` compares the fields with
  one fixed pair of credentials.
*/
module AdminLogin {

  const AdminEmail := "admin@aura.com"
  const AdminPassword := "admin123"
  const InvalidCredentials := "Invalid admin credentials."

  /** The error shown afterwards, and whether `onLoginSuccess` was called. */
  datatype Result = Result(error: string, success: bool)

  /**
    `handleLogin`: success exactly for the fixed pair, compared character by character; success
    does not touch the error, so one from an earlier failed attempt stays.
  */
  function HandleLogin(email: string, password: string, error: string): (r: Result)
    ensures r.success <==> email == AdminEmail && password == AdminPassword
    ensures r.success ==> r.error == error
    ensures !r.success ==> r.error == InvalidCredentials
  {
    if email == AdminEmail && password == AdminPassword then Result(error, true)
    else Result(InvalidCredentials, false)
  }

  /** Nothing is trimmed or case-folded: a trailing space or a capital letter fails. */
  lemma ComparisonIsExact()
    ensures !HandleLogin("admin@aura.com ", AdminPassword, "").success
    ensures !HandleLogin("Admin@aura.com", AdminPassword, "").success
    ensures !HandleLogin(AdminEmail, "ADMIN123", "").success
  {
    assert |"admin@aura.com "| != |AdminEmail|;
    assert "Admin@aura.com"[0] != AdminEmail[0];
    assert "ADMIN123"[0] != AdminPassword[0];
  }

  /** A failed attempt followed by the right credentials succeeds with the failure's message still shown. */
  lemma StaleErrorAfterSuccess(email: string, password: string)
    requires email != AdminEmail
    ensures var first := HandleLogin(email, password, "");
      var second := HandleLogin(AdminEmail, AdminPassword, first.error);
      !first.success && second.success && second.error == InvalidCredentials
  {
  }
}
