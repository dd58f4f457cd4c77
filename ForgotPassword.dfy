/**
  The password-reset form (`components/auth/ForgotPassword.tsx`): a filled email field flips the
  one-way `submitted` flag, after which only the confirmation is shown.
*/
module ForgotPassword {

  const NoEmailKey := "auth_forgot_error_no_email"

  /** What is rendered: the confirmation naming the email, or the form with its error. */
  datatype View = Confirmation(email: string) | RequestForm(error: string)

  /** `handleSubmit`'s check: the email is only required to be non-empty. */
  predicate Accepted(email: string) {
    email != ""
  }

  class ForgotPasswordForm {
    var email: string
    var submitted: bool
    var error: string

    constructor()
      ensures email == "" && !submitted && error == ""
    {
      email, submitted, error := "", false, "";
    }

    /** Typing in the email field. */
    method SetEmail(value: string)
      modifies this
      ensures email == value && submitted == old(submitted) && error == old(error)
      ensures old(submitted) ==> View() == Confirmation(value)
    {
      email := value;
    }

    /**
      `handleSubmit`: a non-empty email clears the error and sets `submitted`; an empty one shows
      the error and leaves `submitted` as it was.
    */
    method Submit(t: string -> string)
      modifies this
      ensures Accepted(email) ==> submitted && error == ""
      ensures !Accepted(email) ==> submitted == old(submitted) && error == t(NoEmailKey)
      ensures old(submitted) ==> submitted && View() == Confirmation(email)
      ensures email == old(email)
    {
      if Accepted(email) {
        error := "";
        submitted := true;
      } else {
        error := t(NoEmailKey);
      }
    }

    function View(): (v: View)
      reads this
      ensures v.Confirmation? <==> submitted
    {
      if submitted then Confirmation(email) else RequestForm(error)
    }
  }

  /** No format check: any non-empty text is accepted, even one without an `@`. */
  lemma AnyTextAccepted()
    ensures Accepted("not an email")
  {
  }
}
