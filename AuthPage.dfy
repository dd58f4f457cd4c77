/**
  The authentication page (`components/AuthPage.tsx`): the `view` field chooses which form is
  rendered, and the callbacks handed to each form are the only ways to change it.
*/
module AuthPage {
  import opened Wrappers

  const LoginView := "login"
  const SignUpView := "signup"
  const ForgotView := "forgot"

  /** The form `renderView` shows. */
  datatype Form = LoginForm | SignUpForm | ForgotForm

  /** The callbacks the forms can call. */
  datatype Action = NavigateToSignUp | NavigateToForgot | NavigateToLogin | SignUpSucceeded | LoginSucceeded

  /** `renderView`: any view other than the sign-up and reset ones shows the login form. */
  function RenderView(view: string): (f: Form)
    ensures f == SignUpForm <==> view == SignUpView
    ensures f == ForgotForm <==> view == ForgotView
    ensures view != SignUpView && view != ForgotView ==> f == LoginForm
  {
    if view == LoginView then LoginForm
    else if view == SignUpView then SignUpForm
    else if view == ForgotView then ForgotForm
    else LoginForm
  }

  /** The callbacks each form is given. */
  function Offered(f: Form): set<Action> {
    match f
    case LoginForm => {NavigateToSignUp, NavigateToForgot, LoginSucceeded}
    case SignUpForm => {SignUpSucceeded, NavigateToLogin}
    case ForgotForm => {NavigateToLogin}
  }

  /** The view a callback sets; login success reports to the application and sets none. */
  function Target(a: Action): (r: Option<string>)
    ensures r.None? <==> a == LoginSucceeded
  {
    match a
    case NavigateToSignUp => Some(SignUpView)
    case NavigateToForgot => Some(ForgotView)
    case NavigateToLogin => Some(LoginView)
    case SignUpSucceeded => Some(LoginView)
    case LoginSucceeded => None
  }

  /** The view after `a`; a callback the rendered form was not given cannot be called. */
  function Step(view: string, a: Action): string {
    if a in Offered(RenderView(view)) && Target(a).Some? then Target(a).value else view
  }

  /** From the login form only the sign-up and reset views can be reached, and login success stays put. */
  lemma FromLogin(view: string, a: Action)
    requires RenderView(view) == LoginForm
    ensures Step(view, a) in {view, SignUpView, ForgotView}
    ensures a == LoginSucceeded ==> Step(view, a) == view
  {
  }

  /** Sign-up success and the sign-up form's back link both return to login; so does every reset-form action. */
  lemma BackToLogin(view: string, a: Action)
    requires RenderView(view) != LoginForm && a in Offered(RenderView(view))
    ensures Step(view, a) == LoginView
  {
  }

  const KnownViews: set<string> := {LoginView, SignUpView, ForgotView}

  /** The view after a sequence of callbacks. */
  function Run(view: string, actions: seq<Action>): string
    decreases |actions|
  {
    if actions == [] then view else Run(Step(view, actions[0]), actions[1..])
  }

  /** Starting from `'login'`, the view is always one of the three known views. */
  lemma {:induction false} OnlyKnownViews(view: string, actions: seq<Action>)
    requires view in KnownViews
    ensures Run(view, actions) in KnownViews
    decreases |actions|
  {
    if actions != [] {
      OnlyKnownViews(Step(view, actions[0]), actions[1..]);
    }
  }

  class Page {
    var view: string
    /** How many times `onLoginSuccess` was reported to the application. */
    var loginsReported: nat

    constructor()
      ensures view == LoginView && loginsReported == 0
    {
      view := LoginView;
      loginsReported := 0;
    }

    /** A callback of the rendered form. */
    method Perform(a: Action)
      requires a in Offered(RenderView(view))
      modifies this
      ensures view == Step(old(view), a)
      ensures loginsReported == old(loginsReported) + (if a == LoginSucceeded then 1 else 0)
    {
      match a
      case NavigateToSignUp => view := SignUpView;
      case NavigateToForgot => view := ForgotView;
      case NavigateToLogin => view := LoginView;
      case SignUpSucceeded => view := LoginView;
      case LoginSucceeded => loginsReported := loginsReported + 1;
    }
  }
}
