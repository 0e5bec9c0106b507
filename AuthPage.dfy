/**
  * The sign-in page of `src/pages/Auth.tsx`: one state record (the view shown,
  * the user being verified, and whether two-factor login was required),
  * replaced whole by the callbacks the shown form is given.
  */
module AuthPage {
  import opened Base

  datatype View = Login | SignUp | TwoFactorSetup | TwoFactorVerify

  /** `AuthState`; unset optional members are `None`. */
  datatype AuthState = AuthState(view: View, userId: Option<string>, requiresTwoFactor: Option<bool>)

  /** The callbacks the forms can invoke. */
  datatype Event =
    | AuthSuccess(userId: string, requiresTwoFactor: bool)
    | SetupComplete
    | VerifySuccess
    | SwitchToLogin
    | SwitchToSignUp
    | Setup2FA(userId: string)

  /** `useState<AuthState>({ view: 'login' })`. */
  const Initial := AuthState(Login, None, None)

  /** The state after a callback. */
  function Handle(s: AuthState, e: Event): AuthState
  {
    match e
    case AuthSuccess(userId, req) => if req then AuthState(TwoFactorVerify, Some(userId), Some(req)) else s
    case SetupComplete => AuthState(Login, None, None)
    case VerifySuccess => AuthState(Login, None, None)
    case SwitchToLogin => AuthState(Login, None, None)
    case SwitchToSignUp => AuthState(SignUp, None, None)
    case Setup2FA(userId) => AuthState(TwoFactorSetup, Some(userId), None)
  }

  /** The form `renderAuthForm` shows, with the user id handed to the two-factor forms. */
  datatype Form = LoginForm | SignUpForm | SetupForm(userId: Option<string>) | VerifyForm(userId: Option<string>)

  function FormOf(s: AuthState): (f: Form)
    ensures (s.view == Login) <==> f.LoginForm?
    ensures f.SetupForm? ==> f.userId == s.userId
    ensures f.VerifyForm? ==> f.userId == s.userId
  {
    match s.view
    case SignUp => SignUpForm
    case TwoFactorSetup => SetupForm(s.userId)
    case TwoFactorVerify => VerifyForm(s.userId)
    case _ => LoginForm
  }

  /** The callbacks the shown form is given. */
  predicate Offered(f: Form, e: Event) {
    match f
    case LoginForm => e.AuthSuccess? || e.SwitchToSignUp? || e.Setup2FA?
    case SignUpForm => e.AuthSuccess? || e.SwitchToLogin?
    case SetupForm(_) => e.SetupComplete?
    case VerifyForm(_) => e.VerifySuccess?
  }

  /** A two-factor view always knows whose login it is: the `userId!` the page passes is never undefined. */
  ghost predicate WellFormed(s: AuthState) {
    (s.view == TwoFactorSetup || s.view == TwoFactorVerify) ==> s.userId.Some?
  }

  lemma HandleKeepsWellFormed(s: AuthState, e: Event)
    requires WellFormed(s)
    ensures WellFormed(Handle(s, e))
  {
  }

  /** Any sequence of callbacks from the initial state. */
  function Run(s: AuthState, events: seq<Event>): AuthState
    decreases |events|
  {
    if events == [] then s else Run(Handle(s, events[0]), events[1..])
  }

  /** Every reachable state hands a user id to the two-factor form it shows. */
  lemma {:induction false} RunKeepsWellFormed(s: AuthState, events: seq<Event>)
    requires WellFormed(s)
    ensures WellFormed(Run(s, events))
    ensures FormOf(Run(s, events)).SetupForm? ==> FormOf(Run(s, events)).userId.Some?
    ensures FormOf(Run(s, events)).VerifyForm? ==> FormOf(Run(s, events)).userId.Some?
    decreases |events|
  {
    if events != [] {
      HandleKeepsWellFormed(s, events[0]);
      RunKeepsWellFormed(Handle(s, events[0]), events[1..]);
    }
  }

  /** Auth success with two-factor login moves to verification for that user; without it nothing changes. */
  lemma AuthSuccessSpec(s: AuthState, id: string, required: bool)
    ensures required ==> Handle(s, AuthSuccess(id, required)) == AuthState(TwoFactorVerify, Some(id), Some(true))
    ensures !required ==> Handle(s, AuthSuccess(id, required)) == s
  {
  }

  /** Finishing setup or verification, like switching back to login, returns to the initial state, dropping the user id. */
  lemma BackToLoginSpec(s: AuthState, e: Event)
    requires e.SetupComplete? || e.VerifySuccess? || e.SwitchToLogin?
    ensures Handle(s, e) == Initial && Handle(s, e).userId.None?
  {
  }

  /** The verify form is reached only through an auth success that required two-factor login, and carries that user. */
  lemma VerifyOnlyAfterTwoFactorSuccess(s: AuthState, e: Event)
    requires s.view != TwoFactorVerify
    requires Handle(s, e).view == TwoFactorVerify
    ensures e == AuthSuccess(e.userId, true) && Handle(s, e).userId == Some(e.userId)
  {
  }

  /** Among the callbacks each form offers, only signup-and-back and the two-factor steps change the view; a login without two-factor leaves the page as it is. */
  lemma OfferedTransitions(s: AuthState, e: Event)
    requires Offered(FormOf(s), e)
    ensures s.view == Login && e.SwitchToSignUp? ==> Handle(s, e).view == SignUp
    ensures s.view == SignUp && e.SwitchToLogin? ==> Handle(s, e).view == Login
    ensures s.view == TwoFactorSetup ==> Handle(s, e) == Initial
    ensures s.view == TwoFactorVerify ==> Handle(s, e) == Initial
    ensures Handle(s, e).view == TwoFactorSetup ==> s.view == Login
  {
  }

  /** The page component holding `authState`. */
  class Auth {
    var view: View
    var userId: Option<string>
    var requiresTwoFactor: Option<bool>

    function State(): AuthState
      reads this
    {
      AuthState(view, userId, requiresTwoFactor)
    }

    ghost predicate Valid()
      reads this
    {
      WellFormed(State())
    }

    constructor ()
      ensures State() == Initial && Valid()
    {
      view, userId, requiresTwoFactor := Login, None, None;
    }

    /** `handleAuthSuccess`. */
    method HandleAuthSuccess(id: string, required: bool)
      requires Valid()
      modifies this
      ensures State() == Handle(old(State()), AuthSuccess(id, required)) && Valid()
    {
      if required {
        view, userId, requiresTwoFactor := TwoFactorVerify, Some(id), Some(required);
      }
    }

    /** `handle2FASetupComplete`. */
    method Handle2FASetupComplete()
      requires Valid()
      modifies this
      ensures State() == Handle(old(State()), SetupComplete) && Valid()
    {
      view, userId, requiresTwoFactor := Login, None, None;
    }

    /** The verify form's `onSuccess`. */
    method OnVerifySuccess()
      requires Valid()
      modifies this
      ensures State() == Handle(old(State()), VerifySuccess) && Valid()
    {
      view, userId, requiresTwoFactor := Login, None, None;
    }

    /** The signup form's `onSwitchToLogin`. */
    method OnSwitchToLogin()
      requires Valid()
      modifies this
      ensures State() == Handle(old(State()), SwitchToLogin) && Valid()
    {
      view, userId, requiresTwoFactor := Login, None, None;
    }

    /** The login form's `onSwitchToSignUp`. */
    method OnSwitchToSignUp()
      requires Valid()
      modifies this
      ensures State() == Handle(old(State()), SwitchToSignUp) && Valid()
    {
      view, userId, requiresTwoFactor := SignUp, None, None;
    }

    /** The login form's `onSetup2FA`. */
    method OnSetup2FA(id: string)
      requires Valid()
      modifies this
      ensures State() == Handle(old(State()), Setup2FA(id)) && Valid()
    {
      view, userId, requiresTwoFactor := TwoFactorSetup, Some(id), None;
    }

    /** The form rendered for the current state. */
    method RenderAuthForm() returns (f: Form)
      requires Valid()
      ensures f == FormOf(State())
      ensures f.SetupForm? || f.VerifyForm? ==> f.userId.Some?
    {
      match view
      case SignUp => f := SignUpForm;
      case TwoFactorSetup => f := SetupForm(userId);
      case TwoFactorVerify => f := VerifyForm(userId);
      case Login => f := LoginForm;
    }
  }
}
