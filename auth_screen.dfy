/** `AuthScreen.tsx`: the sign-in / sign-up form. Its state is the view, the
    three inputs, `authLoading` and `authError`. The Supabase call is a
    parameter: the `error` it returned (thrown by `if (error) throw error`,
    always an `Error`) or a thrown value that is not an `Error`. The
    dashboard page runs the same handler over its own copy of this state. */
module AuthScreen {
  import opened Wrappers

  const MismatchMessage: string := "Passwords do not match"
  const UnknownErrorMessage: string := "An unknown error occurred"

  datatype View = Login | Signup

  datatype AuthState = AuthState(
    view: View,
    email: string,
    password: string,
    confirm: string,
    loading: bool,
    error: Option<string>)

  const InitialAuth: AuthState := AuthState(Login, "", "", "", false, None)

  /** The provider call `handleAuth` makes. */
  datatype ProviderCall = SignIn(email: string, password: string) | SignUp(email: string, password: string)

  /** How that call ended. */
  datatype ProviderOutcome = NoError | ErrorObject(message: string) | NonErrorThrown

  /** The `auth` query parameter effect: only "login" and "signup" change
      the view. */
  function ParamEffect(s: AuthState, param: Option<string>): (t: AuthState)
    ensures param == Some("login") ==> t == s.(view := Login)
    ensures param == Some("signup") ==> t == s.(view := Signup)
    ensures param != Some("login") && param != Some("signup") ==> t == s
  {
    if param == Some("login") then s.(view := Login)
    else if param == Some("signup") then s.(view := Signup)
    else s
  }

  /** The signup guard. */
  predicate Mismatch(s: AuthState) {
    s.view == Signup && s.password != s.confirm
  }

  /** The provider call, if the guard lets one through: sign-in in the login
      view, sign-up otherwise, each with the typed email and password. */
  function AuthCall(s: AuthState): (c: Option<ProviderCall>)
    ensures c.None? <==> Mismatch(s)
    ensures c.Some? && s.view == Login ==> c.value == SignIn(s.email, s.password)
    ensures c.Some? && s.view == Signup ==> c.value == SignUp(s.email, s.password) && s.password == s.confirm
  {
    if Mismatch(s) then None
    else if s.view == Login then Some(SignIn(s.email, s.password))
    else Some(SignUp(s.email, s.password))
  }

  /** The message the catch block shows. */
  function FailureMessage(o: ProviderOutcome): (m: Option<string>)
    ensures o.NoError? <==> m.None?
    ensures o.ErrorObject? ==> m == Some(o.message)
    ensures o.NonErrorThrown? ==> m == Some(UnknownErrorMessage)
  {
    match o
    case NoError => None
    case ErrorObject(msg) => Some(msg)
    case NonErrorThrown => Some(UnknownErrorMessage)
  }

  /** The state after `handleAuth`; `o` is ignored when no call is made.
      The inputs and the view are kept, and loading always ends false. */
  function AfterAuth(s: AuthState, o: ProviderOutcome): (t: AuthState)
    ensures !t.loading
    ensures t == s.(loading := false, error := t.error)
    ensures Mismatch(s) ==> t.error == Some(MismatchMessage)
    ensures !Mismatch(s) ==> t.error == FailureMessage(o)
  {
    s.(loading := false, error := if Mismatch(s) then Some(MismatchMessage) else FailureMessage(o))
  }

  /** In the login view the confirmation is never looked at. */
  lemma LoginIgnoresConfirm(s: AuthState, c: string, o: ProviderOutcome)
    requires s.view == Login
    ensures AuthCall(s.(confirm := c)) == AuthCall(s)
    ensures AfterAuth(s.(confirm := c), o) == AfterAuth(s, o).(confirm := c)
  {
  }

  /** A mismatch is reported whatever the provider would have said, and
      only a successful call clears the error. */
  lemma OutcomeMattersOnlyAfterCall(s: AuthState, o1: ProviderOutcome, o2: ProviderOutcome)
    ensures Mismatch(s) ==> AfterAuth(s, o1) == AfterAuth(s, o2)
    ensures AfterAuth(s, o1).error == None <==> AuthCall(s).Some? && o1 == NoError
  {
  }

  /** The view toggle: flips the view and clears the error. */
  function Toggle(s: AuthState): (t: AuthState)
    ensures t.view != s.view && t.error == None
    ensures t == s.(view := t.view, error := None)
  {
    s.(view := if s.view == Login then Signup else Login, error := None)
  }

  /** Toggling twice returns to the same view, without the error. */
  lemma ToggleTwice(s: AuthState)
    ensures Toggle(Toggle(s)) == s.(error := None)
  {
  }

  /** One of the three inputs. */
  datatype Input = EmailInput | PasswordInput | ConfirmInput

  function Typed(s: AuthState, input: Input, v: string): AuthState {
    match input
    case EmailInput => s.(email := v)
    case PasswordInput => s.(password := v)
    case ConfirmInput => s.(confirm := v)
  }

  class Screen {
    var authView: View
    var email: string
    var password: string
    var confirmPassword: string
    var authLoading: bool
    var authError: Option<string>

    function State(): AuthState
      reads this
    {
      AuthState(authView, email, password, confirmPassword, authLoading, authError)
    }

    constructor()
      ensures State() == InitialAuth
    {
      authView := Login;
      email := "";
      password := "";
      confirmPassword := "";
      authLoading := false;
      authError := None;
    }

    /** The effect on the search parameters. */
    method OnParam(param: Option<string>)
      modifies this
      ensures State() == ParamEffect(old(State()), param)
    {
      if param == Some("login") {
        authView := Login;
      } else if param == Some("signup") {
        authView := Signup;
      }
    }

    /** An input's `onChange`. */
    method Type(input: Input, v: string)
      modifies this
      ensures State() == Typed(old(State()), input, v)
    {
      match input {
        case EmailInput => email := v;
        case PasswordInput => password := v;
        case ConfirmInput => confirmPassword := v;
      }
    }

    /** `handleAuth`: returns the provider call it made. */
    method HandleAuth(o: ProviderOutcome) returns (call: Option<ProviderCall>)
      modifies this
      ensures call == AuthCall(old(State()))
      ensures State() == AfterAuth(old(State()), o)
    {
      authLoading := true;
      authError := None;
      if authView == Signup && password != confirmPassword {
        authError := Some(MismatchMessage);
        authLoading := false;
        return None;
      }
      if authView == Login {
        call := Some(SignIn(email, password));
      } else {
        call := Some(SignUp(email, password));
      }
      match o {
        case NoError =>
        case ErrorObject(m) => authError := Some(m);
        case NonErrorThrown => authError := Some(UnknownErrorMessage);
      }
      authLoading := false;
    }

    /** The "Sign up" / "Sign in instead" button. */
    method ToggleView()
      modifies this
      ensures State() == Toggle(old(State()))
    {
      authView := if authView == Login then Signup else Login;
      authError := None;
    }
  }
}
