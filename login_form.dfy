/**
 * The login page form (components/login-form.tsx): one form in two modes.
 * In login mode submit signs in; in sign-up mode it first checks the two
 * passwords (equal first, then at least six characters) and only then asks
 * the authentication service to create the account.
 */
module LoginForm {
  datatype Mode = Login | SignUp

  /** `mode === "login" ? "signup" : "login"`: the footer link. */
  function Toggled(m: Mode): (r: Mode)
    ensures r != m
  {
    match m
    case Login => SignUp
    case SignUp => Login
  }

  lemma ToggleTwice(m: Mode)
    ensures Toggled(Toggled(m)) == m
  {
  }

  /** The confirmation field is part of the form only in sign-up mode. */
  function ShowsConfirmField(m: Mode): (r: bool)
    ensures r <==> m == SignUp
    ensures r <==> m != Login
  {
    m == SignUp
  }

  /** The sign-up checks, in the order the handler makes them. */
  datatype SignUpCheck = PasswordsDiffer | TooShort | Acceptable

  const MinPasswordLength: nat := 6

  /**
   * A mismatch is reported before the length, so a short password that
   * is also mistyped is reported as a mismatch.
   */
  function CheckSignUp(password: string, confirm: string): (r: SignUpCheck)
    ensures r == PasswordsDiffer <==> password != confirm
    ensures r == TooShort <==> password == confirm && |password| < MinPasswordLength
    ensures r == Acceptable <==> password == confirm && |password| >= MinPasswordLength
  {
    if password != confirm then PasswordsDiffer
    else if |password| < MinPasswordLength then TooShort
    else Acceptable
  }

  /** One request sent to the authentication service. */
  datatype AuthRequest = SignInWithPassword(email: string, password: string) | CreateAccount(email: string, password: string)

  /** Every account the form asks for has a password of at least six characters. */
  predicate RequestsAcceptable(requests: seq<AuthRequest>) {
    forall i :: 0 <= i < |requests| && requests[i].CreateAccount? ==> |requests[i].password| >= MinPasswordLength
  }

  /** What the form schedules on a timer after a successful request. */
  datatype Deferred =
    | GoToDashboard  // after signing in: `router.push("/")` and a refresh
    | BackToLogin    // after creating an account: `setMode("login")`

  class LoginFormState {
    var mode: Mode
    var email: string
    var password: string
    var confirmPassword: string
    var loading: bool
    /** The requests sent to the authentication service, oldest first. */
    var requests: seq<AuthRequest>
    /** The actions put on a timer, oldest first; the timers firing is not modelled. */
    var scheduled: seq<Deferred>

    ghost predicate Valid()
      reads this
    {
      RequestsAcceptable(requests)
    }

    constructor ()
      ensures Valid() && mode == Login && email == "" && password == "" && confirmPassword == ""
      ensures !loading && requests == [] && scheduled == []
    {
      mode := Login;
      email := "";
      password := "";
      confirmPassword := "";
      loading := false;
      requests := [];
      scheduled := [];
    }

    /** The three inputs. */
    method Enter(e: string, p: string, c: string)
      modifies this
      ensures email == e && password == p && confirmPassword == c
      ensures mode == old(mode) && loading == old(loading) && requests == old(requests) && scheduled == old(scheduled)
    {
      email, password, confirmPassword := e, p, c;
    }

    method ToggleMode()
      modifies this
      ensures mode == Toggled(old(mode))
      ensures ShowsConfirmField(mode) <==> !ShowsConfirmField(old(mode))
      ensures email == old(email) && password == old(password) && confirmPassword == old(confirmPassword)
      ensures loading == old(loading) && requests == old(requests) && scheduled == old(scheduled)
    {
      mode := Toggled(mode);
    }

    /**
     * Login: one sign-in request with the entered credentials; the fields
     * stay; if the service accepts them the move to the dashboard is put on
     * a timer; `loading` ends false.
     */
    method HandleLogin(ok: bool)
      requires Valid()
      modifies this
      ensures Valid() && requests == old(requests) + [SignInWithPassword(old(email), old(password))]
      ensures scheduled == old(scheduled) + (if ok then [GoToDashboard] else [])
      ensures mode == old(mode) && email == old(email) && password == old(password) && confirmPassword == old(confirmPassword)
      ensures !loading
    {
      loading := true;
      requests := requests + [SignInWithPassword(email, password)];
      if ok {
        scheduled := scheduled + [GoToDashboard];
      }
      loading := false;
    }

    /**
     * Sign-up: a failed check sends nothing and keeps the fields.  An
     * acceptable one sends one account request; if the service accepts it
     * the three fields are cleared and the switch back to login mode is put
     * on a timer.  `loading` ends false on every path.
     */
    method HandleSignUp(ok: bool)
      requires Valid()
      modifies this
      ensures Valid() && mode == old(mode) && !loading
      ensures CheckSignUp(old(password), old(confirmPassword)) != Acceptable ==>
                requests == old(requests) && scheduled == old(scheduled) &&
                email == old(email) && password == old(password) && confirmPassword == old(confirmPassword)
      ensures CheckSignUp(old(password), old(confirmPassword)) == Acceptable ==>
                requests == old(requests) + [CreateAccount(old(email), old(password))] &&
                (if ok then email == "" && password == "" && confirmPassword == "" &&
                            scheduled == old(scheduled) + [BackToLogin]
                 else email == old(email) && password == old(password) && confirmPassword == old(confirmPassword) &&
                      scheduled == old(scheduled))
    {
      loading := true;
      var check := CheckSignUp(password, confirmPassword);
      if check != Acceptable {
        loading := false;
        return;
      }
      requests := requests + [CreateAccount(email, password)];
      if ok {
        email, password, confirmPassword := "", "", "";
        scheduled := scheduled + [BackToLogin];
      }
      loading := false;
    }

    /** The form's submit: login in login mode, sign-up in sign-up mode. */
    method Submit(ok: bool)
      requires Valid()
      modifies this
      ensures Valid() && mode == old(mode) && !loading
      ensures old(mode) == Login ==>
                requests == old(requests) + [SignInWithPassword(old(email), old(password))] &&
                scheduled == old(scheduled) + (if ok then [GoToDashboard] else []) &&
                email == old(email) && password == old(password) && confirmPassword == old(confirmPassword)
      ensures old(mode) == SignUp && CheckSignUp(old(password), old(confirmPassword)) != Acceptable ==>
                requests == old(requests) && scheduled == old(scheduled) &&
                email == old(email) && password == old(password) && confirmPassword == old(confirmPassword)
      ensures old(mode) == SignUp && CheckSignUp(old(password), old(confirmPassword)) == Acceptable ==>
                requests == old(requests) + [CreateAccount(old(email), old(password))] &&
                (if ok then email == "" && password == "" && confirmPassword == "" &&
                            scheduled == old(scheduled) + [BackToLogin]
                 else email == old(email) && password == old(password) && confirmPassword == old(confirmPassword) &&
                      scheduled == old(scheduled))
    {
      if mode == Login {
        HandleLogin(ok);
      } else {
        HandleSignUp(ok);
      }
    }
  }
}
