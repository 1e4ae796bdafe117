/** The login page: ordered input checks, the login request, token and session
    handling, the redirect by role and the error message it shows. */
module Login {
  import opened Js

  const InvalidEmail := "Please enter a valid email address."
  const PasswordRequired := "Please enter the password."
  const TimedOut := "Request timed out. Please try again."
  const UnexpectedError := "An unexpected error occured. Please try some time later."
  const AdminHome := "/admin/dashboard"
  const MemberHome := "/user/dashboard"

  /** The message of the first failing check of `handleLogin`, if any. */
  function FirstLoginError(email: string, password: string, validateEmail: string -> bool): (r: Option<string>)
    ensures r.None? <==> validateEmail(email) && password != ""
    ensures !validateEmail(email) ==> r == Some(InvalidEmail)
    ensures validateEmail(email) && password == "" ==> r == Some(PasswordRequired)
  {
    if !validateEmail(email) then Some(InvalidEmail)
    else if password == "" then Some(PasswordRequired)
    else None
  }

  /** Where a logged-in user is sent: the admin dashboard exactly for the "admin"
      role, the member dashboard for every other role or none. */
  function RedirectPath(user: UserRecord): (p: string)
    ensures p == AdminHome <==> user.role == Some("admin")
    ensures p == MemberHome <==> user.role != Some("admin")
  {
    if user.role == Some("admin") then AdminHome else MemberHome
  }

  /** The error a failed login shows: the server's message first, then the
      timeout text for a request aborted by timeout, then the fixed text. It is
      never empty, so the error box always shows. */
  function LoginErrorMessage(serverMessage: Option<string>, code: Option<string>): (m: string)
    ensures m != ""
    ensures Truthy(serverMessage) ==> m == serverMessage.value
    ensures !Truthy(serverMessage) && code == Some("ECONNABORTED") ==> m == TimedOut
    ensures !Truthy(serverMessage) && code != Some("ECONNABORTED") ==> m == UnexpectedError
  {
    if serverMessage.Some? && serverMessage.value != "" then serverMessage.value
    else if code == Some("ECONNABORTED") then TimedOut
    else UnexpectedError
  }

  /** Outcome of the login request: the body's `user`, `token` and `message`, or a
      thrown error with the server's message and the error code, if any. */
  datatype LoginOutcome =
    | Responded(user: Option<UserRecord>, token: Option<string>, message: Option<string>)
    | LoginFailed(serverMessage: Option<string>, code: Option<string>)

  datatype Effect =
    | PostLogin(email: string, password: string)
    | Toast(message: Option<string>)
    | Navigate(path: string)

  class LoginPage {
    var email: string
    var password: string
    /** The error shown; None is the initial `null`. */
    var error: Option<string>
    var loading: bool
    /** The "token" entry of local storage. */
    var storedToken: Option<string>
    /** The user held by the session context. */
    var sessionUser: Option<UserRecord>
    var effects: seq<Effect>

    constructor (storedToken: Option<string>, sessionUser: Option<UserRecord>)
      ensures email == "" && password == "" && error == None && !loading && effects == []
      ensures this.storedToken == storedToken && this.sessionUser == sessionUser
    {
      email, password := "", "";
      error := None;
      loading := false;
      this.storedToken := storedToken;
      this.sessionUser := sessionUser;
      effects := [];
    }

    /** `handleLogin`. The first failing check sets its message, turns loading off
        and sends nothing. Otherwise the request is sent; a response with a token
        stores the token and the user; a response with a user redirects by role,
        one without a user fails on reading its role and shows the fixed text; a
        failed request shows its message by priority. Loading ends off. */
    method HandleLogin(validateEmail: string -> bool, outcome: LoginOutcome)
      modifies this`error, this`loading, this`storedToken, this`sessionUser, this`effects
      ensures !loading
      ensures FirstLoginError(email, password, validateEmail).Some? ==>
                && error == FirstLoginError(email, password, validateEmail)
                && effects == old(effects)
                && storedToken == old(storedToken) && sessionUser == old(sessionUser)
      ensures FirstLoginError(email, password, validateEmail).None? && outcome.LoginFailed? ==>
                && error == Some(LoginErrorMessage(outcome.serverMessage, outcome.code))
                && effects == old(effects) + [PostLogin(email, password)]
                && storedToken == old(storedToken) && sessionUser == old(sessionUser)
      ensures FirstLoginError(email, password, validateEmail).None? && outcome.Responded? ==>
                && (Truthy(outcome.token) ==> storedToken == outcome.token && sessionUser == outcome.user)
                && (!Truthy(outcome.token) ==> storedToken == old(storedToken) && sessionUser == old(sessionUser))
                && (outcome.user.Some? ==>
                      && error == Some("")
                      && effects == old(effects) + [PostLogin(email, password), Toast(outcome.message),
                                                    Navigate(RedirectPath(outcome.user.value))])
                && (outcome.user.None? ==>
                      && error == Some(LoginErrorMessage(None, None))
                      && effects == old(effects) + [PostLogin(email, password), Toast(outcome.message)])
    {
      loading := true;
      error := Some("");
      if !validateEmail(email) {
        error := Some(InvalidEmail);
        loading := false;
        return;
      }
      if password == "" {
        error := Some(PasswordRequired);
        loading := false;
        return;
      }
      effects := effects + [PostLogin(email, password)];
      match outcome {
        case Responded(user, token, message) =>
          if Truthy(token) {
            storedToken := token;
            sessionUser := user;
          }
          effects := effects + [Toast(message)];
          if user.Some? {
            effects := effects + [Navigate(RedirectPath(user.value))];
          } else {
            // reading `user.role` of an undefined user throws; the error has
            // neither a response nor a code
            error := Some(LoginErrorMessage(None, None));
          }
        case LoginFailed(serverMessage, code) =>
          error := Some(LoginErrorMessage(serverMessage, code));
      }
      loading := false;
    }
  }
}
