/**
 * The sign-in page (`AuthPage` in src/pages/Auth.js): a login/sign-up mode
 * toggle, the email and password inputs, the choice of request and the
 * condition under which the authentication context's `login` is called.
 */
module Auth {

  import opened Api
  import opened Text

  /** `data.login` of a Login response. */
  datatype LoginData = LoginData(userId: Option<string>, token: Option<string>, tokenExpiration: Option<int>)

  /** The `data` of a response; a CreateUser response carries no `login` field. */
  datatype AuthData = AuthData(login: Option<LoginData>)

  /** The arguments of `context.login`, in the order it takes them. */
  datatype LoginArgs = LoginArgs(token: string, userId: Option<string>, tokenExpiration: Option<int>)

  /**
   * The continuation of `submitHandler`: the call it makes to
   * `context.login`, if any. It calls only for an accepted response whose
   * `data.login` is present with a truthy token, and passes the token, the
   * user id and the expiration unchanged. A rejection, another status, a
   * missing `data` (a TypeError, caught) or a sign-up response never log in.
   */
  function LoginCall(response: Response<Option<AuthData>>): (call: Option<LoginArgs>)
    ensures call.Some? <==>
      && response.Received? && IsOkStatus(response.status)
      && response.body.Some? && response.body.value.login.Some?
      && Truthy(response.body.value.login.value.token)
    ensures call.Some? ==>
      var l := response.body.value.login.value;
      call.value == LoginArgs(l.token.value, l.userId, l.tokenExpiration)
  {
    match DataOf(response)
    case None => None
    case Some(data) =>
      if data.login.Some? && Truthy(data.login.value.token) then
        Some(LoginArgs(data.login.value.token.value, data.login.value.userId, data.login.value.tokenExpiration))
      else None
  }

  class AuthPage {
    var isLogin: bool
    var email: Option<string>
    var password: Option<string>

    /** The initial state: login mode, both inputs null. */
    constructor ()
      ensures isLogin && email == None && password == None
    {
      isLogin, email, password := true, None, None;
    }

    /** `switchModeHandler`: flips between login and sign-up. */
    method SwitchMode()
      modifies this
      ensures isLogin == !old(isLogin)
      ensures email == old(email) && password == old(password)
    {
      isLogin := !isLogin;
    }

    /**
     * `submitHandler`, synchronous part. A blank email or password (after
     * trimming) returns without a request; a null one throws, the password
     * being looked at only when the email is not blank. Otherwise it sends
     * the Login query in login mode and the CreateUser mutation in sign-up
     * mode, both with the inputs as given. The state is not changed.
     */
    method Submit() returns (d: Dispatch)
      ensures d.Sent? <==> email.Some? && password.Some? && !IsBlank(email.value) && !IsBlank(password.value)
      ensures d.Threw? <==> email.None? || (!IsBlank(email.value) && password.None?)
      ensures d.Sent? && isLogin ==> d.request == Login(email.value, password.value)
      ensures d.Sent? && !isLogin ==> d.request == CreateUser(email.value, password.value)
    {
      if email.None? {
        return Threw;
      }
      if IsBlank(email.value) {
        return Returned;
      }
      if password.None? {
        return Threw;
      }
      if IsBlank(password.value) {
        return Returned;
      }
      var requestBody := Login(email.value, password.value);
      if !isLogin {
        requestBody := CreateUser(email.value, password.value);
      }
      d := Sent(requestBody);
    }
  }

  /** Toggling the mode twice restores it. */
  method SwitchModeTwice(page: AuthPage)
    modifies page
    ensures page.isLogin == old(page.isLogin)
    ensures page.email == old(page.email) && page.password == old(page.password)
  {
    page.SwitchMode();
    page.SwitchMode();
  }
}
