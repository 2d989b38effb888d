/**
 * The authentication client (src/services/authService.js). Each operation
 * takes the outcome of its one HTTP call and says what the operation itself
 * yields: the response, `null`, or the same rejection rethrown.
 */
module AuthService {
  import opened Common

  const LoginEndpoint: string := "/api/auth/login"
  const LogoutEndpoint: string := "/api/auth/logout"
  const UsersEndpoint: string := "/api/users"

  /** The JSON body of the login request. */
  datatype LoginBody = LoginBody(username: string, password: string, useCookie: bool)

  /** The body `login` posts: the credentials, with cookie sessions always requested. */
  function LoginRequest(username: string, password: string): (r: LoginBody)
    ensures r.useCookie
    ensures r.username == username && r.password == password
  {
    LoginBody(username, password, true)
  }

  /** `login`: the response, or the rejection rethrown unchanged. */
  function Login(call: CallOutcome<Json>): (r: CallOutcome<Json>)
    ensures r.Returned? <==> call.Returned?
    ensures r.Threw? ==> r.message == call.message
    ensures r.Returned? ==> r.value == call.value
  {
    match call
    case Returned(response) => Returned(response)
    case Threw(message) => Threw(message)
  }

  /** `logout`: a rejection of the post is logged and swallowed. */
  function Logout(call: CallOutcome<Json>): (r: CallOutcome<()>)
    ensures r == Returned(())
  {
    match call
    case Returned(_) => Returned(())
    case Threw(_) => Returned(())
  }

  /** `checkStatus`: the response, or `null` when the request fails; it never throws. */
  function CheckStatus(call: CallOutcome<Json>): (r: CallOutcome<Json>)
    ensures r.Returned?
    ensures call.Returned? ==> r.value == call.value
    ensures call.Threw? ==> r.value == JNull
  {
    match call
    case Returned(response) => Returned(response)
    case Threw(_) => Returned(JNull)
  }

  /** `testApiCall`: the response, or the rejection rethrown unchanged. */
  function TestApiCall(call: CallOutcome<Json>): (r: CallOutcome<Json>)
    ensures r.Returned? <==> call.Returned?
    ensures r.Threw? ==> r.message == call.message
    ensures r.Returned? ==> r.value == call.value
  {
    match call
    case Returned(response) => Returned(response)
    case Threw(message) => Threw(message)
  }

  /** A failed status check and a status check that answers `null` look the same to the caller. */
  lemma FailedCheckLooksLikeNull(message: Option<string>)
    ensures CheckStatus(Threw(message)) == CheckStatus(Returned(JNull))
  {
  }
}
