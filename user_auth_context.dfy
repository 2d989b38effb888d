/**
 * The session provider the protected routes read (src/utils/authContext.js):
 * `user`, `loading` and `isAuthenticated`, updated by `checkAuth`, `login`
 * and `logout`. The outcome of each `authAPI` call is a parameter; a call that
 * rejects in `login` or `logout` propagates before any state is set.
 */
module UserAuthContext {
  import opened Common

  const OutsideProvider: string := "useAuth must be used within AuthProvider"

  datatype Credentials = Credentials(username: string, password: string)

  /**
   * Reading `user` of a `null` response throws a TypeError before any state
   * is set (V8's wording).
   */
  const NullDataMessage: string := "Cannot read properties of null (reading 'user')"

  /**
   * `data.user || { username: credentials.username }`: the user the response
   * names when truthy, otherwise one with the username; on `null` the member
   * access throws.
   */
  function UserOf(data: Json, credentials: Credentials): (r: CallOutcome<Json>)
    ensures r.Threw? <==> data == JNull
    ensures r.Threw? ==> r.message == Some(NullDataMessage)
    ensures data != JNull && Member(data, "user").Some? && JsonTruthy(Member(data, "user").value) ==>
      r == Returned(Member(data, "user").value)
    ensures data != JNull && (Member(data, "user").None? || !JsonTruthy(Member(data, "user").value)) ==>
      r == Returned(JObj([("username", JStr(credentials.username))]))
  {
    if data == JNull then Threw(Some(NullDataMessage))
    else
      var user := Member(data, "user");
      if user.Some? && JsonTruthy(user.value) then Returned(user.value)
      else Returned(JObj([("username", JStr(credentials.username))]))
  }

  /** A primitive response has no `user` member, so the username stands in. */
  lemma PrimitiveResponseUsesUsername(credentials: Credentials, n: real)
    ensures UserOf(JNum(n), credentials) == Returned(JObj([("username", JStr(credentials.username))]))
    ensures UserOf(JNull, credentials).Threw?
  {
  }

  class Provider {
    var user: Json
    var loading: bool
    var isAuthenticated: bool

    constructor ()
      ensures user == JNull && loading && !isAuthenticated
    {
      user := JNull;
      loading := true;
      isAuthenticated := false;
    }

    /** `checkAuth()`: true and authenticated on success; false, signed out and no user on failure. */
    method CheckAuth(call: CallOutcome<Json>) returns (isAuth: bool)
      modifies this
      ensures !loading
      ensures isAuth <==> call.Returned?
      ensures isAuthenticated == isAuth
      ensures call.Returned? ==> user == old(user)
      ensures call.Threw? ==> user == JNull
    {
      loading := true;
      if call.Returned? {
        isAuthenticated := true;
        isAuth := true;
      } else {
        isAuthenticated := false;
        user := JNull;
        isAuth := false;
      }
      loading := false;
    }

    /**
     * `login(credentials)`: on success stores the user the response names, or
     * one with the username; a rejection, or the TypeError of a `null`
     * response, propagates before any state is set.
     */
    method Login(credentials: Credentials, call: CallOutcome<Json>) returns (result: CallOutcome<Json>)
      modifies this`user, this`isAuthenticated
      ensures call.Returned? && call.value != JNull ==>
        result == call && Returned(user) == UserOf(call.value, credentials) && isAuthenticated
      ensures call == Returned(JNull) ==> result == Threw(Some(NullDataMessage))
      ensures call.Threw? ==> result == call
      ensures !(call.Returned? && call.value != JNull) ==>
        user == old(user) && isAuthenticated == old(isAuthenticated)
    {
      match call {
        case Returned(data) =>
          var u := UserOf(data, credentials);
          match u {
            case Threw(message) =>
              result := Threw(message);
            case Returned(value) =>
              user := value;
              isAuthenticated := true;
              result := Returned(data);
          }
        case Threw(message) =>
          result := Threw(message);
      }
    }

    /** `logout()`: on success clears the user and signs out; a rejection propagates. */
    method Logout(call: CallOutcome<Json>) returns (result: CallOutcome<()>)
      modifies this`user, this`isAuthenticated
      ensures result.Returned? <==> call.Returned?
      ensures result.Threw? ==> result.message == call.message
      ensures call.Returned? ==> user == JNull && !isAuthenticated
      ensures call.Threw? ==> user == old(user) && isAuthenticated == old(isAuthenticated)
    {
      match call {
        case Returned(_) =>
          user := JNull;
          isAuthenticated := false;
          result := Returned(());
        case Threw(message) =>
          result := Threw(message);
      }
    }
  }

  /** `useAuth()`: the provider's value, or the error thrown outside a provider. */
  function UseAuth(context: Option<Provider>): (r: Result<Provider>)
    ensures r.Ok? <==> context.Some?
    ensures r.Ok? ==> r.value == context.value
    ensures r.Err? ==> r.error == OutsideProvider
  {
    if context.None? then Err(OutsideProvider) else Ok(context.value)
  }
}
