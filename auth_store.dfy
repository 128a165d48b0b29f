/** The client's session state: the signed-in user and token, and the actions that change them. */
module AuthStore {
  import opened Common
  import opened AuthApi

  /** What the sign-in and registration calls resolve with. */
  datatype AuthResponse = AuthResponse(user: AuthUser, token: Option<string>)

  class AuthState {
    var user: Option<AuthUser>
    var token: Option<string>
    var isLoading: bool
    var isAuthenticated: bool

    /** The session is never marked authenticated without a user. */
    ghost predicate Valid()
      reads this
    {
      isAuthenticated ==> user.Some?
    }

    /** The initial state: nobody signed in, nothing loading. */
    constructor ()
      ensures user.None? && token.None? && !isLoading && !isAuthenticated
      ensures Valid()
    {
      user := None;
      token := None;
      isLoading := false;
      isAuthenticated := false;
    }

    /** `loadUser`: the user the server reports for the stored token, or a signed-out session
        when the call fails; the token itself is left alone either way. */
    method LoadUser(response: Outcome<AuthUser>)
      modifies this
      ensures response.Resolved? ==> user == Some(response.value) && isAuthenticated
      ensures response.Rejected? ==> user.None? && !isAuthenticated
      ensures token == old(token) && !isLoading
      ensures Valid()
    {
      isLoading := true;
      if response.Resolved? {
        user, isAuthenticated, isLoading := Some(response.value), true, false;
      } else {
        user, isAuthenticated, isLoading := None, false, false;
      }
    }

    /** The shared body of `login` and `register`: on success the session takes the returned
        user and token; on failure only the loading flag changes and the error is rethrown
        (`rethrown` is true). */
    method SignIn(response: Outcome<AuthResponse>) returns (rethrown: bool)
      modifies this
      ensures rethrown <==> response.Rejected?
      ensures response.Resolved? ==>
        user == Some(response.value.user) && token == response.value.token && isAuthenticated
      ensures response.Rejected? ==>
        user == old(user) && token == old(token) && isAuthenticated == old(isAuthenticated)
      ensures !isLoading
      ensures old(Valid()) ==> Valid()
    {
      isLoading := true;
      if response.Resolved? {
        user, token, isAuthenticated, isLoading := Some(response.value.user), response.value.token, true, false;
        rethrown := false;
      } else {
        isLoading := false;
        rethrown := true;
      }
    }

    /** `login`; the credentials only reach the server, whose answer is `response`. */
    method Login(response: Outcome<AuthResponse>) returns (rethrown: bool)
      modifies this
      ensures rethrown <==> response.Rejected?
      ensures response.Resolved? ==>
        user == Some(response.value.user) && token == response.value.token && isAuthenticated
      ensures response.Rejected? ==>
        user == old(user) && token == old(token) && isAuthenticated == old(isAuthenticated)
      ensures !isLoading
      ensures old(Valid()) ==> Valid()
    {
      rethrown := SignIn(response);
    }

    /** `register`: the same state change as `login`. */
    method Register(response: Outcome<AuthResponse>) returns (rethrown: bool)
      modifies this
      ensures rethrown <==> response.Rejected?
      ensures response.Resolved? ==>
        user == Some(response.value.user) && token == response.value.token && isAuthenticated
      ensures response.Rejected? ==>
        user == old(user) && token == old(token) && isAuthenticated == old(isAuthenticated)
      ensures !isLoading
      ensures old(Valid()) ==> Valid()
    {
      rethrown := SignIn(response);
    }

    /** `logout`: user, token and the authenticated flag are cleared; loading is untouched. */
    method Logout()
      modifies this
      ensures user.None? && token.None? && !isAuthenticated
      ensures isLoading == old(isLoading)
      ensures Valid()
    {
      user, token, isAuthenticated := None, None, false;
    }

    /** `setRole`: only the role of a present user changes; no user stays no user. */
    method SetRole(role: JsValue)
      modifies this
      ensures old(user).None? ==> user.None?
      ensures old(user).Some? ==> user == Some(old(user).value.(role := role))
      ensures token == old(token) && isLoading == old(isLoading) && isAuthenticated == old(isAuthenticated)
      ensures old(Valid()) ==> Valid()
    {
      if user.Some? {
        user := Some(user.value.(role := role));
      }
    }
  }
}
