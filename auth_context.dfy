/** The session (src/context/AuthContext.jsx): the signed-in user, the start-up check of
    a stored session, login and logout, over the browser's storage as a map from keys to
    strings. The server's answers are parameters. */
module AuthContext {
  import opened Wrappers
  import opened Js
  import opened Entities
  import opened Json

  const TokenKey := "token"
  const UserKey := "user"
  const LoginFailedMessage := "Error al iniciar sesión"

  /** `isAuthenticated`: `!!user`. */
  predicate Authenticated(user: Option<User>) {
    user.Some?
  }

  /** `isAdmin`: `user?.rol === 'administrador'`; only a signed-in user can be one. */
  function Admin(user: Option<User>): (admin: bool)
    ensures admin <==> user.Some? && user.value.rol == Administrador
    ensures admin ==> Authenticated(user)
  {
    match user
    case None => false
    case Some(u) => u.rol == Administrador
  }

  /** `localStorage.getItem(key)`: null for a missing key. */
  function GetItem(storage: map<string, string>, key: string): (item: Option<string>)
    ensures item.Some? <==> key in storage
    ensures item.Some? ==> item.value == storage[key]
  {
    if key in storage then Some(storage[key]) else None
  }

  /** A stored item is truthy: present and not ''. */
  predicate TruthyItem(item: Option<string>) {
    item.Some? && item.value != ""
  }

  /** `token && savedUser`: both keys hold a non-empty string. */
  predicate HasSession(storage: map<string, string>) {
    TruthyItem(GetItem(storage, TokenKey)) && TruthyItem(GetItem(storage, UserKey))
  }

  /** The answer to `/auth/verify`: the `user` of the response body (absent or null is
      None), or an error. */
  datatype Verification = Verified(user: Option<User>) | VerifyFailed

  /** The answer to `/auth/login`: the token and user of the response body, or an error
      with the server's message if it sent one. */
  datatype LoginResponse = LoggedIn(token: string, user: User) | LoginError(serverMessage: Option<string>)

  /** What `login` resolves to: `{ success }`, with a message on failure. */
  datatype LoginResult = LoginResult(success: bool, message: Option<string>)

  /** `error.response?.data?.message || 'Error al iniciar sesión'`. */
  function LoginFailure(serverMessage: Option<string>): (message: string)
    ensures message != ""
    ensures serverMessage.Some? && serverMessage.value != "" ==> message == serverMessage.value
    ensures serverMessage.None? || serverMessage.value == "" ==> message == LoginFailedMessage
  {
    if serverMessage.Some? && serverMessage.value != "" then serverMessage.value else LoginFailedMessage
  }

  /** Removing the two session keys leaves no session and every other key as it was. */
  lemma RemovingKeysEndsSession(storage: map<string, string>)
    ensures !HasSession(storage - {TokenKey, UserKey})
    ensures forall k | k in storage && k != TokenKey && k != UserKey ::
              k in storage - {TokenKey, UserKey} && (storage - {TokenKey, UserKey})[k] == storage[k]
  {
    var rest := storage - {TokenKey, UserKey};
    assert TokenKey !in rest;
  }

  /** Storing a non-empty token with a user record makes a session the start-up check
      accepts. */
  lemma StoringKeysStartsSession(storage: map<string, string>, token: string, u: User)
    requires token != ""
    ensures HasSession(storage[TokenKey := token][UserKey := UserJson(u)])
  {
    assert TokenKey[0] != UserKey[0];
  }

  class AuthProvider {
    var user: Option<User>
    var loading: bool
    var storage: map<string, string>

    /** The first render: no user, and loading until the start-up check is done. */
    constructor(storage: map<string, string>)
      ensures user == None && loading && this.storage == storage
    {
      user := None;
      loading := true;
      this.storage := storage;
    }

    /** `checkAuth`: verify is asked only when both keys are stored. A verified session
        takes the server's user; a rejected one loses both keys and the user; without a
        session nothing changes. Loading ends on every path. */
    method CheckAuth(verify: Verification) returns (verifyCalled: bool)
      modifies this
      ensures verifyCalled <==> HasSession(old(storage))
      ensures !loading
      ensures !verifyCalled ==> user == old(user) && storage == old(storage)
      ensures verifyCalled && verify.Verified? ==> user == verify.user && storage == old(storage)
      ensures verifyCalled && verify.VerifyFailed? ==>
                user == None && storage == old(storage) - {TokenKey, UserKey}
    {
      var token := GetItem(storage, TokenKey);
      var savedUser := GetItem(storage, UserKey);
      verifyCalled := TruthyItem(token) && TruthyItem(savedUser);
      if verifyCalled {
        match verify {
          case Verified(u) =>
            user := u;
          case VerifyFailed =>
            storage := storage - {TokenKey};
            storage := storage - {UserKey};
            user := None;
        }
      }
      loading := false;
    }

    /** `login`: on success both keys are written, the user is set and success is
        reported; on failure nothing changes and the message is returned. */
    method Login(response: LoginResponse) returns (result: LoginResult)
      modifies this
      ensures loading == old(loading)
      ensures response.LoggedIn? ==>
                && result == LoginResult(true, None)
                && user == Some(response.user)
                && storage == old(storage)[TokenKey := response.token][UserKey := UserJson(response.user)]
      ensures response.LoggedIn? && response.token != "" ==> HasSession(storage)
      ensures response.LoginError? ==>
                && result == LoginResult(false, Some(LoginFailure(response.serverMessage)))
                && user == old(user) && storage == old(storage)
    {
      match response {
        case LoggedIn(token, userData) =>
          storage := storage[TokenKey := token];
          storage := storage[UserKey := UserJson(userData)];
          if token != "" {
            StoringKeysStartsSession(old(storage), token, userData);
          }
          user := Some(userData);
          result := LoginResult(true, None);
        case LoginError(message) =>
          result := LoginResult(false, Some(LoginFailure(message)));
      }
    }

    /** `logout`: both keys go, every other key stays, and the user is cleared. */
    method Logout()
      modifies this
      ensures user == None && loading == old(loading)
      ensures storage == old(storage) - {TokenKey, UserKey}
      ensures !HasSession(storage)
    {
      storage := storage - {TokenKey};
      storage := storage - {UserKey};
      user := None;
      RemovingKeysEndsSession(old(storage));
    }
  }
}
