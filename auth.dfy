/** The authentication service's storage readers, request shaping and error mapping. */
module AuthService {
  import opened Base
  import opened Entities
  import opened Storage

  const TokenKey := "token"
  const UserKey := "user"

  /** `isAuthenticated()`: both raw stored values are present and non-empty. */
  predicate IsAuthenticated(m: map<string, Stored>)
    ensures IsAuthenticated(m) ==> TokenKey in m && UserKey in m
    ensures TokenKey !in m || UserKey !in m ==> !IsAuthenticated(m)
  {
    PresentAndNonEmpty(m, TokenKey) && PresentAndNonEmpty(m, UserKey)
  }

  /** `getCurrentUser()`: `None` when "user" is absent, empty or not a stringified user. */
  function GetCurrentUser(m: map<string, Stored>): (r: Option<User>)
    ensures r.Some? <==> UserKey in m && m[UserKey].UserJson?
    ensures r.Some? ==> m[UserKey] == UserJson(r.value)
  {
    if UserKey in m && m[UserKey].UserJson? then Some(m[UserKey].user) else None
  }

  /** `getToken()`: `None` when "token" is absent, empty or not a stringified string. */
  function GetToken(m: map<string, Stored>): (r: Option<string>)
    ensures r.Some? <==> TokenKey in m && m[TokenKey].TokenJson?
    ensures r.Some? ==> m[TokenKey] == TokenJson(r.value)
  {
    if TokenKey in m && m[TokenKey].TokenJson? then Some(m[TokenKey].token) else None
  }

  /** `clearAuth()` removes "token" and "user" and nothing else. */
  method ClearAuth(ls: LocalStorage)
    modifies ls
    ensures ls.items == old(ls.items) - {TokenKey, UserKey}
  {
    ls.RemoveItem(TokenKey);
    ls.RemoveItem(UserKey);
  }

  /** After `clearAuth` the user is signed out in storage, every other key (the cart's
      included) is untouched, and neither reader finds anything. */
  lemma ClearedSignsOut(m: map<string, Stored>)
    ensures !IsAuthenticated(m - {TokenKey, UserKey})
    ensures GetCurrentUser(m - {TokenKey, UserKey}) == None && GetToken(m - {TokenKey, UserKey}) == None
    ensures forall k :: k in m && k != TokenKey && k != UserKey ==>
              k in m - {TokenKey, UserKey} && (m - {TokenKey, UserKey})[k] == m[k]
  {
  }

  /** What the login-fulfilled case writes and the readers then return: the user, and the
      token as it was stored. This is what a later `initializeAuth` finds. */
  lemma LoginWritesRoundTrip(m: map<string, Stored>, u: User)
    ensures var m' := m[TokenKey := TokenJson(u.accessToken)][UserKey := UserJson(u)];
      GetCurrentUser(m') == Some(u) && GetToken(m') == Some(u.accessToken) && IsAuthenticated(m')
  {
  }

  /** Input to `signup`: `role` is missing (`None`) or a string (possibly empty). */
  datatype SignupData = SignupData(username: string, email: string, password: string, role: Option<string>)

  /** The body posted to /signup. */
  datatype SignupBody = SignupBody(username: string, email: string, password: string, role: string)

  /** `role: userData.role || 'buyer'`. */
  function SignupRequest(d: SignupData): (b: SignupBody)
    ensures b.username == d.username && b.email == d.email && b.password == d.password
    ensures b.role == "buyer" <==> d.role.None? || d.role.value == "" || d.role.value == "buyer"
    ensures b.role != "buyer" ==> d.role == Some(b.role)
  {
    SignupBody(d.username, d.email, d.password,
               if d.role.Some? && d.role.value != "" then d.role.value else "buyer")
  }

  datatype Call = SignupCall | LoginCall | LogoutCall

  function DefaultMessage(c: Call): string
  {
    match c
    case SignupCall => "Registration failed"
    case LoginCall => "Login failed"
    case LogoutCall => "Logout failed"
  }

  /** The body of an error response; its `message` may be missing. */
  datatype ErrorBody = ErrorBody(message: Option<string>)

  /** A failed request: with a response body, or without one (network error, timeout). */
  datatype RequestError = RequestError(responseBody: Option<ErrorBody>)

  /** `throw error.response?.data || { message: <default> }`. */
  function Thrown(c: Call, e: RequestError): (r: ErrorBody)
    ensures e.responseBody.Some? ==> r == e.responseBody.value
    ensures e.responseBody.None? ==> r == ErrorBody(Some(DefaultMessage(c)))
  {
    if e.responseBody.Some? then e.responseBody.value else ErrorBody(Some(DefaultMessage(c)))
  }

  /** The thunk's `rejectWithValue(error.message || <default>)`. */
  function RejectedPayload(c: Call, thrown: ErrorBody): string
  {
    if thrown.message.Some? && thrown.message.value != "" then thrown.message.value else DefaultMessage(c)
  }

  /** End to end, a failed call reports the server's non-empty message, or the call's own
      default text; the reported error is never empty. */
  lemma FailureMessage(c: Call, e: RequestError)
    ensures var p := RejectedPayload(c, Thrown(c, e));
      p != ""
      && (p == DefaultMessage(c) || (e.responseBody.Some? && e.responseBody.value.message == Some(p)))
      && (e.responseBody.Some? && e.responseBody.value.message.Some? && e.responseBody.value.message.value != ""
          ==> p == e.responseBody.value.message.value)
  {
  }
}

/** The auth slice: five fields driven by the pending, fulfilled and rejected cases of the
    signup, login and logout thunks, plus `initializeAuth` and `clearError`. */
module Auth {
  import opened Base
  import opened Entities
  import opened Storage
  import opened AuthService

  class AuthStore {
    var isAuthenticated: bool
    var user: Option<User>
    var token: Option<string>
    var loading: bool
    var error: Option<string>
    const storage: LocalStorage

    /** Being authenticated implies a user and a token. */
    ghost predicate Valid()
      reads this
    {
      isAuthenticated ==> user.Some? && token.Some?
    }

    constructor (storage: LocalStorage)
      ensures !isAuthenticated && user == None && token == None && !loading && error == None
      ensures Valid() && this.storage == storage
    {
      this.storage := storage;
      isAuthenticated, user, token, loading, error := false, None, None, false, None;
    }

    method SetLoading(b: bool)
      modifies this
      ensures loading == b
      ensures isAuthenticated == old(isAuthenticated) && user == old(user) && token == old(token) && error == old(error)
    {
      loading := b;
    }

    method SetError(e: string)
      modifies this
      ensures error == Some(e) && !loading
      ensures isAuthenticated == old(isAuthenticated) && user == old(user) && token == old(token)
    {
      error := Some(e);
      loading := false;
    }

    /** `clearError` changes only `error`. */
    method ClearError()
      modifies this
      ensures error == None
      ensures isAuthenticated == old(isAuthenticated) && user == old(user) && token == old(token) && loading == old(loading)
    {
      error := None;
    }

    /** `initializeAuth`: restore the session only when both a user and a truthy token are
        stored; otherwise nothing changes. No expiry check. */
    method InitializeAuth()
      requires Valid()
      modifies this
      ensures Valid()
      ensures var u, t := GetCurrentUser(storage.items), GetToken(storage.items);
        if u.Some? && t.Some? && t.value != "" then
          user == u && token == t && isAuthenticated
        else
          user == old(user) && token == old(token) && isAuthenticated == old(isAuthenticated)
      ensures loading == old(loading) && error == old(error)
    {
      var u := GetCurrentUser(storage.items);
      var t := GetToken(storage.items);
      if u.Some? && t.Some? && t.value != "" {
        user := u;
        token := t;
        isAuthenticated := true;
      }
    }

    /** The pending case of signup and of login. */
    method SignupOrLoginPending()
      modifies this
      ensures loading && error == None
      ensures isAuthenticated == old(isAuthenticated) && user == old(user) && token == old(token)
    {
      loading := true;
      error := None;
    }

    /** Signup fulfilled: the user is not signed in by signing up. */
    method SignupFulfilled()
      modifies this
      ensures !loading && error == None
      ensures isAuthenticated == old(isAuthenticated) && user == old(user) && token == old(token)
    {
      loading := false;
      error := None;
    }

    /** Every rejected case (signup, login, logout): only `loading` and `error` change. */
    method Rejected(payload: string)
      modifies this
      ensures !loading && error == Some(payload)
      ensures isAuthenticated == old(isAuthenticated) && user == old(user) && token == old(token)
    {
      loading := false;
      error := Some(payload);
    }

    /** Login fulfilled: signed in with the payload's user and its access token, both persisted. */
    method LoginFulfilled(u: User)
      modifies this, storage
      ensures !loading && error == None && isAuthenticated
      ensures user == Some(u) && token == Some(u.accessToken)
      ensures storage.items == old(storage.items)[TokenKey := TokenJson(u.accessToken)][UserKey := UserJson(u)]
      ensures Valid()
    {
      loading := false;
      error := None;
      isAuthenticated := true;
      user := Some(u);
      token := Some(u.accessToken);
      storage.SetItem(TokenKey, TokenJson(u.accessToken));
      storage.SetItem(UserKey, UserJson(u));
    }

    /** Logout pending sets `loading` and, unlike the other pending cases, keeps `error`. */
    method LogoutPending()
      modifies this
      ensures loading
      ensures isAuthenticated == old(isAuthenticated) && user == old(user) && token == old(token) && error == old(error)
    {
      loading := true;
    }

    /** Logout fulfilled: everything reset and the stored session removed. */
    method LogoutFulfilled()
      modifies this, storage
      ensures !loading && !isAuthenticated && user == None && token == None && error == None
      ensures storage.items == old(storage.items) - {TokenKey, UserKey}
      ensures !IsAuthenticated(storage.items)
      ensures Valid()
    {
      loading := false;
      isAuthenticated := false;
      user := None;
      token := None;
      error := None;
      ClearAuth(storage);
      ClearedSignsOut(old(storage.items));
    }

    /** `signupUser`: pending, then the call settles. A successful signup never signs in. */
    method Signup(outcome: Result<(), RequestError>)
      requires Valid()
      modifies this
      ensures Valid() && !loading
      ensures isAuthenticated == old(isAuthenticated) && user == old(user) && token == old(token)
      ensures outcome.Ok? ==> error == None
      ensures outcome.Err? ==> error == Some(RejectedPayload(SignupCall, Thrown(SignupCall, outcome.error)))
    {
      SignupOrLoginPending();
      match outcome {
        case Ok(_) => SignupFulfilled();
        case Err(e) => Rejected(RejectedPayload(SignupCall, Thrown(SignupCall, e)));
      }
    }

    /** `loginUser`: pending, then the call settles with the response's user or an error. */
    method Login(outcome: Result<User, RequestError>)
      requires Valid()
      modifies this, storage
      ensures Valid() && !loading
      ensures outcome.Ok? ==> isAuthenticated && user == Some(outcome.value) && error == None
                               && token == Some(outcome.value.accessToken)
                               && storage.items == old(storage.items)[TokenKey := TokenJson(outcome.value.accessToken)]
                                                                      [UserKey := UserJson(outcome.value)]
                               && GetCurrentUser(storage.items) == Some(outcome.value)
                               && GetToken(storage.items) == Some(outcome.value.accessToken)
      ensures outcome.Err? ==> isAuthenticated == old(isAuthenticated) && user == old(user) && token == old(token)
                                && error == Some(RejectedPayload(LoginCall, Thrown(LoginCall, outcome.error)))
                                && storage.items == old(storage.items)
    {
      SignupOrLoginPending();
      match outcome {
        case Ok(u) => LoginFulfilled(u);
        case Err(e) => Rejected(RejectedPayload(LoginCall, Thrown(LoginCall, e)));
      }
    }

    /** `logoutUser`: only a successful call signs out; a rejected logout leaves the user
        signed in, with the error set. */
    method Logout(outcome: Result<(), RequestError>)
      requires Valid()
      modifies this, storage
      ensures Valid() && !loading
      ensures outcome.Ok? ==> !isAuthenticated && user == None && token == None && error == None
                               && storage.items == old(storage.items) - {TokenKey, UserKey}
                               && !IsAuthenticated(storage.items)
      ensures outcome.Err? ==> isAuthenticated == old(isAuthenticated) && user == old(user) && token == old(token)
                                && error == Some(RejectedPayload(LogoutCall, Thrown(LogoutCall, outcome.error)))
                                && storage.items == old(storage.items)
    {
      LogoutPending();
      match outcome {
        case Ok(_) => LogoutFulfilled();
        case Err(e) => Rejected(RejectedPayload(LogoutCall, Thrown(LogoutCall, e)));
      }
    }
  }
}
