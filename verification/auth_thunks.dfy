/** lib/store/thunks/authThunks.ts: login, registration, OTP verification,
    OTP resend, logout and the start-up check.

    Each thunk runs to completion once the API call it awaits has settled;
    that settlement is the `outcome` parameter. The Redux auth slice becomes
    the `AuthStore` object; `setUser` sets the user and marks the session
    authenticated, `clearAuth` clears both. `JSON.stringify`/`JSON.parse` of
    the stored user are the two functions of a `UserCodec`. */
module AuthThunks {
  import opened Js
  import opened BrowserEnv
  import opened Types
  import TokenManager
  import opened RefreshService
  import opened Cookies

  const UserKey := "user"

  /** `JSON.stringify` and `JSON.parse` for stored users. `parse` answers
      `None` when the text is not JSON (the call throws) or parses to a falsy
      value such as `null`. */
  datatype UserCodec = UserCodec(stringify: User -> string, parse: string -> Option<User>)

  /** The codec gives back a user it wrote, as a non-empty text. */
  predicate RestoresUser(codec: UserCodec, u: User) {
    codec.stringify(u) != "" && codec.parse(codec.stringify(u)) == Some(u)
  }

  /** The rejected value of an awaited API call: its `data.message` and its
      `message`, each possibly missing. */
  datatype ApiError = ApiError(dataMessage: Option<string>, message: Option<string>)

  /** How the awaited API call settled. */
  datatype ApiOutcome<T> = Succeeded(value: T) | Failed(error: ApiError)

  /** The fields of an `AuthResponse` the thunks read. */
  datatype AuthResponse = AuthResponse(user: User, accessToken: Option<string>, refreshToken: Option<string>)

  /** How a thunk's promise settles: its return value, or `rejectWithValue`. */
  datatype ThunkResult<T> = Fulfilled(value: T) | Rejected(message: string)

  /** The three thunks that sign a user in, which differ only in the API
      endpoint they call and their fallback error message. */
  datatype CredentialFlow = Login | Register | VerifyOtp

  function DefaultMessage(flow: CredentialFlow): string {
    match flow
    case Login => "Login failed"
    case Register => "Registration failed"
    case VerifyOtp => "OTP verification failed"
  }

  const ResendOtpFailed := "Failed to resend OTP"

  /** `error.data?.message || error.message || fallback`. */
  function RejectionMessage(e: ApiError, fallback: string): (r: string)
    ensures Truthy(e.dataMessage) ==> r == e.dataMessage.value
    ensures !Truthy(e.dataMessage) && Truthy(e.message) ==> r == e.message.value
    ensures !Truthy(e.dataMessage) && !Truthy(e.message) ==> r == fallback
    ensures fallback != "" ==> r != ""
  {
    if Truthy(e.dataMessage) then e.dataMessage.value
    else if Truthy(e.message) then e.message.value
    else fallback
  }

  /** `getUserFromStorage()` on a browser with or without a window and its
      storage. */
  function StoredUser(hasWindow: bool, storage: map<string, string>, codec: UserCodec): (r: Option<User>)
    ensures !hasWindow || UserKey !in storage || storage[UserKey] == "" ==> r == None
    ensures hasWindow && UserKey in storage && storage[UserKey] != "" ==> r == codec.parse(storage[UserKey])
  {
    if !hasWindow then None
    else if UserKey in storage && storage[UserKey] != "" then codec.parse(storage[UserKey])
    else None
  }

  /** A user saved by `saveUserToStorage` is the user read back, whatever
      else the storage holds. */
  lemma StoredUserAfterSave(storage: map<string, string>, u: User, codec: UserCodec)
    requires RestoresUser(codec, u)
    ensures StoredUser(true, storage[UserKey := codec.stringify(u)], codec) == Some(u)
  {
  }

  /** After `saveUserToStorage(null)` no user is read back. */
  lemma StoredUserAfterRemove(storage: map<string, string>, codec: UserCodec)
    ensures StoredUser(true, storage - {UserKey}, codec) == None
  {
  }

  /** The auth slice of the Redux store. */
  class AuthStore {
    var user: Option<User>
    var isAuthenticated: bool
    var isLoading: bool
    var error: Option<string>

    constructor ()
      ensures user == None && !isAuthenticated && !isLoading && error == None
    {
      user := None;
      isAuthenticated := false;
      isLoading := false;
      error := None;
    }
  }

  /** `saveUserToStorage(user)`: writes the user under `user`, or removes the
      key for null; nothing without a window. */
  method SaveUserToStorage(b: Browser, u: Option<User>, codec: UserCodec)
    modifies b
    ensures b.localStorage == if !b.hasWindow then old(b.localStorage)
      else if u.Some? then old(b.localStorage)[UserKey := codec.stringify(u.value)]
      else old(b.localStorage) - {UserKey}
    ensures b.cookies == old(b.cookies) && b.href == old(b.href)
    ensures b.hasWindow && u.Some? && RestoresUser(codec, u.value) ==> StoredUser(b.hasWindow, b.localStorage, codec) == u
    ensures b.hasWindow && u.None? ==> StoredUser(b.hasWindow, b.localStorage, codec) == None
  {
    if !b.hasWindow {
      return;
    }
    if u.Some? {
      b.SetItem(UserKey, codec.stringify(u.value));
    } else {
      b.RemoveItem(UserKey);
    }
  }

  /** The storage a successful sign-in leaves: the user saved, and both
      tokens written only when the response carries both non-empty. */
  function SignedInStorage(storage: map<string, string>, resp: AuthResponse, codec: UserCodec): map<string, string> {
    var withUser := storage[UserKey := codec.stringify(resp.user)];
    if Truthy(resp.accessToken) && Truthy(resp.refreshToken)
    then withUser[TokenManager.AccessTokenKey := resp.accessToken.value][TokenManager.RefreshTokenKey := resp.refreshToken.value]
    else withUser
  }

  /** The browser side of a successful sign-in: save the user, store the
      tokens when the response has both, set the role cookie and restart the
      keep-alive timer. */
  method PersistSignIn(resp: AuthResponse, b: Browser, svc: RefreshTokenService, codec: UserCodec)
    requires svc.Valid()
    modifies b, svc
    ensures svc.Valid() && svc.isRefreshing == old(svc.isRefreshing)
    ensures svc.intervalId == Some(Interval(old(svc.nextHandle), RefreshIntervalMs))
    ensures b.href == old(b.href)
    ensures b.localStorage == (if b.hasWindow then SignedInStorage(old(b.localStorage), resp, codec) else old(b.localStorage))
    ensures b.cookies == (if b.hasWindow then old(b.cookies)[UserRoleCookie := resp.user.role] else old(b.cookies))
    ensures !(Truthy(resp.accessToken) && Truthy(resp.refreshToken)) ==>
      TokenManager.GetAccessToken(b) == old(TokenManager.GetAccessToken(b))
      && TokenManager.GetRefreshToken(b) == old(TokenManager.GetRefreshToken(b))
    ensures b.hasWindow && RestoresUser(codec, resp.user) ==> StoredUser(b.hasWindow, b.localStorage, codec) == Some(resp.user)
  {
    SaveUserToStorage(b, Some(resp.user), codec);
    if Truthy(resp.accessToken) && Truthy(resp.refreshToken) {
      TokenManager.SetTokens(b, resp.accessToken.value, resp.refreshToken.value);
    }
    SetUserRoleCookie(b, resp.user.role);
    svc.StartTimer();
  }

  /** `loginUser`, `registerUser` and `verifyOtpUser` once their API call has
      settled. On success: the user is set and saved, the tokens are stored
      if the response has both, the role cookie is set and the keep-alive
      timer restarted. On failure: the error is recorded and the thunk
      rejects with it; nothing else changes. Loading is off either way. */
  method SignIn(flow: CredentialFlow, outcome: ApiOutcome<AuthResponse>, store: AuthStore, b: Browser,
                svc: RefreshTokenService, codec: UserCodec)
    returns (r: ThunkResult<User>)
    requires svc.Valid()
    modifies store, b, svc
    ensures svc.Valid()
    ensures !store.isLoading
    ensures b.href == old(b.href) && svc.isRefreshing == old(svc.isRefreshing)
    ensures outcome.Succeeded? ==>
      var resp := outcome.value;
      && r == Fulfilled(resp.user)
      && store.user == Some(resp.user) && store.isAuthenticated && store.error == None
      && b.localStorage == (if b.hasWindow then SignedInStorage(old(b.localStorage), resp, codec) else old(b.localStorage))
      && b.cookies == (if b.hasWindow then old(b.cookies)[UserRoleCookie := resp.user.role] else old(b.cookies))
      && svc.intervalId == Some(Interval(old(svc.nextHandle), RefreshIntervalMs))
    ensures outcome.Succeeded? && !(Truthy(outcome.value.accessToken) && Truthy(outcome.value.refreshToken)) ==>
      TokenManager.GetAccessToken(b) == old(TokenManager.GetAccessToken(b))
      && TokenManager.GetRefreshToken(b) == old(TokenManager.GetRefreshToken(b))
    ensures outcome.Succeeded? && b.hasWindow && RestoresUser(codec, outcome.value.user) ==>
      StoredUser(b.hasWindow, b.localStorage, codec) == Some(outcome.value.user)
    ensures outcome.Failed? ==>
      var message := RejectionMessage(outcome.error, DefaultMessage(flow));
      && r == Rejected(message) && message != ""
      && store.error == Some(message)
      && store.user == old(store.user) && store.isAuthenticated == old(store.isAuthenticated)
      && b.localStorage == old(b.localStorage) && b.cookies == old(b.cookies)
      && svc.intervalId == old(svc.intervalId) && svc.nextHandle == old(svc.nextHandle)
  {
    store.isLoading := true;
    store.error := None;
    match outcome {
      case Succeeded(resp) =>
        store.user := Some(resp.user);
        store.isAuthenticated := true;
        PersistSignIn(resp, b, svc, codec);
        r := Fulfilled(resp.user);
      case Failed(e) =>
        var message := RejectionMessage(e, DefaultMessage(flow));
        store.error := Some(message);
        r := Rejected(message);
    }
    store.isLoading := false;
  }

  /** `resendOtpUser` once its API call has settled: only the error and the
      loading flag change. */
  method ResendOtp(outcome: ApiOutcome<()>, store: AuthStore) returns (r: ThunkResult<()>)
    modifies store
    ensures !store.isLoading
    ensures store.user == old(store.user) && store.isAuthenticated == old(store.isAuthenticated)
    ensures outcome.Succeeded? ==> r == Fulfilled(()) && store.error == None
    ensures outcome.Failed? ==>
      var message := RejectionMessage(outcome.error, ResendOtpFailed);
      r == Rejected(message) && store.error == Some(message) && message != ""
  {
    store.isLoading := true;
    store.error := None;
    if outcome.Failed? {
      var message := RejectionMessage(outcome.error, ResendOtpFailed);
      store.error := Some(message);
      r := Rejected(message);
    } else {
      r := Fulfilled(());
    }
    store.isLoading := false;
  }

  /** `logoutUser` once the backend call has settled. Its outcome only
      reaches a console log, so it is not a parameter: the `finally` block
      clears the session, the stored user, the role cookie and both tokens
      and stops the timer whether the backend call succeeded or not. */
  method Logout(store: AuthStore, b: Browser, svc: RefreshTokenService, codec: UserCodec)
    requires svc.Valid()
    modifies store, b, svc
    ensures svc.Valid() && svc.intervalId == None && svc.liveIntervals == {}
    ensures store.user == None && !store.isAuthenticated
    ensures store.isLoading == old(store.isLoading) && store.error == old(store.error)
    ensures b.localStorage == if b.hasWindow
      then TokenManager.WithoutTokens(old(b.localStorage) - {UserKey})
      else old(b.localStorage)
    ensures b.cookies == if b.hasWindow then old(b.cookies) - {UserRoleCookie} else old(b.cookies)
    ensures b.href == old(b.href)
    ensures !TokenManager.IsAuthenticated(b) && StoredUser(b.hasWindow, b.localStorage, codec) == None
  {
    store.user := None;
    store.isAuthenticated := false;
    SaveUserToStorage(b, None, codec);
    ClearUserRoleCookie(b);
    TokenManager.ClearTokens(b);
    svc.StopTimer();
    if b.hasWindow {
      b.RemoveItem(UserKey);
    }
  }

  /** `checkAuthStatus`: the session is restored exactly when a user is
      stored and both tokens are present; otherwise the session and the
      tokens are cleared (the stored user, if any, stays) and the result is
      null. */
  method CheckAuthStatus(store: AuthStore, b: Browser, svc: RefreshTokenService, codec: UserCodec)
    returns (r: Option<User>)
    requires svc.Valid()
    modifies store, b, svc
    ensures svc.Valid() && svc.isRefreshing == old(svc.isRefreshing)
    ensures !store.isLoading && store.error == old(store.error) && b.href == old(b.href)
    ensures r.Some? <==> old(StoredUser(b.hasWindow, b.localStorage, codec)).Some? && old(TokenManager.IsAuthenticated(b))
    ensures r.Some? ==>
      && r == old(StoredUser(b.hasWindow, b.localStorage, codec))
      && store.user == r && store.isAuthenticated
      && b.localStorage == old(b.localStorage)
      && b.cookies == old(b.cookies)[UserRoleCookie := r.value.role]
      && svc.intervalId == Some(Interval(old(svc.nextHandle), RefreshIntervalMs))
    ensures r.None? ==>
      && store.user == None && !store.isAuthenticated
      && b.localStorage == (if b.hasWindow then TokenManager.WithoutTokens(old(b.localStorage)) else old(b.localStorage))
      && b.cookies == old(b.cookies)
      && !TokenManager.IsAuthenticated(b)
      && svc.intervalId == old(svc.intervalId)
  {
    store.isLoading := true;
    var storedUser := StoredUser(b.hasWindow, b.localStorage, codec);
    var hasTokens := TokenManager.IsAuthenticated(b);
    if storedUser.Some? && hasTokens {
      store.user := storedUser;
      store.isAuthenticated := true;
      SetUserRoleCookie(b, storedUser.value.role);
      svc.StartTimer();
      r := storedUser;
    } else {
      store.user := None;
      store.isAuthenticated := false;
      TokenManager.ClearTokens(b);
      r := None;
    }
    store.isLoading := false;
  }

  /** A sign-in whose response carries both tokens is restored by the next
      start-up check. */
  method SignInThenRestore(flow: CredentialFlow, user: User, accessToken: string, refreshToken: string, codec: UserCodec)
    returns (restored: Option<User>)
    requires accessToken != "" && refreshToken != "" && RestoresUser(codec, user)
    ensures restored == Some(user)
  {
    var store := new AuthStore();
    var b := new Browser(true, map[], map[], "/auth/login");
    var svc := new RefreshTokenService();
    var response := AuthResponse(user, Some(accessToken), Some(refreshToken));
    var _ := SignIn(flow, Succeeded(response), store, b, svc, codec);
    assert b.localStorage[UserKey] == codec.stringify(user);
    restored := CheckAuthStatus(store, b, svc, codec);
  }

  /** After a logout the start-up check restores nothing. */
  method LogoutThenCheck(b: Browser, codec: UserCodec) returns (restored: Option<User>)
    modifies b
    ensures restored == None
  {
    var store := new AuthStore();
    var svc := new RefreshTokenService();
    Logout(store, b, svc, codec);
    restored := CheckAuthStatus(store, b, svc, codec);
  }
}
