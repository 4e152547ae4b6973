/** lib/utils/tokenManager.ts: the access and refresh tokens kept under the
    localStorage keys `accessToken` and `refreshToken`. The object has no
    state of its own; every setter writes the browser's storage and every
    getter reads it, and with no `window` getters give null and setters do
    nothing. */
module TokenManager {
  import opened Js
  import opened BrowserEnv

  const AccessTokenKey := "accessToken"
  const RefreshTokenKey := "refreshToken"
  const BearerPrefix := "Bearer "

  /** `tokenManager.getAccessToken()` */
  function GetAccessToken(b: Browser): (r: Option<string>)
    reads b
    ensures r.Some? <==> b.hasWindow && AccessTokenKey in b.localStorage
    ensures r.Some? ==> r.value == b.localStorage[AccessTokenKey]
  {
    if b.hasWindow then b.GetItem(AccessTokenKey) else None
  }

  /** `tokenManager.getRefreshToken()` */
  function GetRefreshToken(b: Browser): (r: Option<string>)
    reads b
    ensures r.Some? <==> b.hasWindow && RefreshTokenKey in b.localStorage
    ensures r.Some? ==> r.value == b.localStorage[RefreshTokenKey]
  {
    if b.hasWindow then b.GetItem(RefreshTokenKey) else None
  }

  /** `tokenManager.setAccessToken(token)`: writes its own key and nothing else. */
  method SetAccessToken(b: Browser, token: string)
    modifies b
    ensures b.localStorage == if b.hasWindow then old(b.localStorage)[AccessTokenKey := token] else old(b.localStorage)
    ensures b.cookies == old(b.cookies) && b.href == old(b.href)
    ensures GetAccessToken(b) == if b.hasWindow then Some(token) else None
    ensures GetRefreshToken(b) == old(GetRefreshToken(b))
  {
    if !b.hasWindow {
      return;
    }
    b.SetItem(AccessTokenKey, token);
  }

  /** `tokenManager.setRefreshToken(token)`: writes its own key and nothing else. */
  method SetRefreshToken(b: Browser, token: string)
    modifies b
    ensures b.localStorage == if b.hasWindow then old(b.localStorage)[RefreshTokenKey := token] else old(b.localStorage)
    ensures b.cookies == old(b.cookies) && b.href == old(b.href)
    ensures GetRefreshToken(b) == if b.hasWindow then Some(token) else None
    ensures GetAccessToken(b) == old(GetAccessToken(b))
  {
    if !b.hasWindow {
      return;
    }
    b.SetItem(RefreshTokenKey, token);
  }

  /** `tokenManager.setTokens(a, r)`: afterwards the getters return `a` and `r`. */
  method SetTokens(b: Browser, accessToken: string, refreshToken: string)
    modifies b
    ensures b.localStorage == if b.hasWindow
      then old(b.localStorage)[AccessTokenKey := accessToken][RefreshTokenKey := refreshToken]
      else old(b.localStorage)
    ensures b.cookies == old(b.cookies) && b.href == old(b.href)
    ensures b.hasWindow ==> GetAccessToken(b) == Some(accessToken) && GetRefreshToken(b) == Some(refreshToken)
  {
    SetAccessToken(b, accessToken);
    SetRefreshToken(b, refreshToken);
  }

  /** The storage left after both token keys are removed. */
  function WithoutTokens(m: map<string, string>): (r: map<string, string>)
    ensures r.Keys == m.Keys - {AccessTokenKey, RefreshTokenKey}
    ensures forall k | k in r :: r[k] == m[k]
  {
    m - {AccessTokenKey, RefreshTokenKey}
  }

  /** `tokenManager.clearTokens()`: both keys are removed, so the user no
      longer counts as authenticated (when there is a window). */
  method ClearTokens(b: Browser)
    modifies b
    ensures b.localStorage == if b.hasWindow then WithoutTokens(old(b.localStorage)) else old(b.localStorage)
    ensures b.cookies == old(b.cookies) && b.href == old(b.href)
    ensures b.hasWindow ==> GetAccessToken(b) == None && GetRefreshToken(b) == None && !IsAuthenticated(b)
  {
    if !b.hasWindow {
      return;
    }
    b.RemoveItem(AccessTokenKey);
    b.RemoveItem(RefreshTokenKey);
  }

  /** Clearing twice leaves the same storage as clearing once. */
  lemma ClearTokensIdempotent(m: map<string, string>)
    ensures WithoutTokens(WithoutTokens(m)) == WithoutTokens(m)
  {
  }

  /** `tokenManager.isAuthenticated()`: both stored tokens are present and
      non-empty ("" is falsy in `!!token`). */
  predicate IsAuthenticated(b: Browser)
    reads b
    ensures IsAuthenticated(b) <==>
      b.hasWindow
      && AccessTokenKey in b.localStorage && b.localStorage[AccessTokenKey] != ""
      && RefreshTokenKey in b.localStorage && b.localStorage[RefreshTokenKey] != ""
  {
    Truthy(GetAccessToken(b)) && Truthy(GetRefreshToken(b))
  }

  /** `tokenManager.getAuthHeader()`: the RFC 6750 (section 2.1) credential
      `Bearer <token>` when a non-empty access token is stored, else null. */
  function GetAuthHeader(b: Browser): (r: Option<string>)
    reads b
    ensures r.Some? <==> b.hasWindow && AccessTokenKey in b.localStorage && b.localStorage[AccessTokenKey] != ""
    ensures r.Some? ==> StartsWith(r.value, BearerPrefix) && r.value[|BearerPrefix|..] == b.localStorage[AccessTokenKey]
  {
    var token := GetAccessToken(b);
    if Truthy(token) then Some(BearerPrefix + token.value) else None
  }
}
