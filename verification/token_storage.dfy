/** lib/services/tokenStorage.ts: tokens kept in memory first, with a
    localStorage backup under `auth_access_token` and `auth_refresh_token`.
    A getter whose memory copy is empty falls back to the backup and copies
    it into memory. The expiry checks read the JWT `exp` claim (section
    4.1.4 of RFC 7519); decoding the token is a parameter here. */
module TokenStorageService {
  import opened Js
  import opened BrowserEnv

  const AccessBackupKey := "auth_access_token"
  const RefreshBackupKey := "auth_refresh_token"
  const DefaultBufferSeconds := 30

  /** What a getter returns for a memory copy and a backup copy: the memory
      copy when it is truthy, else the backup when it is truthy, else null. */
  function Effective(memory: Option<string>, backup: Option<string>): (r: Option<string>)
    ensures r == None || Truthy(r)
    ensures Truthy(memory) ==> r == memory
    ensures r.Some? ==> r == memory || r == backup
    ensures r == None <==> !Truthy(memory) && !Truthy(backup)
  {
    if Truthy(memory) then memory else if Truthy(backup) then backup else None
  }

  /** A decoded `exp` claim is used only when it is truthy: a missing claim
      and `exp: 0` are both "no expiry information". */
  predicate HasExp(exp: Option<int>) {
    exp.Some? && exp.value != 0
  }

  /** `isAccessTokenExpired(bufferSeconds)` for the token a getter returned,
      the `exp` decoded from it and the clock reading `now` (milliseconds). */
  function ExpiredAt(token: Option<string>, exp: Option<int>, bufferSeconds: int, now: int): (r: bool)
    ensures !Truthy(token) || !HasExp(exp) ==> r
    ensures Truthy(token) && HasExp(exp) ==> (r <==> now >= exp.value * 1000 - bufferSeconds * 1000)
  {
    if !Truthy(token) then true
    else if !HasExp(exp) then true
    else now >= exp.value * 1000 - bufferSeconds * 1000
  }

  /** `getAccessTokenTimeRemaining()` for the same inputs, in milliseconds. */
  function TimeRemainingAt(token: Option<string>, exp: Option<int>, now: int): (r: int)
    ensures r >= 0
    ensures !Truthy(token) || !HasExp(exp) ==> r == 0
    ensures Truthy(token) && HasExp(exp) ==> r == if exp.value * 1000 > now then exp.value * 1000 - now else 0
  {
    if !Truthy(token) then 0
    else if !HasExp(exp) then 0
    else if exp.value * 1000 - now > 0 then exp.value * 1000 - now else 0
  }

  /** With no buffer, a token counts as expired exactly when no time remains. */
  lemma ExpiredIffNoTimeRemaining(token: Option<string>, exp: Option<int>, now: int)
    ensures ExpiredAt(token, exp, 0, now) <==> TimeRemainingAt(token, exp, now) == 0
  {
  }

  /** Once expired, a token stays expired as the clock moves on; a larger
      buffer only makes it expire earlier. */
  lemma ExpiryIsMonotonic(token: Option<string>, exp: Option<int>, b1: int, b2: int, t1: int, t2: int)
    requires b1 <= b2 && t1 <= t2
    ensures ExpiredAt(token, exp, b1, t1) ==> ExpiredAt(token, exp, b2, t2)
  {
  }

  /** Called with its default buffer of 30 seconds, the check reports a
      token expired exactly when at most 30 seconds of it remain. */
  lemma DefaultBufferIsThirtySeconds(token: Option<string>, exp: Option<int>, now: int)
    requires Truthy(token) && HasExp(exp)
    ensures ExpiredAt(token, exp, DefaultBufferSeconds, now) <==> TimeRemainingAt(token, exp, now) <= 30000
  {
  }

  class TokenStorage {
    var accessToken: Option<string>
    var refreshToken: Option<string>
    const browser: Browser

    constructor (browser: Browser)
      ensures this.browser == browser && accessToken == None && refreshToken == None
    {
      this.browser := browser;
      accessToken := None;
      refreshToken := None;
    }

    function AccessBackup(): (r: Option<string>)
      reads browser
    {
      if browser.hasWindow then browser.GetItem(AccessBackupKey) else None
    }

    function RefreshBackup(): (r: Option<string>)
      reads browser
    {
      if browser.hasWindow then browser.GetItem(RefreshBackupKey) else None
    }

    /** The value `getAccessToken()` returns in the current state. */
    function CurrentAccessToken(): Option<string>
      reads this, browser
    {
      Effective(accessToken, AccessBackup())
    }

    /** The value `getRefreshToken()` returns in the current state. */
    function CurrentRefreshToken(): Option<string>
      reads this, browser
    {
      Effective(refreshToken, RefreshBackup())
    }

    /** `setTokens(a, r)`: memory and backup both hold the new pair; a getter
        then returns each token unless it is "" (treated as absent). */
    method SetTokens(a: string, r: string)
      modifies this, browser
      ensures accessToken == Some(a) && refreshToken == Some(r)
      ensures browser.localStorage == if browser.hasWindow
        then old(browser.localStorage)[AccessBackupKey := a][RefreshBackupKey := r]
        else old(browser.localStorage)
      ensures browser.cookies == old(browser.cookies) && browser.href == old(browser.href)
      ensures CurrentAccessToken() == (if a != "" then Some(a) else None)
      ensures CurrentRefreshToken() == (if r != "" then Some(r) else None)
    {
      accessToken := Some(a);
      refreshToken := Some(r);
      if browser.hasWindow {
        browser.SetItem(AccessBackupKey, a);
        browser.SetItem(RefreshBackupKey, r);
      }
    }

    /** `getAccessToken()`: returns what `CurrentAccessToken()` said, restores
        a backup value into memory, and changes no later answer. */
    method GetAccessToken() returns (token: Option<string>)
      modifies this
      ensures token == old(CurrentAccessToken())
      ensures accessToken == (if !Truthy(old(accessToken)) && token.Some? then token else old(accessToken))
      ensures refreshToken == old(refreshToken)
      ensures CurrentAccessToken() == old(CurrentAccessToken())
    {
      if Truthy(accessToken) {
        return accessToken;
      }
      if browser.hasWindow {
        var stored := browser.GetItem(AccessBackupKey);
        if Truthy(stored) {
          accessToken := stored;
          return stored;
        }
      }
      return None;
    }

    /** `getRefreshToken()`, the same fallback for the refresh token. */
    method GetRefreshToken() returns (token: Option<string>)
      modifies this
      ensures token == old(CurrentRefreshToken())
      ensures refreshToken == (if !Truthy(old(refreshToken)) && token.Some? then token else old(refreshToken))
      ensures accessToken == old(accessToken)
      ensures CurrentRefreshToken() == old(CurrentRefreshToken())
    {
      if Truthy(refreshToken) {
        return refreshToken;
      }
      if browser.hasWindow {
        var stored := browser.GetItem(RefreshBackupKey);
        if Truthy(stored) {
          refreshToken := stored;
          return stored;
        }
      }
      return None;
    }

    /** `setAccessToken(a)`: the refresh token, in memory and in the backup,
        is untouched. */
    method SetAccessToken(a: string)
      modifies this, browser
      ensures accessToken == Some(a) && refreshToken == old(refreshToken)
      ensures browser.localStorage == if browser.hasWindow
        then old(browser.localStorage)[AccessBackupKey := a]
        else old(browser.localStorage)
      ensures browser.cookies == old(browser.cookies) && browser.href == old(browser.href)
      ensures CurrentRefreshToken() == old(CurrentRefreshToken())
      ensures CurrentAccessToken() == (if a != "" then Some(a) else None)
    {
      accessToken := Some(a);
      if browser.hasWindow {
        browser.SetItem(AccessBackupKey, a);
      }
    }

    /** `clearTokens()`: memory nulled, both backup keys removed; the state it
        leaves does not depend on the tokens held before, so a second call
        changes nothing. */
    method ClearTokens()
      modifies this, browser
      ensures accessToken == None && refreshToken == None
      ensures browser.localStorage == if browser.hasWindow
        then old(browser.localStorage) - {AccessBackupKey, RefreshBackupKey}
        else old(browser.localStorage)
      ensures browser.cookies == old(browser.cookies) && browser.href == old(browser.href)
      ensures CurrentAccessToken() == None && CurrentRefreshToken() == None
    {
      accessToken := None;
      refreshToken := None;
      if browser.hasWindow {
        browser.RemoveItem(AccessBackupKey);
        browser.RemoveItem(RefreshBackupKey);
      }
    }

    /** `hasTokens()`: both getters return non-null. */
    method HasTokens() returns (has: bool)
      modifies this
      ensures has <==> old(CurrentAccessToken()).Some? && old(CurrentRefreshToken()).Some?
      ensures CurrentAccessToken() == old(CurrentAccessToken())
      ensures CurrentRefreshToken() == old(CurrentRefreshToken())
    {
      var a := GetAccessToken();
      var r := GetRefreshToken();
      has := a != None && r != None;
    }

    /** `isAccessTokenExpired(bufferSeconds)` at clock reading `now`, with
        `decodeExp` standing for the JWT payload decoding. */
    method IsAccessTokenExpired(bufferSeconds: int, now: int, decodeExp: string -> Option<int>) returns (expired: bool)
      modifies this
      ensures var t := old(CurrentAccessToken());
        expired == ExpiredAt(t, if t.Some? then decodeExp(t.value) else None, bufferSeconds, now)
      ensures CurrentAccessToken() == old(CurrentAccessToken())
      ensures refreshToken == old(refreshToken)
    {
      var token := GetAccessToken();
      if !Truthy(token) {
        return true;
      }
      var exp := decodeExp(token.value);
      if !HasExp(exp) {
        return true;
      }
      var expiryTime := exp.value * 1000;
      var bufferTime := bufferSeconds * 1000;
      expired := now >= expiryTime - bufferTime;
    }

    /** `getAccessTokenTimeRemaining()` at clock reading `now`. */
    method GetAccessTokenTimeRemaining(now: int, decodeExp: string -> Option<int>) returns (remaining: int)
      modifies this
      ensures var t := old(CurrentAccessToken());
        remaining == TimeRemainingAt(t, if t.Some? then decodeExp(t.value) else None, now)
      ensures remaining >= 0
      ensures CurrentAccessToken() == old(CurrentAccessToken())
      ensures refreshToken == old(refreshToken)
    {
      var token := GetAccessToken();
      if !Truthy(token) {
        return 0;
      }
      var exp := decodeExp(token.value);
      if !HasExp(exp) {
        return 0;
      }
      var timeRemaining := exp.value * 1000 - now;
      remaining := if timeRemaining > 0 then timeRemaining else 0;
    }
  }

  /** After `setTokens(a, r)` with non-empty tokens, the access getter
      answers `a` and `hasTokens()` holds; after `clearTokens()` no token is
      returned and `hasTokens()` fails. */
  method SetThenClear(s: TokenStorage, a: string, r: string)
    returns (accessAfterSet: Option<string>, hasAfterSet: bool, hasAfterClear: bool)
    requires a != "" && r != ""
    modifies s, s.browser
    ensures accessAfterSet == Some(a) && hasAfterSet
    ensures !hasAfterClear
    ensures s.CurrentAccessToken() == None && s.CurrentRefreshToken() == None
  {
    s.SetTokens(a, r);
    accessAfterSet := s.GetAccessToken();
    hasAfterSet := s.HasTokens();
    s.ClearTokens();
    hasAfterClear := s.HasTokens();
  }
}
