/** lib/utils/cookies.ts: the `userRole` cookie the route gate reads. The
    cookie jar is the browser's cookie map; the `path`, `max-age` and
    `SameSite` attributes are not modelled, except that `max-age=0` deletes
    the cookie. Without a `document` both helpers do nothing. */
module Cookies {
  import opened BrowserEnv

  const UserRoleCookie := "userRole"

  /** `setUserRoleCookie(role)`: the cookie holds `role`; nothing else changes. */
  method SetUserRoleCookie(b: Browser, role: string)
    modifies b
    ensures b.cookies == if b.hasWindow then old(b.cookies)[UserRoleCookie := role] else old(b.cookies)
    ensures b.localStorage == old(b.localStorage) && b.href == old(b.href)
  {
    if !b.hasWindow {
      return;
    }
    b.cookies := b.cookies[UserRoleCookie := role];
  }

  /** `clearUserRoleCookie()`: the cookie expires at once, so it is gone. */
  method ClearUserRoleCookie(b: Browser)
    modifies b
    ensures b.cookies == if b.hasWindow then old(b.cookies) - {UserRoleCookie} else old(b.cookies)
    ensures b.hasWindow ==> UserRoleCookie !in b.cookies
    ensures b.localStorage == old(b.localStorage) && b.href == old(b.href)
  {
    if !b.hasWindow {
      return;
    }
    b.cookies := b.cookies - {UserRoleCookie};
  }
}
