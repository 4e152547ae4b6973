/** The browser environment the client writes to, as plain state: whether
    `window` and `document` exist (they do not while Next.js renders on the
    server), the `localStorage` key/value store, the cookie jar behind
    `document.cookie`, and `window.location.href`. */
module BrowserEnv {
  import opened Js

  const LoginPage := "/auth/login"

  class Browser {
    const hasWindow: bool
    var localStorage: map<string, string>
    var cookies: map<string, string>
    var href: string

    constructor (hasWindow: bool, localStorage: map<string, string>, cookies: map<string, string>, href: string)
      ensures this.hasWindow == hasWindow && this.localStorage == localStorage
      ensures this.cookies == cookies && this.href == href
    {
      this.hasWindow := hasWindow;
      this.localStorage := localStorage;
      this.cookies := cookies;
      this.href := href;
    }

    /** `localStorage.getItem(key)`: null when the key is absent. */
    function GetItem(key: string): (r: Option<string>)
      reads this
      ensures r.Some? <==> key in localStorage
      ensures r.Some? ==> r.value == localStorage[key]
    {
      if key in localStorage then Some(localStorage[key]) else None
    }

    /** `localStorage.setItem(key, value)`; there is no `localStorage` without a window. */
    method SetItem(key: string, value: string)
      requires hasWindow
      modifies this
      ensures localStorage == old(localStorage)[key := value]
      ensures cookies == old(cookies) && href == old(href)
    {
      localStorage := localStorage[key := value];
    }

    /** `localStorage.removeItem(key)`; removing an absent key is a no-op. */
    method RemoveItem(key: string)
      requires hasWindow
      modifies this
      ensures localStorage == old(localStorage) - {key}
      ensures cookies == old(cookies) && href == old(href)
    {
      localStorage := localStorage - {key};
    }
  }
}
