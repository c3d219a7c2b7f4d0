// The route guard of src/middleware.js: a request for the chat page without a
// `session` cookie is redirected to the home page. Only presence is checked;
// the credential is not verified here.
module Middleware {
  import opened Wrappers
  import opened Text
  import opened Cookies

  const ProtectedPrefix := "/chat"
  const LoginPage := "/"

  datatype Decision = Redirect(location: string) | Pass

  /**
   * `middleware(req)`, given the request's cookies by name. It redirects, and then
   * always to "/", exactly when the cookie named `session` is missing or empty and
   * the path starts with "/chat".
   */
  function Guard(pathname: string, cookies: map<string, string>): (d: Decision)
    ensures d.Redirect? <==>
      !(SessionCookieName in cookies && cookies[SessionCookieName] != "") && StartsWith(pathname, ProtectedPrefix)
    ensures d.Redirect? ==> d.location == LoginPage
  {
    if !Present(SessionOf(cookies)) && StartsWith(pathname, ProtectedPrefix) then Redirect(LoginPage) else Pass
  }

  /** `config.matcher = ["/chat"]`: the guard runs on the chat page itself. */
  predicate Matched(pathname: string) {
    pathname == ProtectedPrefix
  }

  /**
   * What the framework does with a request: unmatched paths never reach the guard, so
   * only the exact path "/chat" without a non-empty `session` cookie is redirected.
   */
  function Route(pathname: string, cookies: map<string, string>): (d: Decision)
    ensures d.Redirect? <==>
      pathname == ProtectedPrefix && !(SessionCookieName in cookies && cookies[SessionCookieName] != "")
  {
    if Matched(pathname) then Guard(pathname, cookies) else Pass
  }

  /** A non-empty `session` cookie passes on every path, whatever its value. */
  lemma CookiePresencePasses(pathname: string, cookies: map<string, string>)
    requires SessionCookieName in cookies && cookies[SessionCookieName] != ""
    ensures Guard(pathname, cookies) == Pass
  {
  }

  /** Only the cookie named `session` is read: adding or changing any other cookie changes nothing. */
  lemma OnlySessionCookieMatters(pathname: string, cookies: map<string, string>, name: string, value: string)
    requires name != SessionCookieName
    ensures Guard(pathname, cookies[name := value]) == Guard(pathname, cookies)
  {
  }

  /** Paths outside "/chat" pass even without a cookie. */
  lemma OtherPathsPass(pathname: string, cookies: map<string, string>)
    requires !StartsWith(pathname, ProtectedPrefix)
    ensures Guard(pathname, cookies) == Pass
  {
  }
}
