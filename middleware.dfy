/**
 * The route guard of apps/web/src/middleware.ts: a decision over the request path and the
 * request cookies. The landing page and the auth API always pass; the builder and the chat
 * and session APIs send a visitor without a session token to the login page; a signed-in
 * user asking for the login page is sent to the builder; everything else passes.
 */
module RouteGuard {
  import opened Wrappers

  const SECURE_SESSION_COOKIE := "__Secure-authjs.session-token"
  const SESSION_COOKIE := "authjs.session-token"

  /** `NextResponse.next()` or `NextResponse.redirect` to a path. */
  datatype Decision = Next | Redirect(location: string)

  /** `s.startsWith(prefix)`. */
  predicate StartsWith(s: string, prefix: string) {
    |prefix| <= |s| && s[..|prefix|] == prefix
  }

  /** `req.cookies.get(name)?.value`. */
  function CookieValue(cookies: map<string, string>, name: string): Option<string> {
    if name in cookies then Some(cookies[name]) else None
  }

  /** The token: the secure cookie's value when it is a non-empty string, otherwise whatever
      the plain cookie holds (`a || b`). */
  function Token(cookies: map<string, string>): Option<string> {
    var secure := CookieValue(cookies, SECURE_SESSION_COOKIE);
    if secure.Some? && secure.value != "" then secure else CookieValue(cookies, SESSION_COOKIE)
  }

  /** `!!token`. */
  function LoggedIn(cookies: map<string, string>): (b: bool)
    ensures b <==> (SECURE_SESSION_COOKIE in cookies && cookies[SECURE_SESSION_COOKIE] != "")
                   || (SESSION_COOKIE in cookies && cookies[SESSION_COOKIE] != "")
  {
    Token(cookies).Some? && Token(cookies).value != ""
  }

  predicate IsProtected(pathname: string) {
    StartsWith(pathname, "/builder") || StartsWith(pathname, "/api/chat") || StartsWith(pathname, "/api/sessions")
  }

  /** The paths that are never redirected. */
  predicate AlwaysOpen(pathname: string) {
    StartsWith(pathname, "/api/auth") || pathname == "/"
  }

  function Middleware(pathname: string, cookies: map<string, string>): (d: Decision)
    ensures AlwaysOpen(pathname) ==> d == Next
    ensures d == Redirect("/login") <==> IsProtected(pathname) && !LoggedIn(cookies)
    ensures d == Redirect("/builder") <==> pathname == "/login" && LoggedIn(cookies)
    ensures d == Next || d == Redirect("/login") || d == Redirect("/builder")
  {
    ProtectedIsNotOpen(pathname);
    if AlwaysOpen(pathname) then
      Next
    else if IsProtected(pathname) && !LoggedIn(cookies) then
      Redirect("/login")
    else if LoggedIn(cookies) && pathname == "/login" then
      Redirect("/builder")
    else
      Next
  }

  /** No protected path is one of the open ones, and the login page is neither. */
  lemma ProtectedIsNotOpen(pathname: string)
    ensures IsProtected(pathname) ==> !AlwaysOpen(pathname)
    ensures !IsProtected("/login") && !AlwaysOpen("/login")
  {
    if StartsWith(pathname, "/api/auth") {
      assert pathname[..9][1] == 'a' && pathname[..9][5] == 'a';
    }
    assert "/login"[..2] == "/l";
  }

  /** Protection is a raw prefix test: `/builderX` and `/api/chatty` are guarded like the
      builder itself, while `/build` is not. */
  lemma PrefixGuardsLookalikes(cookies: map<string, string>)
    requires !LoggedIn(cookies)
    ensures Middleware("/builderX", cookies) == Redirect("/login")
    ensures Middleware("/api/chatty", cookies) == Redirect("/login")
    ensures Middleware("/build", cookies) == Next
  {
    assert "/builderX"[..8] == "/builder";
    assert "/api/chatty"[..9] == "/api/chat";
  }

  /** An empty secure cookie does not hide a non-empty plain one, and empty values never log
      anyone in. */
  lemma EmptyTokensDoNotCount()
    ensures LoggedIn(map[SECURE_SESSION_COOKIE := "", SESSION_COOKIE := "t"])
    ensures !LoggedIn(map[SECURE_SESSION_COOKIE := "", SESSION_COOKIE := ""])
    ensures Middleware("/login", map[SESSION_COOKIE := ""]) == Next
  {
  }
}
