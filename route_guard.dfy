/**
 * The request guard (src/middleware.ts).
 *
 * A request for a public page, a static asset or an OAuth callback passes
 * through untouched. Any other request is authenticated from two cookies:
 * an auth token lets it through with four security headers added; a session
 * cookie alone sends it to the token-refresh page; neither sends it to the
 * login page. Both redirects carry the original path as `redirect_uri`.
 * Anything that throws on the way (a cookie lookup, in particular) sends the
 * request to the error page.
 */
module RouteGuard {
  import opened Optional
  import Text

  const PublicPages: seq<string> := ["/", "/refresh", "/error", "/maintenance"]
  const PublicAssets: seq<string> := [".svg", ".png", ".jpg", ".jpeg", ".ico", ".webp", ".gif", ".css", ".js", ".json"]
  const AuthCookie: string := "privy-token"
  const SessionCookie: string := "privy-session"
  const OAuthParams: seq<string> := ["privy_oauth_code", "privy_oauth_state", "privy_oauth_provider"]

  const LoginPage: string := "/"
  const RefreshPage: string := "/refresh"

  /** The headers every authentication redirect carries. */
  const NoCacheHeaders: map<string, string> :=
    map["Cache-Control" := "no-store, must-revalidate", "Pragma" := "no-cache"]

  /** The headers added to an authenticated request that passes through. */
  const SecurityHeaders: map<string, string> :=
    map["X-Frame-Options" := "DENY",
        "X-Content-Type-Options" := "nosniff",
        "Referrer-Policy" := "strict-origin-when-cross-origin",
        "Permissions-Policy" := "camera=(), microphone=(), geolocation=()"]

  /** The request's cookies, or a cookie store whose lookups throw. */
  datatype CookieStore = Cookies(values: map<string, string>) | Unreadable

  /** A request: its path, its query parameters (first value of each) and its cookies. */
  datatype Request = Request(pathname: string, query: map<string, string>, cookies: CookieStore)

  /**
   * What the guard answers: pass the request on with extra headers, redirect
   * it to `target` with `redirect_uri` set, or redirect it to the error page.
   */
  datatype Outcome =
    | Next(headers: map<string, string>)
    | Redirect(target: string, redirectUri: string, headers: map<string, string>)
    | ErrorRedirect

  /** JavaScript truthiness of an optional string: absent and empty are both false. */
  predicate Truthy(v: Option<string>) {
    v.Some? && v.value != ""
  }

  function Lookup(m: map<string, string>, key: string): Option<string> {
    if key in m then Some(m[key]) else None
  }

  // ---------------------------------------------------------------------------
  // Public paths and OAuth callbacks
  // ---------------------------------------------------------------------------

  /** `exts.some(ext => s.endsWith(ext))`. */
  function EndsWithAny(s: string, exts: seq<string>): (r: bool)
    ensures r <==> exists e :: e in exts && Text.EndsWith(s, e)
  {
    if exts == [] then false
    else
      assert forall e :: e in exts <==> e == exts[0] || e in exts[1..] by {
        assert exts == [exts[0]] + exts[1..];
      }
      Text.EndsWith(s, exts[0]) || EndsWithAny(s, exts[1..])
  }

  /** Lines 56-59: an exact public page, or a path whose lower-cased form ends with an asset extension. */
  function IsPublicPath(pathname: string): (r: bool)
    ensures r <==> pathname in PublicPages || exists e :: e in PublicAssets && Text.EndsWith(Text.Lower(pathname), e)
  {
    pathname in PublicPages || EndsWithAny(Text.Lower(pathname), PublicAssets)
  }

  /** No asset extension matches a path whose last character is none of their last characters. */
  lemma NoAssetSuffix(s: string)
    requires |s| > 0 && s[|s| - 1] !in {'g', 'o', 'p', 'f', 's', 'n'}
    ensures forall e :: e in PublicAssets ==> !Text.EndsWith(s, e)
  {
    forall e | e in PublicAssets ensures !Text.EndsWith(s, e) {
      if |e| <= |s| {
        assert s[|s| - |e|..][|e| - 1] == s[|s| - 1];
      }
    }
  }

  /** The listed pages are public as they stand. */
  lemma PublicPageExamples()
    ensures IsPublicPath("/") && IsPublicPath("/maintenance")
  {
  }

  /** An application page is not public. */
  lemma DashboardIsPrivate()
    ensures !IsPublicPath("/dashboard")
  {
    var dash := Text.Lower("/dashboard");
    assert dash[|dash| - 1] == 'd';
    NoAssetSuffix(dash);
  }

  /** Public pages match exactly: a trailing slash makes the refresh page private. */
  lemma TrailingSlashIsPrivate()
    ensures !IsPublicPath("/refresh/")
  {
    var slash := Text.Lower("/refresh/");
    assert slash[|slash| - 1] == '/';
    NoAssetSuffix(slash);
  }

  /** Asset extensions match whatever the letter case of the path. */
  lemma UpperCaseAssetIsPublic()
    ensures IsPublicPath("/Logo.PNG")
  {
    var logo := Text.Lower("/Logo.PNG");
    assert logo[5..] == ".png";
    assert Text.EndsWith(logo, ".png");
  }

  /** Lines 66-72: at least one of the three OAuth parameters is present and non-empty. */
  function IsPrivyOAuth(query: map<string, string>): (r: bool)
    ensures r <==> exists name :: name in OAuthParams && Truthy(Lookup(query, name))
  {
    Truthy(Lookup(query, OAuthParams[0])) || Truthy(Lookup(query, OAuthParams[1])) || Truthy(Lookup(query, OAuthParams[2]))
  }

  // ---------------------------------------------------------------------------
  // Authentication decision
  // ---------------------------------------------------------------------------

  /** Lines 31-35: success, or failure with the page to redirect to and a reason. */
  datatype AuthResult = AuthSuccess | AuthFailure(redirectUrl: string, error: string)

  /**
   * Lines 99-124: an auth token authenticates; otherwise a session cookie
   * calls for a token refresh, and no cookie at all for a login.
   */
  function HandleAuthentication(authToken: Option<string>, sessionToken: Option<string>, pathname: string): (r: AuthResult)
    ensures r.AuthSuccess? <==> Truthy(authToken)
    ensures r.AuthFailure? ==> r.redirectUrl == (if Truthy(sessionToken) then RefreshPage else LoginPage)
  {
    var definitelyAuthenticated := Truthy(authToken);
    var maybeAuthenticated := Truthy(sessionToken);
    if !definitelyAuthenticated && maybeAuthenticated then
      AuthFailure(RefreshPage, "Token refresh required")
    else if !definitelyAuthenticated && !maybeAuthenticated then
      AuthFailure(LoginPage, "Authentication required")
    else
      AuthSuccess
  }

  /** An auth token wins whatever the session cookie holds. */
  lemma AuthTokenWins(token: string, session: Option<string>, pathname: string)
    requires token != ""
    ensures HandleAuthentication(Some(token), session, pathname) == AuthSuccess
  {
  }

  /** Lines 80-90: a redirect to `url` carrying `redirect_uri = currentPath` and no-cache headers. */
  function CreateRedirectResponse(url: string, currentPath: string): Outcome {
    Redirect(url, currentPath, NoCacheHeaders)
  }

  // ---------------------------------------------------------------------------
  // The response headers and the guard itself
  // ---------------------------------------------------------------------------

  /** The header map of a response, set in place. */
  class ResponseHeaders {
    var entries: map<string, string>

    constructor ()
      ensures entries == map[]
    {
      entries := map[];
    }

    method Set(name: string, value: string)
      modifies this
      ensures entries == old(entries)[name := value]
    {
      entries := entries[name := value];
    }
  }

  /** The four security headers, and nothing else. */
  lemma SecurityHeadersExact()
    ensures SecurityHeaders.Keys == {"X-Frame-Options", "X-Content-Type-Options", "Referrer-Policy", "Permissions-Policy"}
    ensures |SecurityHeaders| == 4
    ensures SecurityHeaders["X-Frame-Options"] == "DENY" && SecurityHeaders["X-Content-Type-Options"] == "nosniff"
    ensures SecurityHeaders["Referrer-Policy"] == "strict-origin-when-cross-origin"
    ensures SecurityHeaders["Permissions-Policy"] == "camera=(), microphone=(), geolocation=()"
  {
  }

  /**
   * Lines 129-162: the guard. Public paths and OAuth callbacks pass through
   * without a cookie being read; otherwise the cookies decide, and a cookie
   * store that throws leads to the error page.
   */
  method Middleware(req: Request) returns (out: Outcome)
    ensures IsPublicPath(req.pathname) || IsPrivyOAuth(req.query) ==> out == Next(map[])
    ensures !IsPublicPath(req.pathname) && !IsPrivyOAuth(req.query) && req.cookies.Unreadable? ==> out == ErrorRedirect
    ensures !IsPublicPath(req.pathname) && !IsPrivyOAuth(req.query) && req.cookies.Cookies? ==>
              var auth := Lookup(req.cookies.values, AuthCookie);
              var session := Lookup(req.cookies.values, SessionCookie);
              && (Truthy(auth) ==> out == Next(SecurityHeaders))
              && (!Truthy(auth) && Truthy(session) ==> out == Redirect(RefreshPage, req.pathname, NoCacheHeaders))
              && (!Truthy(auth) && !Truthy(session) ==> out == Redirect(LoginPage, req.pathname, NoCacheHeaders))
    ensures out.Redirect? ==> out.redirectUri == req.pathname && out.target in {LoginPage, RefreshPage}
  {
    var pathname := req.pathname;
    if IsPublicPath(pathname) || IsPrivyOAuth(req.query) {
      return Next(map[]);
    }
    if req.cookies.Unreadable? {
      // the cookie lookup throws and the catch block answers
      return ErrorRedirect;
    }
    var cookieAuthToken := Lookup(req.cookies.values, AuthCookie);
    var cookieSession := Lookup(req.cookies.values, SessionCookie);
    var authResult := HandleAuthentication(cookieAuthToken, cookieSession, pathname);
    if authResult.AuthFailure? {
      return CreateRedirectResponse(authResult.redirectUrl, pathname);
    }
    var response := new ResponseHeaders();
    response.Set("X-Frame-Options", "DENY");
    response.Set("X-Content-Type-Options", "nosniff");
    response.Set("Referrer-Policy", "strict-origin-when-cross-origin");
    response.Set("Permissions-Policy", "camera=(), microphone=(), geolocation=()");
    return Next(response.entries);
  }

  /** The scenarios of src/__tests__/middleware.test.ts, as a client of the guard's contract. */
  method MiddlewareScenarios() {
    var jar := Cookies(map[]);
    var home := Middleware(Request("/", map[], jar));
    assert IsPublicPath("/");
    assert home == Next(map[]);

    var oauth := Middleware(Request("/callback", map["privy_oauth_code" := "123"], Unreadable));
    assert Truthy(Lookup(map["privy_oauth_code" := "123"], OAuthParams[0]));
    assert oauth == Next(map[]);

    assert !IsPublicPath("/dashboard") by { DashboardIsPrivate(); }
    var authed := Middleware(Request("/dashboard", map[], Cookies(map[AuthCookie := "valid-token"])));
    assert authed == Next(SecurityHeaders);
    assert authed.headers["X-Frame-Options"] == "DENY";

    var refresh := Middleware(Request("/dashboard", map[], Cookies(map[SessionCookie := "valid-session"])));
    assert refresh == Redirect(RefreshPage, "/dashboard", NoCacheHeaders);

    var login := Middleware(Request("/dashboard", map[], jar));
    assert login == Redirect(LoginPage, "/dashboard", NoCacheHeaders);

    var failing := Middleware(Request("/dashboard", map[], Unreadable));
    assert failing == ErrorRedirect;
  }
}
