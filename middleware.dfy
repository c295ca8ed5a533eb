/** The edge session gate: for every request path and cookie jar it decides
    to let the request through, to send an anonymous visitor to the login
    page, or to send a signed-in visitor away from the login, register and
    password-recovery pages. Redirect targets are modelled as a path plus
    query parameters; the host of the request is left out. */
module Middleware {

  const AUTH_COOKIE := "auth_token"

  /** Pages that need no session. */
  const PUBLIC_ROUTES: seq<string> := ["/", "/login", "/register", "/forgot-password", "/auth/callback", "/auth/error"]

  /** Pages meant only for visitors without a session. */
  const AUTH_PAGES: seq<string> := ["/login", "/register", "/forgot-password"]

  /** The alternatives of the image-extension pattern, each after its dot. */
  const IMAGE_SUFFIXES: seq<string> := [".png", ".jpg", ".jpeg", ".gif", ".webp", ".svg", ".ico"]

  datatype Request = Request(pathname: string, cookies: map<string, string>)

  /** A redirect target: a path and its query parameters, in order. */
  datatype Url = Url(path: string, query: seq<(string, string)>)

  datatype Decision = Next | Redirect(to: Url)

  /** Where an anonymous visitor is sent: `/login`, carrying the requested
      path in `from`. The target is itself a public route. */
  function LoginUrl(from: string): (u: Url)
    ensures u.path == "/login" && u.query == [("from", from)]
    ensures IsPublicRoute(u.path)
  {
    Url("/login", [("from", from)])
  }

  /** Where a visitor with a session is sent away from the auth pages. The
      target is not an auth page, and it is a private route. */
  function DashboardUrl(): (u: Url)
    ensures u.path == "/dashboard" && u.query == []
    ensures !IsAuthPage(u.path) && !IsPublicRoute(u.path)
  {
    DiffersAt("/dashboard", "/auth/", 1);
    Url("/dashboard", [])
  }

  predicate StartsWith(s: string, prefix: string)
  {
    prefix <= s
  }

  predicate EndsWith(s: string, suffix: string)
  {
    |suffix| <= |s| && s[|s| - |suffix|..] == suffix
  }

  function IsPublicRoute(pathname: string): (r: bool)
    ensures r <==> || pathname == "/" || pathname == "/login" || pathname == "/register"
                   || pathname == "/forgot-password" || pathname == "/auth/callback"
                   || pathname == "/auth/error" || StartsWith(pathname, "/auth/")
  {
    if pathname in PUBLIC_ROUTES then true
    else if StartsWith(pathname, "/auth/") then true
    else false
  }

  function IsAuthPage(pathname: string): (r: bool)
    ensures r <==> pathname == "/login" || pathname == "/register" || pathname == "/forgot-password"
  {
    pathname in AUTH_PAGES
  }

  /** `pathname` ends with a dot and one of the image extensions: the
      end-anchored, case-sensitive pattern `\.(png|jpg|jpeg|gif|webp|svg|ico)$`. */
  function HasImageExtension(pathname: string): (r: bool)
    ensures r <==> exists suffix {:trigger EndsWith(pathname, suffix)} :: suffix in IMAGE_SUFFIXES && EndsWith(pathname, suffix)
  {
    var r :=
      || EndsWith(pathname, ".png") || EndsWith(pathname, ".jpg") || EndsWith(pathname, ".jpeg")
      || EndsWith(pathname, ".gif") || EndsWith(pathname, ".webp") || EndsWith(pathname, ".svg")
      || EndsWith(pathname, ".ico");
    assert r ==> exists suffix {:trigger EndsWith(pathname, suffix)} :: suffix in IMAGE_SUFFIXES && EndsWith(pathname, suffix);
    assert (exists suffix {:trigger EndsWith(pathname, suffix)} :: suffix in IMAGE_SUFFIXES && EndsWith(pathname, suffix)) ==> r by {
      forall suffix | suffix in IMAGE_SUFFIXES && EndsWith(pathname, suffix) ensures r {
        assert suffix == IMAGE_SUFFIXES[0] || suffix == IMAGE_SUFFIXES[1] || suffix == IMAGE_SUFFIXES[2]
          || suffix == IMAGE_SUFFIXES[3] || suffix == IMAGE_SUFFIXES[4] || suffix == IMAGE_SUFFIXES[5]
          || suffix == IMAGE_SUFFIXES[6];
      }
    }
    r
  }

  lemma DiffersAtEnd(s: string, suffix: string)
    requires 0 < |suffix| <= |s| && s[|s| - 1] != suffix[|suffix| - 1]
    ensures !EndsWith(s, suffix)
  {
    assert s[|s| - |suffix|..][|suffix| - 1] == s[|s| - 1];
  }

  lemma DiffersAt(s: string, prefix: string, i: nat)
    requires i < |prefix| && i < |s| && s[i] != prefix[i]
    ensures !StartsWith(s, prefix)
  {
  }

  /** A path that differs from each technical prefix in its second or third
      character and whose last character is none of `g`, `f`, `p`, `o` is
      not a technical path. */
  lemma NotTechnical(pathname: string)
    requires |pathname| >= 5
    requires pathname[1] != 'a' && pathname[1] != '_' && (pathname[1] != 'f' || pathname[2] != 'a')
    requires pathname[|pathname| - 1] !in {'g', 'f', 'p', 'o'}
    ensures !IsTechnicalPath(pathname)
  {
    DiffersAt(pathname, "/api", 1);
    DiffersAt(pathname, "/_next", 1);
    if pathname[1] == 'f' {
      DiffersAt(pathname, "/favicon.ico", 2);
    } else {
      DiffersAt(pathname, "/favicon.ico", 1);
    }
    DiffersAtEnd(pathname, ".png");
    DiffersAtEnd(pathname, ".jpg");
    DiffersAtEnd(pathname, ".jpeg");
    DiffersAtEnd(pathname, ".gif");
    DiffersAtEnd(pathname, ".webp");
    DiffersAtEnd(pathname, ".svg");
    DiffersAtEnd(pathname, ".ico");
  }

  /** Framework, API and static-asset paths, which the gate never touches. */
  function IsTechnicalPath(pathname: string): (r: bool)
    ensures r <==> || StartsWith(pathname, "/api") || StartsWith(pathname, "/_next")
                   || StartsWith(pathname, "/favicon.ico")
                   || EndsWith(pathname, ".png") || EndsWith(pathname, ".jpg") || EndsWith(pathname, ".jpeg")
                   || EndsWith(pathname, ".gif") || EndsWith(pathname, ".webp") || EndsWith(pathname, ".svg")
                   || EndsWith(pathname, ".ico")
  {
    StartsWith(pathname, "/api") || StartsWith(pathname, "/_next")
    || StartsWith(pathname, "/favicon.ico") || HasImageExtension(pathname)
  }

  /** A session is present when the cookie is set to a non-empty value. */
  function IsLoggedIn(cookies: map<string, string>): (r: bool)
    ensures r <==> AUTH_COOKIE in cookies && cookies[AUTH_COOKIE] != ""
  {
    var token := if AUTH_COOKIE in cookies then cookies[AUTH_COOKIE] else "";
    |token| > 0
  }

  /** The gate's decision for one request. */
  function Decide(request: Request): (d: Decision)
    ensures d.Redirect? ==> !IsTechnicalPath(request.pathname)
    ensures d.Redirect? && !IsLoggedIn(request.cookies) ==> d.to == LoginUrl(request.pathname)
    ensures d.Redirect? && IsLoggedIn(request.cookies) ==> d.to == DashboardUrl()
  {
    var pathname := request.pathname;
    if IsTechnicalPath(pathname) then Next
    else
      var isLoggedIn := IsLoggedIn(request.cookies);
      if !isLoggedIn && !IsPublicRoute(pathname) then Redirect(LoginUrl(pathname))
      else if isLoggedIn && IsAuthPage(pathname) then Redirect(DashboardUrl())
      else Next
  }

  // ---------------------------------------------------------------------
  // The decision table, stated independently of the code's early returns

  datatype PathKind = Technical | AuthPage | OtherPublic | Private

  function Classify(pathname: string): PathKind
  {
    if IsTechnicalPath(pathname) then Technical
    else if pathname in {"/login", "/register", "/forgot-password"} then AuthPage
    else if pathname in {"/", "/auth/callback", "/auth/error"} || StartsWith(pathname, "/auth/") then OtherPublic
    else Private
  }

  function Table(kind: PathKind, loggedIn: bool, pathname: string): Decision
  {
    match (kind, loggedIn)
    case (Technical, _) => Next
    case (Private, false) => Redirect(LoginUrl(pathname))
    case (AuthPage, true) => Redirect(DashboardUrl())
    case _ => Next
  }

  lemma DecideFollowsTable(request: Request)
    ensures Decide(request) == Table(Classify(request.pathname), IsLoggedIn(request.cookies), request.pathname)
  {
  }

  // ---------------------------------------------------------------------
  // Properties of the gate

  lemma TechnicalPathsPassThrough(pathname: string, cookies: map<string, string>)
    requires IsTechnicalPath(pathname)
    ensures Decide(Request(pathname, cookies)) == Next
  {
  }

  lemma AnonymousPrivateGoesToLogin(pathname: string, cookies: map<string, string>)
    requires !IsTechnicalPath(pathname) && !IsPublicRoute(pathname) && !IsLoggedIn(cookies)
    ensures Decide(Request(pathname, cookies)) == Redirect(Url("/login", [("from", pathname)]))
  {
  }

  lemma SignedInAuthPageGoesToDashboard(pathname: string, cookies: map<string, string>)
    requires pathname in AUTH_PAGES && IsLoggedIn(cookies)
    ensures Decide(Request(pathname, cookies)) == Redirect(Url("/dashboard", []))
  {
    if pathname == "/login" {
      NotTechnical("/login");
    } else if pathname == "/register" {
      NotTechnical("/register");
    } else {
      NotTechnical("/forgot-password");
    }
  }

  /** Every other combination passes through. */
  lemma OtherwisePassThrough(pathname: string, cookies: map<string, string>)
    requires !(!IsTechnicalPath(pathname) && !IsLoggedIn(cookies) && !IsPublicRoute(pathname))
    requires !(!IsTechnicalPath(pathname) && IsLoggedIn(cookies) && IsAuthPage(pathname))
    ensures Decide(Request(pathname, cookies)) == Next
  {
  }

  /** An empty cookie value counts as no session at all. */
  lemma EmptyCookieIsAnonymous(pathname: string, cookies: map<string, string>)
    ensures Decide(Request(pathname, cookies[AUTH_COOKIE := ""])) == Decide(Request(pathname, cookies - {AUTH_COOKIE}))
  {
  }

  /** Every auth page is a public route, so anonymous visitors reach every
      auth page. */
  lemma AuthPagesArePublic(pathname: string, cookies: map<string, string>)
    requires IsAuthPage(pathname)
    ensures IsPublicRoute(pathname)
    ensures !IsLoggedIn(cookies) ==> Decide(Request(pathname, cookies)) == Next
  {
  }

  /** The two listed `/auth/...` routes are already covered by the prefix. */
  lemma AuthRoutesCoveredByPrefix(pathname: string)
    requires pathname in PUBLIC_ROUTES && !(pathname in AUTH_PAGES) && pathname != "/"
    ensures StartsWith(pathname, "/auth/")
  {
  }

  /** No redirect loop: requesting the redirect target with the same cookies
      passes through. */
  lemma NoRedirectLoop(request: Request)
    requires Decide(request).Redirect?
    ensures Decide(Request(Decide(request).to.path, request.cookies)) == Next
  {
    if IsLoggedIn(request.cookies) {
      DashboardPassesWithSession(request.cookies);
    } else {
      LoginPassesWithoutSession(request.cookies);
    }
  }

  lemma LoginPassesWithoutSession(cookies: map<string, string>)
    requires !IsLoggedIn(cookies)
    ensures Decide(Request(LoginUrl("").path, cookies)) == Next
  {
    NotTechnical("/login");
  }

  lemma DashboardPassesWithSession(cookies: map<string, string>)
    requires IsLoggedIn(cookies)
    ensures Decide(Request(DashboardUrl().path, cookies)) == Next
  {
    NotTechnical("/dashboard");
  }

  /** The examples: a private page without a session, the login page with
      one, and the home page without one. */
  lemma Examples()
    ensures Decide(Request("/dashboard", map[])) == Redirect(Url("/login", [("from", "/dashboard")]))
    ensures Decide(Request("/login", map["auth_token" := "abc"])) == Redirect(Url("/dashboard", []))
    ensures Decide(Request("/", map[])) == Next
  {
    NotTechnical("/dashboard");
    DiffersAt("/dashboard", "/auth/", 1);
    assert Decide(Request("/dashboard", map[])) == Redirect(LoginUrl("/dashboard"));
    NotTechnical("/login");
    assert IsLoggedIn(map[AUTH_COOKIE := "abc"]) && IsAuthPage("/login");
    assert Decide(Request("/login", map[AUTH_COOKIE := "abc"])) == Redirect(DashboardUrl());
    assert IsPublicRoute("/") && !IsLoggedIn(map[]);
  }

  /** A private page that carries an image extension bypasses the gate,
      and the `/api` test is a plain prefix test. */
  lemma TechnicalPrefixAndSuffixAreLiteral()
    ensures Decide(Request("/dashboard/logo.png", map[])) == Next
    ensures Decide(Request("/apiary", map[])) == Next
    ensures Decide(Request("/dashboard.PNG", map[])).Redirect?
  {
    var asset := "/dashboard/logo.png";
    assert asset[|asset| - 4..] == ".png";
    var api := "/apiary";
    assert api[..4] == "/api";
    NotTechnical("/dashboard.PNG");
  }
}
