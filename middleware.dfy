/** The request router of the multi-tenant app (middleware.ts): one total
    function from an inbound request to a routing outcome. The host is
    normalised (local development suffix, preview deployments), the path is
    composed from the pathname and the query, and an ordered chain of host and
    path tests decides between an internal rewrite and a client redirect. */
module Middleware {
  import opened Js
  import opened JsString

  /** The local development host suffix, replaced by the root domain. */
  const DEV_SUFFIX := ".localhost:3000"
  /** The bare local development host, served like the root domain. */
  const DEV_HOST := "localhost:3000"
  /** The marker that preview deployment host names carry. */
  const PREVIEW_MARKER := "---"
  /** The reserved marketing host and the fixed page it is sent to. */
  const MARKETING_HOST := "vercel.pub"
  const MARKETING_URL := "https://vercel.com/blog/platforms-starter-kit"

  /** The two configuration strings the router reads from its environment. */
  datatype Config = Config(rootDomain: string, deploymentSuffix: string)

  /** An inbound request: the Host header, the URL's pathname, its query
      string without the leading `?`, and whether a session token came with it. */
  datatype Request = Request(host: string, pathname: string, query: string, hasSession: bool)

  /** An internal rewrite (the address bar keeps the public URL) or a redirect
      (the browser is sent elsewhere). */
  datatype Outcome = Rewrite(path: string) | Redirect(target: string)

  /** The reserved host of the application itself. */
  function AppHost(cfg: Config): string
  {
    "app." + cfg.rootDomain
  }

  /** The host with the first ".localhost:3000" replaced by "." + root
      domain; a host without that suffix is kept. */
  function DevNormalised(host: string, cfg: Config): (r: string)
    ensures Includes(host, DEV_SUFFIX) ==>
      var i := IndexOf(host, DEV_SUFFIX).value;
      r == host[..i] + "." + cfg.rootDomain + host[i + |DEV_SUFFIX|..]
    ensures !Includes(host, DEV_SUFFIX) ==> r == host
  {
    Replace(host, DEV_SUFFIX, "." + cfg.rootDomain)
  }

  /** A preview deployment host (one that contains "---" and ends with "."
      + deployment suffix) collapses to the text before its first "---"
      followed by "." + root domain; every other host is kept. */
  function CollapsePreview(h: string, cfg: Config): (r: string)
    ensures Includes(h, PREVIEW_MARKER) && EndsWith(h, "." + cfg.deploymentSuffix) ==>
      r == h[..IndexOf(h, PREVIEW_MARKER).value] + "." + cfg.rootDomain
    ensures !(Includes(h, PREVIEW_MARKER) && EndsWith(h, "." + cfg.deploymentSuffix)) ==> r == h
  {
    if Includes(h, PREVIEW_MARKER) && EndsWith(h, "." + cfg.deploymentSuffix)
    then SplitHead(h, PREVIEW_MARKER) + "." + cfg.rootDomain
    else h
  }

  /** The host name the router classifies: a host with neither the local
      development suffix nor the preview marker is classified as it is. */
  function Hostname(host: string, cfg: Config): (r: string)
    ensures !Includes(host, DEV_SUFFIX) && !Includes(host, PREVIEW_MARKER) ==> r == host
  {
    CollapsePreview(DevNormalised(host, cfg), cfg)
  }

  /** `url.search`: "?" + query when there is a query, "" otherwise. */
  function Search(query: string): (s: string)
    ensures s == "" <==> query == ""
    ensures s != "" ==> s[0] == '?' && s[1..] == query
  {
    if |query| > 0 then "?" + query else ""
  }

  /** The path the rules test: the pathname followed by the search part. */
  function RequestPath(pathname: string, query: string): (path: string)
    ensures StartsWith(path, pathname)
    ensures query == "" ==> path == pathname
  {
    pathname + Search(query)
  }

  /** The rewrite of a path under a folder; the bare "/" maps to the folder
      itself, not to the folder followed by "/". */
  function UnderFolder(folder: string, path: string): (r: string)
    ensures StartsWith(r, folder)
    ensures path == "/" ==> r == folder
  {
    folder + (if path == "/" then "" else path)
  }

  /** The rules for the application host, in the order the source applies them. */
  function AppRoute(path: string, query: string, hasSession: bool): (r: Outcome)
    ensures r.Redirect? ==> r.target == "/login" || r.target == "/"
    ensures r.Rewrite? ==> StartsWith(r.path, "/app")
  {
    if StartsWith(path, "/verify") then Rewrite("/app/verify" + Search(query))
    else if !hasSession && path != "/login" then
      if StartsWith(query, "error") then Rewrite("/app/login" + Search(query))
      else if StartsWith(path, "/signup") then Rewrite("/app/signup")
      else Redirect("/login")
    else if hasSession && path == "/login" then Redirect("/")
    else if !hasSession && path == "/signup" then Redirect("/app/signup")
    else Rewrite(UnderFolder("/app", path))
  }

  /** The router: normalise the host, compose the path, then the application
      host's rules, the marketing host, the root domain, and every other host
      as a tenant. */
  function Route(req: Request, cfg: Config): (r: Outcome)
    ensures r.Redirect? ==> r.target in {"/login", "/", MARKETING_URL}
  {
    var hostname := Hostname(req.host, cfg);
    var path := RequestPath(req.pathname, req.query);
    if hostname == AppHost(cfg) then AppRoute(path, req.query, req.hasSession)
    else if hostname == MARKETING_HOST then Redirect(MARKETING_URL)
    else if hostname == DEV_HOST || hostname == cfg.rootDomain then Rewrite(UnderFolder("/home", path))
    else Rewrite("/" + hostname + path)
  }

  // ---------------------------------------------------------------------
  // The matcher: which pathnames the router sees at all.

  predicate IsWordChar(c: char)
  {
    'a' <= c <= 'z' || 'A' <= c <= 'Z' || '0' <= c <= '9' || c == '_'
  }

  predicate IsWordOrHyphen(c: char)
  {
    IsWordChar(c) || c == '-'
  }

  /** The length of the longest prefix of `s` made of word characters and hyphens. */
  function LeadingRun(s: string): (n: nat)
    decreases |s|
    ensures n <= |s|
    ensures forall i :: 0 <= i < n ==> IsWordOrHyphen(s[i])
    ensures n < |s| ==> !IsWordOrHyphen(s[n])
  {
    if s != [] && IsWordOrHyphen(s[0]) then 1 + LeadingRun(s[1..]) else 0
  }

  /** `s` begins like a file name: the lookahead alternative `[\w-]+\.\w+`. */
  predicate LooksLikeFile(s: string)
  {
    var n := LeadingRun(s);
    0 < n && n + 1 < |s| && s[n] == '.' && IsWordChar(s[n + 1])
  }

  /** The regular expression reading of `[\w-]+\.\w+` at the start of `s`:
      some non-empty run of word characters and hyphens, a dot, a word character. */
  predicate FileNamePrefixAt(s: string, k: nat)
  {
    && 0 < k && k + 1 < |s|
    && (forall i :: 0 <= i < k ==> IsWordOrHyphen(s[i]))
    && s[k] == '.' && IsWordChar(s[k + 1])
  }

  /** The run-based test agrees with the regular expression: since a dot is
      not in `[\w-]`, the only candidate split is the end of the longest run. */
  lemma LooksLikeFileIff(s: string)
    ensures LooksLikeFile(s) <==> exists k: nat :: FileNamePrefixAt(s, k)
  {
    var n := LeadingRun(s);
    if k: nat :| FileNamePrefixAt(s, k) {
      assert k == n;
    }
    if LooksLikeFile(s) {
      assert FileNamePrefixAt(s, n);
    }
  }

  /** The matcher `/((?!api/|_next/|_static/|_vercel|[\w-]+\.\w+).*)`: a path
      that starts with "/" and whose remainder begins with none of the excluded
      prefixes and does not look like a file in the public folder. */
  predicate MatcherAccepts(pathname: string): (b: bool)
    ensures b <==>
      && StartsWith(pathname, "/")
      && var rest := pathname[1..];
      && !StartsWith(rest, "api/")
      && !StartsWith(rest, "_next/")
      && !StartsWith(rest, "_static/")
      && !StartsWith(rest, "_vercel")
      && !exists k: nat :: FileNamePrefixAt(rest, k)
  {
    if !StartsWith(pathname, "/") then false
    else
      var rest := pathname[1..];
      LooksLikeFileIff(rest);
      && !StartsWith(rest, "api/")
      && !StartsWith(rest, "_next/")
      && !StartsWith(rest, "_static/")
      && !StartsWith(rest, "_vercel")
      && !LooksLikeFile(rest)
  }

  /** The middleware as deployed: None when the matcher skips the request
      (it is served untouched): API routes, Next.js internals, static assets,
      Vercel internals and files at the root of the public folder. Every
      other path gets the router's outcome. */
  function Middleware(req: Request, cfg: Config): (r: Option<Outcome>)
    ensures !StartsWith(req.pathname, "/") ==> r.None?
    ensures StartsWith(req.pathname, "/") ==>
      var rest := req.pathname[1..];
      var skipped := StartsWith(rest, "api/") || StartsWith(rest, "_next/") || StartsWith(rest, "_static/")
        || StartsWith(rest, "_vercel") || exists k: nat :: FileNamePrefixAt(rest, k);
      (skipped ==> r.None?) && (!skipped ==> r == Some(Route(req, cfg)))
  {
    if MatcherAccepts(req.pathname) then Some(Route(req, cfg)) else None
  }

  // ---------------------------------------------------------------------
  // The path: how tests on the composed path relate to the pathname.

  /** A prefix test on the composed path is a prefix test on the pathname,
      for any literal without "?" (the search part starts with "?"). */
  lemma PathStartsWith(pathname: string, query: string, lit: string)
    requires forall i :: 0 <= i < |lit| ==> lit[i] != '?'
    ensures StartsWith(RequestPath(pathname, query), lit) <==> StartsWith(pathname, lit)
  {
    var path := RequestPath(pathname, query);
    if StartsWith(path, lit) {
      if |lit| <= |pathname| {
        assert path[..|lit|] == pathname[..|lit|];
      } else {
        assert false;
      }
    }
    if StartsWith(pathname, lit) {
      assert path[..|lit|] == pathname[..|lit|];
    }
  }

  /** The composed path equals a literal without "?" exactly when the pathname
      does and the query is empty. */
  lemma PathEquals(pathname: string, query: string, lit: string)
    requires forall i :: 0 <= i < |lit| ==> lit[i] != '?'
    ensures RequestPath(pathname, query) == lit <==> pathname == lit && query == ""
  {
    var path := RequestPath(pathname, query);
    if path == lit && query != "" {
      assert false;
    }
  }

  // ---------------------------------------------------------------------
  // The host: normalisation.

  /** A host made only of its own name followed by the local development
      suffix loses that suffix for "." + root domain. */
  lemma DevSuffixReplaced(name: string, cfg: Config)
    requires forall j: nat :: j < |name| ==> !OccursAt(name + DEV_SUFFIX, DEV_SUFFIX, j)
    ensures DevNormalised(name + DEV_SUFFIX, cfg) == name + "." + cfg.rootDomain
  {
    var h := name + DEV_SUFFIX;
    assert h[|name|..|name| + |DEV_SUFFIX|] == DEV_SUFFIX;
    FirstOccurrenceAt(h, DEV_SUFFIX, |name|);
    assert h[|name| + |DEV_SUFFIX|..] == [];
  }

  /** A local development tenant host routes like the same tenant under the
      root domain, whatever the path, query and session. */
  lemma DevHostRoutesLikeProduction(name: string, req: Request, cfg: Config)
    requires forall j: nat :: j < |name| ==> !OccursAt(name + DEV_SUFFIX, DEV_SUFFIX, j)
    requires !Includes(name + "." + cfg.rootDomain, DEV_SUFFIX)
    ensures Route(req.(host := name + DEV_SUFFIX), cfg) == Route(req.(host := name + "." + cfg.rootDomain), cfg)
  {
    DevSuffixReplaced(name, cfg);
  }

  /** A preview deployment host `prefix---hash.suffix` collapses to
      `prefix.rootDomain`, when the first "---" is the one after the prefix
      and the host carries no local development suffix. */
  lemma PreviewHostCollapses(prefix: string, hash: string, cfg: Config)
    requires forall j: nat :: j < |prefix| ==> !OccursAt(prefix + PREVIEW_MARKER, PREVIEW_MARKER, j)
    requires !Includes(prefix + PREVIEW_MARKER + hash + "." + cfg.deploymentSuffix, DEV_SUFFIX)
    ensures Hostname(prefix + PREVIEW_MARKER + hash + "." + cfg.deploymentSuffix, cfg) == prefix + "." + cfg.rootDomain
  {
    var tail := hash + "." + cfg.deploymentSuffix;
    var h := prefix + PREVIEW_MARKER + hash + "." + cfg.deploymentSuffix;
    assert h == prefix + PREVIEW_MARKER + tail;
    assert h[|prefix|..|prefix| + 3] == PREVIEW_MARKER;
    assert h[..|prefix| + 3] == prefix + PREVIEW_MARKER;
    forall j: nat | j < |prefix| ensures !OccursAt(h, PREVIEW_MARKER, j) {
      assert !OccursAt(prefix + PREVIEW_MARKER, PREVIEW_MARKER, j);
      assert h[j..j + 3] == h[..|prefix| + 3][j..j + 3];
    }
    FirstOccurrenceAt(h, PREVIEW_MARKER, |prefix|);
    assert EndsWith(h, "." + cfg.deploymentSuffix);
    assert SplitHead(h, PREVIEW_MARKER) == h[..|prefix|] == prefix;
  }

  /** A preview deployment host routes like the tenant host it collapses to. */
  lemma PreviewHostRoutesLikeProduction(prefix: string, hash: string, req: Request, cfg: Config)
    requires forall j: nat :: j < |prefix| ==> !OccursAt(prefix + PREVIEW_MARKER, PREVIEW_MARKER, j)
    requires !Includes(prefix + PREVIEW_MARKER + hash + "." + cfg.deploymentSuffix, DEV_SUFFIX)
    requires !Includes(prefix + "." + cfg.rootDomain, DEV_SUFFIX)
    requires !Includes(prefix + "." + cfg.rootDomain, PREVIEW_MARKER)
    ensures Route(req.(host := prefix + PREVIEW_MARKER + hash + "." + cfg.deploymentSuffix), cfg)
         == Route(req.(host := prefix + "." + cfg.rootDomain), cfg)
  {
    PreviewHostCollapses(prefix, hash, cfg);
  }

  // ---------------------------------------------------------------------
  // The application host.

  /** On the application host any pathname starting with "/verify" (also
      "/verify-request") is rewritten to "/app/verify" with the search part
      kept and the rest of the pathname dropped, with or without a session. */
  lemma VerifyRule(req: Request, cfg: Config)
    requires Hostname(req.host, cfg) == AppHost(cfg)
    requires StartsWith(req.pathname, "/verify")
    ensures Route(req, cfg) == Rewrite("/app/verify" + Search(req.query))
  {
    AppHostRoute(req, cfg);
    PathStartsWith(req.pathname, req.query, "/verify");
  }

  /** On the application host the router applies the application rules to
      the composed path. */
  lemma AppHostRoute(req: Request, cfg: Config)
    requires Hostname(req.host, cfg) == AppHost(cfg)
    ensures Route(req, cfg) == AppRoute(RequestPath(req.pathname, req.query), req.query, req.hasSession)
  {
  }

  /** The application rules without a session, away from "/login" and
      "/verify", stated on the pathname and the query. */
  lemma AppNoSessionRules(pathname: string, query: string)
    requires !StartsWith(pathname, "/verify")
    requires !(pathname == "/login" && query == "")
    ensures AppRoute(RequestPath(pathname, query), query, false) ==
      if StartsWith(query, "error") then Rewrite("/app/login" + Search(query))
      else if StartsWith(pathname, "/signup") then Rewrite("/app/signup")
      else Redirect("/login")
  {
    PathStartsWith(pathname, query, "/verify");
    PathStartsWith(pathname, query, "/signup");
    PathEquals(pathname, query, "/login");
  }

  /** A visitor without a session on the application host, away from
      "/login" and "/verify": an error query shows the login page in place,
      else a signup path shows the signup page (query dropped), else the
      visitor is redirected to "/login". */
  lemma NoSessionRules(req: Request, cfg: Config)
    requires Hostname(req.host, cfg) == AppHost(cfg)
    requires !req.hasSession
    requires !StartsWith(req.pathname, "/verify")
    requires !(req.pathname == "/login" && req.query == "")
    ensures Route(req, cfg) ==
      if StartsWith(req.query, "error") then Rewrite("/app/login" + Search(req.query))
      else if StartsWith(req.pathname, "/signup") then Rewrite("/app/signup")
      else Redirect("/login")
  {
    AppHostRoute(req, cfg);
    AppNoSessionRules(req.pathname, req.query);
  }

  /** A signed-in visitor on "/login" of the application host goes to "/". */
  lemma SignedInLoginGoesHome(req: Request, cfg: Config)
    requires Hostname(req.host, cfg) == AppHost(cfg)
    requires req.hasSession && req.pathname == "/login" && req.query == ""
    ensures Route(req, cfg) == Redirect("/")
  {
  }

  /** The `!session && path == "/signup"` branch is dead: whenever the rules
      reach it, the earlier `!session && path !== "/login"` test has already
      answered, so no request is ever redirected to "/app/signup". */
  lemma SignupRedirectUnreachable(req: Request, cfg: Config)
    ensures Route(req, cfg) != Redirect("/app/signup")
  {
  }

  /** Every other request to the application host (signed in away from
      "/login", or without a session on "/login" itself) is rewritten under
      "/app", the bare "/" to exactly "/app". */
  lemma AppFallthrough(req: Request, cfg: Config)
    requires Hostname(req.host, cfg) == AppHost(cfg)
    requires !StartsWith(req.pathname, "/verify")
    requires req.hasSession <==> !(req.pathname == "/login" && req.query == "")
    ensures Route(req, cfg) == Rewrite(UnderFolder("/app", RequestPath(req.pathname, req.query)))
    ensures req.pathname == "/" && req.query == "" ==> Route(req, cfg) == Rewrite("/app")
  {
    AppHostRoute(req, cfg);
    AppFallthroughPath(req.pathname, req.query, req.hasSession);
  }

  /** The application rules' last branch, stated on the pathname and query. */
  lemma AppFallthroughPath(pathname: string, query: string, hasSession: bool)
    requires !StartsWith(pathname, "/verify")
    requires hasSession <==> !(pathname == "/login" && query == "")
    ensures AppRoute(RequestPath(pathname, query), query, hasSession) == Rewrite(UnderFolder("/app", RequestPath(pathname, query)))
  {
    PathStartsWith(pathname, query, "/verify");
    PathEquals(pathname, query, "/login");
  }

  /** Every rewrite the application host produces stays under "/app". */
  lemma AppRewritesStayUnderApp(req: Request, cfg: Config)
    requires Hostname(req.host, cfg) == AppHost(cfg)
    ensures Route(req, cfg).Rewrite? ==> StartsWith(Route(req, cfg).path, "/app")
  {
  }

  // ---------------------------------------------------------------------
  // Every other host.

  /** The marketing host is sent to the fixed external page. */
  lemma MarketingHostRedirects(req: Request, cfg: Config)
    requires Hostname(req.host, cfg) == MARKETING_HOST
    ensures Route(req, cfg) == Redirect(MARKETING_URL)
  {
    assert AppHost(cfg)[0] != MARKETING_HOST[0];
  }

  /** The root domain and the bare local host are rewritten under "/home",
      the bare "/" to exactly "/home". */
  lemma RootHostRewritesHome(req: Request, cfg: Config)
    requires var h := Hostname(req.host, cfg);
      h != AppHost(cfg) && h != MARKETING_HOST && (h == DEV_HOST || h == cfg.rootDomain)
    ensures Route(req, cfg) == Rewrite(UnderFolder("/home", RequestPath(req.pathname, req.query)))
    ensures req.pathname == "/" && req.query == "" ==> Route(req, cfg) == Rewrite("/home")
  {
  }

  /** Any other host is a tenant: the path is rewritten under "/" + host name. */
  lemma TenantHostRewrite(req: Request, cfg: Config)
    requires var h := Hostname(req.host, cfg);
      h != AppHost(cfg) && h != MARKETING_HOST && h != DEV_HOST && h != cfg.rootDomain
    ensures Route(req, cfg) == Rewrite("/" + Hostname(req.host, cfg) + RequestPath(req.pathname, req.query))
  {
  }

  /** Outside the application host the session plays no part. */
  lemma NonAppHostIgnoresSession(req: Request, cfg: Config)
    requires Hostname(req.host, cfg) != AppHost(cfg)
    ensures Route(req, cfg) == Route(req.(hasSession := !req.hasSession), cfg)
  {
  }

  /** Each rewrite produced of a host other than the application host is
      either under "/home" or under "/" followed by that host name, and
      keeps the composed path at its end. */
  lemma NonAppRewriteKeepsPath(req: Request, cfg: Config)
    requires Hostname(req.host, cfg) != AppHost(cfg)
    requires Route(req, cfg).Rewrite?
    requires req.pathname != "/" || req.query != ""
    ensures EndsWith(Route(req, cfg).path, RequestPath(req.pathname, req.query))
  {
    var path := RequestPath(req.pathname, req.query);
    var out := Route(req, cfg).path;
    assert out[|out| - |path|..] == path;
  }

  // ---------------------------------------------------------------------
  // Scenarios, for any root domain without ":" and "-".

  /** A host without ":" and without "-" is classified as it is. */
  lemma LiteralHostKept(host: string, cfg: Config)
    requires ':' !in host && '-' !in host
    ensures Hostname(host, cfg) == host
  {
    AbsentCharExcludes(host, DEV_SUFFIX, 10);
    AbsentCharExcludes(host, PREVIEW_MARKER, 0);
  }

  /** "/signup" on the application host without a session shows the signup page. */
  lemma ScenarioAppSignup(req: Request, cfg: Config)
    requires ':' !in cfg.rootDomain && '-' !in cfg.rootDomain
    requires req.host == AppHost(cfg) && req.pathname == "/signup" && req.query == "" && !req.hasSession
    ensures Route(req, cfg) == Rewrite("/app/signup")
  {
    LiteralHostKept(req.host, cfg);
    AppHostRoute(req, cfg);
    AppSignupPath();
  }

  /** "/dashboard" on the application host without a session goes to "/login". */
  lemma ScenarioAppDashboard(req: Request, cfg: Config)
    requires ':' !in cfg.rootDomain && '-' !in cfg.rootDomain
    requires req.host == AppHost(cfg) && req.pathname == "/dashboard" && req.query == "" && !req.hasSession
    ensures Route(req, cfg) == Redirect("/login")
  {
    LiteralHostKept(req.host, cfg);
    AppHostRoute(req, cfg);
    AppDashboardPath();
  }

  /** The application rules on "/signup" without a query or a session. */
  lemma AppSignupPath()
    ensures AppRoute(RequestPath("/signup", ""), "", false) == Rewrite("/app/signup")
  {
    assert "/signup"[1] != "/verify"[1];
    AppNoSessionRules("/signup", "");
  }

  /** The application rules on "/dashboard" without a query or a session. */
  lemma AppDashboardPath()
    ensures AppRoute(RequestPath("/dashboard", ""), "", false) == Redirect("/login")
  {
    assert "/dashboard"[1] != "/verify"[1];
    assert "/dashboard"[1] != "/signup"[1];
    AppNoSessionRules("/dashboard", "");
  }

  /** "/verify/anything" is rewritten to "/app/verify" with the search part:
      the rest of the pathname is dropped. */
  lemma ScenarioVerifyDropsRest(req: Request, cfg: Config)
    requires ':' !in cfg.rootDomain && '-' !in cfg.rootDomain
    requires req.host == AppHost(cfg) && req.pathname == "/verify/anything"
    ensures Route(req, cfg) == Rewrite("/app/verify" + Search(req.query))
  {
    LiteralHostKept(req.host, cfg);
    assert req.pathname[..7] == "/verify";
    VerifyRule(req, cfg);
  }

  /** A tenant subdomain is rewritten under its own host name. */
  lemma ScenarioTenantPost(req: Request, cfg: Config)
    requires ':' !in cfg.rootDomain && '-' !in cfg.rootDomain
    requires req.host == "tenant1." + cfg.rootDomain && req.pathname == "/my-post" && req.query == ""
    ensures Route(req, cfg) == Rewrite("/" + req.host + "/my-post")
  {
    LiteralHostKept(req.host, cfg);
    assert req.host[0] != AppHost(cfg)[0];
    assert |req.host| != |cfg.rootDomain|;
    assert req.host[0] != MARKETING_HOST[0] && req.host[0] != DEV_HOST[0];
    TenantHostRewrite(req, cfg);
  }

  /** A local development tenant routes like the same tenant under the root domain. */
  lemma ScenarioDevTenant(req: Request, cfg: Config)
    requires ':' !in cfg.rootDomain && '-' !in cfg.rootDomain
    requires req.host == "demo" + DEV_SUFFIX
    ensures Route(req, cfg) == Route(req.(host := "demo." + cfg.rootDomain), cfg)
  {
    var name := "demo";
    forall j: nat | j < |name| ensures !OccursAt(name + DEV_SUFFIX, DEV_SUFFIX, j) {
      assert (name + DEV_SUFFIX)[j + 4] != DEV_SUFFIX[4];
    }
    assert name + "." + cfg.rootDomain == "demo." + cfg.rootDomain;
    AbsentCharExcludes(name + "." + cfg.rootDomain, DEV_SUFFIX, 10);
    DevHostRoutesLikeProduction(name, req, cfg);
  }

  /** The matcher skips API routes and public files, and lets pages through. */
  lemma ScenarioMatcher(pathname: string)
    ensures pathname == "/api/user" ==> !MatcherAccepts(pathname)
    ensures pathname == "/favicon.ico" ==> !MatcherAccepts(pathname)
    ensures pathname == "/" ==> MatcherAccepts(pathname)
  {
    if pathname == "/api/user" {
      assert pathname[1..][..4] == "api/";
    } else if pathname == "/favicon.ico" {
      var rest := pathname[1..];
      assert LeadingRun(rest[7..]) == 0;
      assert LeadingRun(rest) == 7;
    }
  }
}
