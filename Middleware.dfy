/** The request guard of middleware.js: a decision taken before a dashboard
    page is served, from the request's path, query and `token` cookie and
    from what `verifyJwt` (lib/auth, not part of this model) makes of the
    token. The verifier is a function parameter; signature and expiry checks
    live behind it. */
module Middleware {
  import opened Common

  /** The claims `verifyJwt` returns for a token it accepts. */
  datatype Payload = Payload(role: string, tenantSlug: Option<string>)

  /** The parts of the incoming request the guard reads. `query` is the
      request URL's search parameters, which `nextUrl.clone()` carries into
      a redirect. */
  datatype Request = Request(pathname: string, query: map<string, string>, tokenCookie: Option<string>)

  /** NextResponse.next() or NextResponse.redirect(url), the URL given by its
      pathname and search parameters. */
  datatype Response = Next | Redirect(pathname: string, query: map<string, string>)

  const LoginPath := "/login"
  const AllowedRoles: seq<string> := ["super_admin", "restaurant_admin", "staff"]

  /** The characters `.` does not match in a JavaScript regular expression. */
  predicate IsLineTerminator(c: char) {
    c == '\n' || c == '\r' || c == '\U{2028}' || c == '\U{2029}'
  }

  /** `(\/.*)?$` — empty, or a '/' followed by characters `.` matches. */
  predicate DashboardTail(t: string) {
    t == [] || (t[0] == '/' && forall i :: 0 <= i < |t| ==> !IsLineTerminator(t[i]))
  }

  /** Splits "/r/<slug>/dashboard<tail>" into the slug (a `[^/]+` segment)
      and the tail; None for a path of any other shape. */
  function SplitTenantDashboard(p: string): Option<(string, string)> {
    if !StartsWith(p, "/r/") then None
    else
      var rest := p[3..];
      var k := SegmentEnd(rest);
      var after := rest[k..];
      if k > 0 && StartsWith(after, "/dashboard") then Some((rest[..k], after[10..])) else None
  }

  /** `pathname.match(/^\/r\/([^/]+)\/dashboard(\/.*)?$/)`: the captured
      tenant slug, or None when the path does not match. */
  function TenantDashboardMatch(p: string): Option<string> {
    match SplitTenantDashboard(p)
    case Some((slug, tail)) => if DashboardTail(tail) then Some(slug) else None
    case None => None
  }

  /** The regular expression in declarative terms: the path matches with
      slug `slug` exactly when it is "/r/" + slug + "/dashboard" followed by
      an admissible tail. */
  lemma {:induction false} TenantDashboardMatchIff(p: string, slug: string)
    ensures TenantDashboardMatch(p) == Some(slug) <==>
      IsSegment(slug) && StartsWith(p, "/r/" + slug + "/dashboard")
      && DashboardTail(p[|slug| + 13..])
  {
    var pre := "/r/" + slug + "/dashboard";
    if IsSegment(slug) && StartsWith(p, pre) && DashboardTail(p[|slug| + 13..]) {
      assert p[..3] == pre[..3];
      var rest := p[3..];
      assert rest[..|slug|] == slug;
      assert rest[|slug|] == p[|slug| + 3] == pre[|slug| + 3] == '/';
      SegmentEndOf(rest, slug);
      assert rest[|slug|..][..10] == p[|slug| + 3..|slug| + 13] == pre[|slug| + 3..];
      assert rest[|slug|..][10..] == p[|slug| + 13..];
    }
    if TenantDashboardMatch(p) == Some(slug) {
      var rest := p[3..];
      var k := SegmentEnd(rest);
      assert slug == rest[..k];
      assert p[..|pre|] == p[..3] + rest[..k] + rest[k..][..10];
      assert p[|slug| + 13..] == rest[k..][10..];
    }
  }

  /** middleware(request), with `verifyJwt` as the given oracle. */
  function Guard(req: Request, verifyJwt: string -> Option<Payload>): (r: Response)
    // paths that are neither the platform dashboard nor a tenant dashboard pass through
    ensures !StartsWith(req.pathname, "/dashboard") && TenantDashboardMatch(req.pathname).None?
      ==> r == Next
    // every redirect goes to /login, keeping the request's other search parameters
    ensures r.Redirect? ==>
      (r.pathname == LoginPath
       && forall key :: key in req.query && key != "from" ==> key in r.query && r.query[key] == req.query[key])
    // a protected path without a token cookie returns to it after login
    ensures (StartsWith(req.pathname, "/dashboard") || TenantDashboardMatch(req.pathname).Some?)
      && !Truthy(req.tokenCookie)
      ==> r == Redirect(LoginPath, req.query["from" := req.pathname])
    // a token the verifier rejects, or a role outside the allowed set, redirects without `from`
    ensures (StartsWith(req.pathname, "/dashboard") || TenantDashboardMatch(req.pathname).Some?)
      && Truthy(req.tokenCookie)
      && (verifyJwt(req.tokenCookie.value).None? || verifyJwt(req.tokenCookie.value).value.role !in AllowedRoles)
      ==> r == Redirect(LoginPath, req.query)
    // a request is let through only with an accepted token carrying an allowed role
    ensures r == Next && (StartsWith(req.pathname, "/dashboard") || TenantDashboardMatch(req.pathname).Some?)
      ==> (Truthy(req.tokenCookie) && verifyJwt(req.tokenCookie.value).Some?
           && verifyJwt(req.tokenCookie.value).value.role in AllowedRoles)
    // a tenant path is let through only when the token names no tenant or names this one
    ensures r == Next && TenantDashboardMatch(req.pathname).Some?
      ==> var claim := verifyJwt(req.tokenCookie.value).value.tenantSlug;
          !Truthy(claim) || claim.value == TenantDashboardMatch(req.pathname).value
  {
    var isPlatformDashboard := StartsWith(req.pathname, "/dashboard");
    var tenantDashboardMatch := TenantDashboardMatch(req.pathname);
    if !isPlatformDashboard && tenantDashboardMatch.None? then Next
    else if !Truthy(req.tokenCookie) then
      Redirect(LoginPath, req.query["from" := req.pathname])
    else
      var payload := verifyJwt(req.tokenCookie.value);
      if payload.None? || payload.value.role !in AllowedRoles then
        Redirect(LoginPath, req.query)
      else if tenantDashboardMatch.Some? && Truthy(payload.value.tenantSlug)
        && tenantDashboardMatch.value != payload.value.tenantSlug.value then
        Redirect(LoginPath, req.query["from" := req.pathname])
      else
        Next
  }

  /** On a tenant path, a token whose tenant claim names another tenant is
      sent to log in and come back. */
  lemma CrossTenantRedirects(req: Request, verifyJwt: string -> Option<Payload>, slug: string)
    requires TenantDashboardMatch(req.pathname) == Some(slug)
    requires Truthy(req.tokenCookie)
    requires verifyJwt(req.tokenCookie.value).Some?
    requires verifyJwt(req.tokenCookie.value).value.role in AllowedRoles
    requires Truthy(verifyJwt(req.tokenCookie.value).value.tenantSlug)
    requires verifyJwt(req.tokenCookie.value).value.tenantSlug.value != slug
    ensures Guard(req, verifyJwt) == Redirect(LoginPath, req.query["from" := req.pathname])
  {
  }

  /** An accepted token with an allowed role and no tenant claim is let
      through on every protected path, whatever the slug; on the platform
      dashboard the tenant claim is never consulted. */
  lemma AllowedRoleProceeds(req: Request, verifyJwt: string -> Option<Payload>)
    requires StartsWith(req.pathname, "/dashboard") || TenantDashboardMatch(req.pathname).Some?
    requires Truthy(req.tokenCookie)
    requires verifyJwt(req.tokenCookie.value).Some?
    requires verifyJwt(req.tokenCookie.value).value.role in AllowedRoles
    requires !Truthy(verifyJwt(req.tokenCookie.value).value.tenantSlug) || TenantDashboardMatch(req.pathname).None?
    ensures Guard(req, verifyJwt) == Next
  {
  }

  /** A platform path never starts with "/r/", so the tenant claim plays no
      part in deciding it. */
  lemma {:induction false} PlatformIgnoresTenantClaim(req: Request, verifyJwt: string -> Option<Payload>)
    requires StartsWith(req.pathname, "/dashboard")
    requires Truthy(req.tokenCookie)
    requires verifyJwt(req.tokenCookie.value).Some?
    requires verifyJwt(req.tokenCookie.value).value.role in AllowedRoles
    ensures Guard(req, verifyJwt) == Next
  {
    assert req.pathname[1] == 'd';
    assert !StartsWith(req.pathname, "/r/");
  }

  /** The paths `config.matcher` runs the middleware on: "/dashboard/:path*"
      and "/r/:tenantSlug/dashboard/:path*" (each with zero or more
      segments after the dashboard). */
  predicate MatcherRuns(p: string) {
    p == "/dashboard" || StartsWith(p, "/dashboard/")
    || (SplitTenantDashboard(p).Some? && var tail := SplitTenantDashboard(p).value.1;
        tail == [] || tail[0] == '/')
  }

  /** What the framework does with a request: run the guard on the paths
      the matcher selects, serve every other path. */
  function Effective(req: Request, verifyJwt: string -> Option<Payload>): Response {
    if MatcherRuns(req.pathname) then Guard(req, verifyJwt) else Next
  }

  /** Every path the matcher selects is one the guard treats as protected,
      for paths without line terminators (URL paths are percent-encoded, so
      they never hold one). */
  lemma MatchedPathsAreProtected(p: string)
    requires forall i :: 0 <= i < |p| ==> !IsLineTerminator(p[i])
    requires MatcherRuns(p)
    ensures StartsWith(p, "/dashboard") || TenantDashboardMatch(p).Some?
  {
    StartsWithLonger(p, "/dashboard", "/");
    if !StartsWith(p, "/dashboard") {
      var rest := p[3..];
      var k := SegmentEnd(rest);
      var tail := rest[k..][10..];
      forall i | 0 <= i < |tail| ensures !IsLineTerminator(tail[i]) {
        assert tail[i] == p[3 + k + 10 + i];
      }
    }
  }

  /** After a slug, "/" + role + "/..." never reads as "/dashboard" followed
      by the end or a '/', unless the role is "dashboard". */
  lemma RoleSegmentNotDashboard(role: string, more: string)
    requires IsSegment(role) && role != "dashboard"
    requires more != [] && more[0] == '/'
    ensures var after := "/" + role + more;
      !(StartsWith(after, "/dashboard") && (after[10..] == [] || after[10] == '/'))
  {
    var after := "/" + role + more;
    assert after[|role| + 1] == '/';
    if |role| < 9 {
      assert "/dashboard"[|role| + 1] != '/';
    } else if |role| == 9 {
      assert after[1..10] == role;
    } else {
      assert after[10] == role[9] != '/';
    }
  }

  /** A path with a role segment, "/r/<slug>/<role>/dashboard...", is not
      matched by the guard's expression (unless the role is itself
      "dashboard"), so neither the matcher nor the guard stops it. */
  lemma {:induction false} RoleSegmentPathsPassThrough(slug: string, role: string, tail: string,
                                                     query: map<string, string>, cookie: Option<string>,
                                                     verifyJwt: string -> Option<Payload>)
    requires IsSegment(slug) && IsSegment(role) && role != "dashboard"
    ensures var p := "/r/" + slug + "/" + role + "/dashboard" + tail;
      TenantDashboardMatch(p).None? && !MatcherRuns(p)
      && Guard(Request(p, query, cookie), verifyJwt) == Next
  {
    var p := "/r/" + slug + "/" + role + "/dashboard" + tail;
    var rest := p[3..];
    assert rest == slug + ("/" + role + ("/dashboard" + tail));
    assert rest[..|slug|] == slug;
    SegmentEndOf(rest, slug);
    assert rest[|slug|..] == "/" + role + ("/dashboard" + tail);
    RoleSegmentNotDashboard(role, "/dashboard" + tail);
    assert p[..3] == "/r/";
    var split := SplitTenantDashboard(p);
    assert split.Some? ==> split.value.1 == rest[|slug|..][10..];
    assert TenantDashboardMatch(p).None?;
    assert p[1] == 'r';
    assert !StartsWith(p, "/dashboard");
    StartsWithLonger(p, "/dashboard", "/");
    assert p != "/dashboard";
  }
}
