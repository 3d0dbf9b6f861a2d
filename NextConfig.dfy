/** The `rewrites()` table of next.config.js: tenant dashboard URLs
    "/r/<slug>/dashboard..." are served by the shared dashboard pages with the
    slug passed as the `tenantSlug` query parameter. The framework tries the
    rules in their listed order and applies the first whose source matches. */
module NextConfig {
  import opened Common
  import Middleware

  /** What a rule's source accepts after "/r/:tenantSlug/dashboard": an exact
      suffix, or ":path*" (a '/' and the rest of the path). */
  datatype SourceTail = Exact(suffix: string) | PathParam

  /** A rewrite rule: source "/r/:tenantSlug/dashboard" + tail, destination
      `target` (followed by the path parameter for PathParam) and
      "?tenantSlug=:tenantSlug". */
  datatype Rule = Rule(tail: SourceTail, target: string)

  const Rules: seq<Rule> := [
    Rule(Exact("/website"), "/dashboard/tenant-website"),
    Rule(Exact(""), "/dashboard/overview"),
    Rule(PathParam, "/dashboard/")
  ]

  /** The destination of one rule for a path split into slug and tail, or
      None when the rule's source does not match. */
  function ApplyRule(rule: Rule, slug: string, tail: string): (r: Option<string>)
    ensures r.Some? ==> EndsWithSlug(r.value, slug)
  {
    match rule.tail
    case Exact(suffix) =>
      if tail == suffix then Some(rule.target + "?tenantSlug=" + slug) else None
    case PathParam =>
      if |tail| > 1 && tail[0] == '/' then Some(rule.target + tail[1..] + "?tenantSlug=" + slug) else None
  }

  predicate EndsWithSlug(dest: string, slug: string) {
    var q := "?tenantSlug=" + slug;
    |q| <= |dest| && dest[|dest| - |q|..] == q
  }

  /** The first rule of `rules` whose source matches. */
  function FirstMatch(rules: seq<Rule>, slug: string, tail: string): (r: Option<string>)
    ensures r.Some? ==> EndsWithSlug(r.value, slug)
    ensures r.Some? <==> exists i :: 0 <= i < |rules| && ApplyRule(rules[i], slug, tail).Some?
    ensures r.Some? ==> exists i :: 0 <= i < |rules| && ApplyRule(rules[i], slug, tail) == r
                                    && NoneBefore(rules, i, slug, tail)
  {
    if rules == [] then None
    else
      match ApplyRule(rules[0], slug, tail)
      case Some(dest) =>
        assert NoneBefore(rules, 0, slug, tail);
        Some(dest)
      case None =>
        var r := FirstMatch(rules[1..], slug, tail);
        assert forall i :: 1 <= i < |rules| ==> rules[i] == rules[1..][i - 1];
        assert r.Some? ==> exists i :: 0 <= i < |rules| && ApplyRule(rules[i], slug, tail) == r
                                       && NoneBefore(rules, i, slug, tail) by {
          if r.Some? {
            var i :| 0 <= i < |rules[1..]| && ApplyRule(rules[1..][i], slug, tail) == r
                     && NoneBefore(rules[1..], i, slug, tail);
            assert ApplyRule(rules[i + 1], slug, tail) == r;
            assert NoneBefore(rules, i + 1, slug, tail);
          }
        }
        r
  }

  /** No rule before position i applies. */
  predicate NoneBefore(rules: seq<Rule>, i: int, slug: string, tail: string) {
    forall j :: 0 <= j < i && j < |rules| ==> ApplyRule(rules[j], slug, tail).None?
  }

  /** The URL the framework serves for path p, or None when no rule applies
      and p is served as it is. */
  function Rewrite(p: string): Option<string> {
    match Middleware.SplitTenantDashboard(p)
    case Some((slug, tail)) => FirstMatch(Rules, slug, tail)
    case None => None
  }

  /** Splitting "/r/<slug>/dashboard<tail>" gives back slug and tail. */
  lemma {:induction false} SplitOf(slug: string, tail: string)
    requires IsSegment(slug)
    ensures Middleware.SplitTenantDashboard("/r/" + slug + "/dashboard" + tail) == Some((slug, tail))
  {
    var p := "/r/" + slug + "/dashboard" + tail;
    var rest := p[3..];
    assert p[..3] == "/r/";
    assert rest == slug + ("/dashboard" + tail);
    assert rest[..|slug|] == slug;
    SegmentEndOf(rest, slug);
    assert rest[|slug|..] == "/dashboard" + tail;
  }

  /** The tenant website settings page. */
  lemma WebsiteRewrite(slug: string)
    requires IsSegment(slug)
    ensures Rewrite("/r/" + slug + "/dashboard/website") == Some("/dashboard/tenant-website?tenantSlug=" + slug)
  {
    SplitOf(slug, "/website");
    assert "/r/" + slug + "/dashboard/website" == "/r/" + slug + "/dashboard" + "/website";
    assert "/dashboard/tenant-website" + "?tenantSlug=" + slug == "/dashboard/tenant-website?tenantSlug=" + slug;
    assert ApplyRule(Rules[0], slug, "/website") == Some("/dashboard/tenant-website?tenantSlug=" + slug);
  }

  /** The tenant dashboard root is its overview page. */
  lemma RootRewrite(slug: string)
    requires IsSegment(slug)
    ensures Rewrite("/r/" + slug + "/dashboard") == Some("/dashboard/overview?tenantSlug=" + slug)
  {
    SplitOf(slug, "");
    assert "/r/" + slug + "/dashboard" + "" == "/r/" + slug + "/dashboard";
    assert "/dashboard/overview" + "?tenantSlug=" + slug == "/dashboard/overview?tenantSlug=" + slug;
    assert ApplyRule(Rules[0], slug, "").None?;
    assert Rules[1..][0] == Rules[1];
    assert ApplyRule(Rules[1], slug, "") == Some("/dashboard/overview?tenantSlug=" + slug);
    assert FirstMatch(Rules[1..], slug, "") == Some("/dashboard/overview?tenantSlug=" + slug);
  }

  /** Every other page under a tenant dashboard maps to the same page of
      the shared dashboard. */
  lemma OtherRewrite(slug: string, path: string)
    requires IsSegment(slug) && path != "" && path != "website"
    ensures Rewrite("/r/" + slug + "/dashboard/" + path) == Some("/dashboard/" + path + "?tenantSlug=" + slug)
  {
    SplitOf(slug, "/" + path);
    assert "/r/" + slug + "/dashboard/" + path == "/r/" + slug + "/dashboard" + ("/" + path);
    assert ("/" + path)[1..] == path;
    assert "/" + path != "/website" by {
      assert path == ("/" + path)[1..];
      assert "website" == "/website"[1..];
    }
    assert ApplyRule(Rules[0], slug, "/" + path).None?;
    assert ApplyRule(Rules[1], slug, "/" + path).None?;
    assert Rules[1..][0] == Rules[1] && Rules[1..][1..][0] == Rules[2];
    assert ApplyRule(Rules[2], slug, "/" + path) == Some("/dashboard/" + path + "?tenantSlug=" + slug);
    assert FirstMatch(Rules[1..][1..], slug, "/" + path) == Some("/dashboard/" + path + "?tenantSlug=" + slug);
    assert FirstMatch(Rules[1..], slug, "/" + path) == Some("/dashboard/" + path + "?tenantSlug=" + slug);
  }

  /** The website rule wins: the general rule, listed after it, would have
      served "/dashboard/website" instead. */
  lemma WebsiteRuleShadowsGeneral(slug: string)
    ensures ApplyRule(Rules[2], slug, "/website") == Some("/dashboard/website?tenantSlug=" + slug)
    ensures ApplyRule(Rules[0], slug, "/website") == Some("/dashboard/tenant-website?tenantSlug=" + slug)
  {
    assert "/website"[1..] == "website";
    assert "/dashboard/" + "website" + "?tenantSlug=" + slug == "/dashboard/website?tenantSlug=" + slug;
    assert "/dashboard/tenant-website" + "?tenantSlug=" + slug == "/dashboard/tenant-website?tenantSlug=" + slug;
  }

  /** Every rewrite keeps the tenant: the destination ends with the slug
      taken from the path. */
  lemma RewriteKeepsSlug(p: string)
    requires Rewrite(p).Some?
    ensures Middleware.SplitTenantDashboard(p).Some?
    ensures EndsWithSlug(Rewrite(p).value, Middleware.SplitTenantDashboard(p).value.0)
  {
  }

  /** Every rewritten path is one the middleware's matcher runs the guard on,
      so the shared pages are never reached through a rewrite unguarded. */
  lemma RewrittenPathsAreGuarded(p: string)
    requires Rewrite(p).Some?
    ensures Middleware.MatcherRuns(p)
  {
    var (slug, tail) := Middleware.SplitTenantDashboard(p).value;
    var i :| 0 <= i < |Rules| && ApplyRule(Rules[i], slug, tail).Some?;
  }
}
