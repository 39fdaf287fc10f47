/** When HAProxy and nginx serve the same route rules alike. */
module Engines {
  import opened Text
  import opened Model
  import R = Routes
  import N = NginxRoutes
  import NR = NginxRender
  import H = HAProxyChoice
  import HS = HAProxyRoutes
  import HL = HAProxyReading
  import HR = HAProxyRender
  import HAProxyNames

  /** A mapping either engine validates and loads, with no path routes and no access rules. */
  ghost predicate Comparable(m: Mapping) {
    && H.Routable(m) && R.PlainRules(m.routes)
    && m.pathRoutes == [] && m.accessRules == [] && m.targets != [] && m.decoy == ""
    && N.Accepts(NR.ServingLines(m))
  }

  predicate SlashPath(q: HL.Request) {
    HasPrefix(q.path, "/")
  }

  function SitePath(m: Mapping): string {
    if m.pathPrefix != "" then m.pathPrefix else "/"
  }

  ghost predicate NginxServes(m: Mapping, q: HL.Request, b: N.Block) {
    N.Serves(NR.ServingLines(m), q.path, b)
  }

  ghost function HAProxyServes(m: Mapping, q: HL.Request): HL.Outcome {
    HL.Serve(HL.FrontendLines(m), q)
  }

  /** Whatever location of nginx serves the request, HAProxy answers alike: the rule's
      answer, the mapping's own targets, or a 404. */
  ghost predicate Agree(m: Mapping, q: HL.Request) {
    && (forall r :: H.Enabled(m, r) && NginxServes(m, q, N.BlockOf(m, r)) ==> HAProxyServes(m, q) == H.AnswerOf(m, r))
    && (NginxServes(m, q, N.ProxyBlock(m, SitePath(m))) ==> HAProxyServes(m, q) == HL.Sent(HR.BackendName(m)))
    && (NginxServes(m, q, N.Block("/", N.FallbackBody(m))) ==> HAProxyServes(m, q) == HL.Denied)
  }

  ghost predicate AlwaysAgree(m: Mapping) {
    forall q :: SlashPath(q) ==> Agree(m, q)
  }

  /** The rule and the path prefix do not interfere: a proxying rule is below the prefix,
      and no rule is above it. */
  ghost predicate BesidePrefix(m: Mapping, r: RouteRule) {
    m.pathPrefix != "" ==> !HasPrefix(m.pathPrefix, r.path) && (r.redirect == "" ==> HasPrefix(r.path, m.pathPrefix))
  }

  ghost predicate Alike(m: Mapping) {
    H.AllFindThemselves(m) && H.NoneShadowed(m) && forall r :: H.Enabled(m, r) ==> BesidePrefix(m, r)
  }

  // ---- both see the same rules ----

  lemma SamePaths(m: Mapping)
    requires R.PlainRules(m.routes)
    ensures N.Rooted(m.routes) && forall r :: r in m.routes ==> R.NginxPath(r.path) == r.path
  {
    forall r | r in m.routes ensures R.NginxPath(r.path) == r.path { R.PlainPath(m.routes, r); }
  }

  lemma SameLongest(m: Mapping, path: string, r: RouteRule)
    requires R.PlainRules(m.routes)
    ensures N.LongestRule(m, path, r) <==> R.Longest(m.routes, path, r)
  {
    SamePaths(m);
    assert forall s :: N.Enabled(m, s) && HasPrefix(path, R.NginxPath(s.path)) <==> s in m.routes && R.Matches(s, path);
  }

  lemma NoPorts(m: Mapping, path: string)
    requires m.pathRoutes == []
    ensures !N.PortPath(m.pathRoutes, path) && N.PlainPrefixes(m.pathRoutes)
  {}

  /** nginx serves a rule the paths it is the longest for, unless a longer path prefix takes
      them. */
  lemma NginxServesLongest(m: Mapping, q: HL.Request, r: RouteRule)
    requires Comparable(m) && R.Longest(m.routes, q.path, r)
    ensures NginxServes(m, q, N.BlockOf(m, r)) <==> !N.SiteTakes(m, q.path, r)
  {
    SamePaths(m);
    SameLongest(m, q.path, r);
    NoPorts(m, q.path);
    N.RuleServesIff(m, q.path, r);
  }

  // ---- alike is enough ----

  lemma AlikeUnhindered(m: Mapping, q: HL.Request)
    requires Comparable(m) && Alike(m)
    ensures H.Unhindered(m, q.from, q.upgrade)
  {
    assert HS.Access(m.accessRules, q.from) == HS.Unlisted;
    forall p | H.Enabled(m, p) && p.redirect == "" ensures H.Open(m, p, q.upgrade) {
      assert BesidePrefix(m, p);
    }
  }

  /** No other location has the path of a rule. */
  lemma RulePathOnly(m: Mapping, r: RouteRule)
    requires Comparable(m) && H.Enabled(m, r)
    ensures r.path != SitePath(m)
  {
    SamePaths(m);
    N.AcceptsIff(m);
    assert r.enabled && R.NginxPath(r.path) == r.path;
    assert N.RulePath(m.routes, r.path);
  }

  lemma RuleIsNo404(m: Mapping, r: RouteRule)
    requires m.decoy == ""
    ensures N.BlockOf(m, r).body != N.FallbackBody(m)
  {
    var line := NR.ActionLine(R.NgRuleAction(m.id, r));
    assert N.BlockOf(m, r).body[0] == line;
    assert N.FallbackBody(m)[0].fields == ["return", "404"];
    assert |line.fields| == 3 || line.fields[0] == "proxy_pass";
    assert "proxy_pass"[0] != "return"[0];
  }

  lemma AgreeOnRule(m: Mapping, q: HL.Request, r: RouteRule)
    requires Comparable(m) && H.Enabled(m, r) && NginxServes(m, q, N.BlockOf(m, r)) && HAProxyServes(m, q) == H.AnswerOf(m, r)
    ensures Agree(m, q)
  {
    SamePaths(m);
    RulePathOnly(m, r);
    RuleIsNo404(m, r);
    forall b | NginxServes(m, q, b) ensures b == N.BlockOf(m, r) { N.ServesOne(NR.ServingLines(m), q.path, b, N.BlockOf(m, r)); }
    forall s | H.Enabled(m, s) && NginxServes(m, q, N.BlockOf(m, s)) ensures s == r {
      assert N.BlockOf(m, s).prefix == s.path && N.BlockOf(m, r).prefix == r.path;
      SameRule(m, s, r);
    }
  }

  lemma SameRule(m: Mapping, r: RouteRule, s: RouteRule)
    requires R.ValidRules(m.routes) && r in m.routes && s in m.routes && r.path == s.path
    ensures r == s
  {
    var i :| 0 <= i < |m.routes| && m.routes[i] == r;
    var j :| 0 <= j < |m.routes| && m.routes[j] == s;
  }

  lemma AlikeAgreesOnRule(m: Mapping, q: HL.Request, r: RouteRule)
    requires Comparable(m) && Alike(m) && R.Longest(m.routes, q.path, r)
    ensures Agree(m, q)
  {
    assert H.Enabled(m, r) && BesidePrefix(m, r);
    NginxServesLongest(m, q, r);
    if N.SiteTakes(m, q.path, r) {
      SamePaths(m);
      R.PrefixesNest(q.path, r.path, m.pathPrefix);
    }
    AlikeUnhindered(m, q);
    H.UnhinderedFollows(m, q.from, q.upgrade);
    assert q == HL.Request(q.path, q.from, q.upgrade);
    AgreeOnRule(m, q, r);
  }

  lemma HAProxyRest(m: Mapping, q: HL.Request)
    requires Comparable(m) && R.NoneMatches(m.routes, q.path)
    ensures HAProxyServes(m, q)
      == if m.pathPrefix != "" && !HasPrefix(q.path, m.pathPrefix) then HL.Denied else HL.Sent(HR.BackendName(m))
  {
    HS.ServesAsExpected(m, q);
    H.FirstOfRules(m.routes, q.path, true);
    H.FirstOfRules(m.routes, q.path, false);
    assert HS.Access(m.accessRules, q.from) == HS.Unlisted;
    assert !HS.Guarded(m, q) && !HS.RouteMatches(m, q.path);
  }

  lemma AgreeOnRest(m: Mapping, q: HL.Request)
    requires Comparable(m) && SlashPath(q) && R.NoneMatches(m.routes, q.path)
    ensures Agree(m, q)
  {
    HAProxyRest(m, q);
    SamePaths(m);
    NoPorts(m, q.path);
    forall r | N.Enabled(m, r) ensures !HasPrefix(q.path, R.NginxPath(r.path)) { assert !R.Matches(r, q.path); }
    forall b ensures NginxServes(m, q, b) <==> N.Rest(m, q.path) == Some(b) { N.RestServes(m, q.path, b); }
    forall r | H.Enabled(m, r) ensures !NginxServes(m, q, N.BlockOf(m, r)) {
      assert !R.Matches(r, q.path) && N.BlockOf(m, r).prefix == r.path;
    }
    FallbackIsNoProxy(m);
  }

  lemma FallbackIsNoProxy(m: Mapping)
    requires m.decoy == ""
    ensures forall path :: N.ProxyBlock(m, path).body != N.FallbackBody(m)
  {
    forall path ensures N.ProxyBlock(m, path).body != N.FallbackBody(m) { assert |N.ProxyBlock(m, path).body| > 1; }
  }

  lemma AlikeAgrees(m: Mapping)
    requires Comparable(m) && Alike(m)
    ensures AlwaysAgree(m)
  {
    forall q | SlashPath(q) ensures Agree(m, q) {
      if R.NoneMatches(m.routes, q.path) {
        AgreeOnRest(m, q);
      } else {
        var r := R.LongestExists(m.routes, q.path);
        AlikeAgreesOnRule(m, q, r);
      }
    }
  }

  // ---- and necessary ----

  lemma RuleDisagrees(m: Mapping, q: HL.Request, r: RouteRule)
    requires Comparable(m) && H.Enabled(m, r) && q.path == r.path && HAProxyServes(m, q) != H.AnswerOf(m, r)
    ensures !AlwaysAgree(m)
  {
    H.LongestAtOwnPath(m, r);
    SamePaths(m);
    NginxServesLongest(m, q, r);
    assert !N.SiteTakes(m, q.path, r);
    assert R.ValidRule(r) && SlashPath(q);
    assert !Agree(m, q);
  }

  lemma PrefixServed(m: Mapping, q: HL.Request)
    requires Comparable(m) && m.pathPrefix != "" && q.path == m.pathPrefix
    ensures NginxServes(m, q, N.ProxyBlock(m, m.pathPrefix))
  {
    N.ServingBlocks(m);
    NoPorts(m, q.path);
    N.RegexTakesIff(m, q.path);
    N.BlockKinds(m, N.ProxyBlock(m, m.pathPrefix));
    assert q.path[..|q.path|] == q.path;
  }

  /** A request that matches a rule never reaches the mapping's own backend. */
  lemma RuleKeepsFromSite(m: Mapping, q: HL.Request, r: RouteRule)
    requires H.Routable(m) && H.Enabled(m, r) && HasPrefix(q.path, r.path) && m.accessRules == []
    ensures HAProxyServes(m, q) != HL.Sent(HR.BackendName(m))
  {
    HS.ServesAsExpected(m, q);
    assert R.Matches(r, q.path);
    H.FirstOfRules(m.routes, q.path, R.HasRedirect(m.routes, r.id));
    assert HS.Access(m.accessRules, q.from) == HS.Unlisted;
    forall s: RouteRule ensures |HL.RuleBackend(m, s)| > |HR.BackendName(m)| {}
  }

  lemma AboveDisagrees(m: Mapping, r: RouteRule)
    requires Comparable(m) && H.Enabled(m, r) && m.pathPrefix != "" && HasPrefix(m.pathPrefix, r.path)
    ensures !AlwaysAgree(m)
  {
    var q := HL.Request(m.pathPrefix, {}, true);
    PrefixServed(m, q);
    RuleKeepsFromSite(m, q, r);
    assert R.ValidRule(r);
    H.PrefixTrans(m.pathPrefix, r.path, "/");
    assert SlashPath(q) && !Agree(m, q);
  }

  lemma UnlikeDisagrees(m: Mapping)
    requires Comparable(m) && !Alike(m)
    ensures !AlwaysAgree(m)
  {
    if !H.AllFindThemselves(m) {
      var r :| H.Enabled(m, r) && !H.FindsItself(m, r);
      var q := HL.Request(r.path, {}, true);
      H.LookupStrays(m, q, r);
      RuleDisagrees(m, q, r);
    } else if !H.NoneShadowed(m) {
      var r, p :| R.RedirectShadowsProxy(m.routes, r, p);
      assert H.Enabled(m, r) && H.Enabled(m, p) && HasPrefix(p.path, r.path);
      NotServed(m, p);
    } else {
      var r :| H.Enabled(m, r) && !BesidePrefix(m, r);
      if HasPrefix(m.pathPrefix, r.path) { AboveDisagrees(m, r); } else { NotServed(m, r); }
    }
  }

  /** A proxying rule that a redirect shadows, or that is outside the path prefix. */
  lemma NotServed(m: Mapping, p: RouteRule)
    requires Comparable(m) && H.AllFindThemselves(m) && H.Enabled(m, p) && p.redirect == ""
    requires !H.NoRedirectMatches(m, p.path) || (m.pathPrefix != "" && !HasPrefix(p.path, m.pathPrefix))
    ensures !AlwaysAgree(m)
  {
    var q := HL.Request(p.path, {}, true);
    H.LongestAtOwnPath(m, p);
    assert HS.Access(m.accessRules, q.from) == HS.Unlisted;
    H.RuleServesIff(m, q, p);
    RuleDisagrees(m, q, p);
  }

  /** Both engines answer every request alike exactly when each rule is found under its own
      id, no redirect shadows a longer proxy, and no rule interferes with the path prefix. */
  lemma AgreeIff(m: Mapping)
    requires Comparable(m)
    ensures AlwaysAgree(m) <==> Alike(m)
  {
    if Alike(m) { AlikeAgrees(m); } else { UnlikeDisagrees(m); }
  }

  // ---- path routes ----

  /** Where a rule meets a path route the engines differ: nginx prefers the route, HAProxy
      the rule. */
  lemma PathRouteDisagrees(m: Mapping, q: HL.Request, r: RouteRule)
    requires H.Routable(m) && R.PlainRules(m.routes) && H.AllFindThemselves(m)
    requires R.Longest(m.routes, q.path, r) && H.ServedByLongest(m, q, r)
    requires N.PlainPrefixes(m.pathRoutes) && N.PortPath(m.pathRoutes, q.path)
    ensures HAProxyServes(m, q) == H.AnswerOf(m, r)
    ensures forall b :: !NginxServes(m, q, b)
  {
    H.RuleServesIff(m, q, r);
    N.RegexTakesIff(m, q.path);
  }

  const RULE := RouteRule(1, "/ws", true, [H.BACKEND], "")
  const ROUTE := PathRoute(WS, "ws", 0, 0)

  const MEETING := H.FRONT.(targets := [], pathRoutes := [ROUTE], routes := [RULE])

  /** A rule `/ws` beside a path route `ws`: the request `/ws/80` goes to the rule on
      HAProxy and to port 80 on nginx, which loads the block. */
  lemma RuleBesideRoute()
    ensures var q := HL.Request("/ws/80", {}, true);
      && N.Accepts(NR.ServingLines(MEETING))
      && HAProxyServes(MEETING, q) == HL.Sent(HL.RuleBackend(MEETING, RULE))
      && forall b :: !NginxServes(MEETING, q, b)
  {
    var q := HL.Request("/ws/80", {}, true);
    MeetingAccepted(MEETING);
    MeetingRoutable(MEETING);
    MeetingServed(MEETING, q);
    PathRouteDisagrees(MEETING, q, RULE);
  }

  lemma EightyTaken()
    ensures HS.RouteTakes(ROUTE, "/ws/80")
  {
    assert HS.RouteHead(ROUTE) + "80" == "/ws/80";
    assert "/ws/80"[..|"/ws/80"|] == "/ws/80";
    assert HS.PortOf(ROUTE, "80") && HL.AtOrBelow("/ws/80", HS.RouteHead(ROUTE) + "80");
  }

  lemma EightyMeets()
    ensures N.PortPath([ROUTE], "/ws/80") && HasPrefix("/ws/80", "/ws")
  {
    assert N.PortPrefix(ROUTE) == "/ws/" && "/ws/80"[..4] == "/ws/" && "/ws/80"[..3] == "/ws";
    assert N.FollowedByDigit("/ws/80", N.PortPrefix(ROUTE)) && ROUTE in [ROUTE];
  }

  lemma MeetingServed(m: Mapping, q: HL.Request)
    requires m.routes == [RULE] && m.pathRoutes == [ROUTE] && m.pathPrefix == "" && m.accessRules == []
    requires q == HL.Request("/ws/80", {}, true)
    ensures H.AllFindThemselves(m) && R.PlainRules(m.routes) && N.PlainPrefixes(m.pathRoutes)
    ensures R.Longest(m.routes, q.path, RULE) && H.ServedByLongest(m, q, RULE) && N.PortPath(m.pathRoutes, q.path)
  {
    assert m.routes[0] == RULE && forall r :: r in m.routes ==> r == RULE;
    assert m.pathRoutes[0] == ROUTE && forall pr :: pr in m.pathRoutes ==> pr == ROUTE;
    R.OneRuleValid(RULE);
    H.DifferentIdsFind(m);
    EightyMeets();
    EightyTaken();
    assert HS.RouteMatches(m, q.path);
    assert H.NoRedirectMatches(m, q.path);
  }

  lemma MeetingRoutable(m: Mapping)
    requires IsHttp(m) && m.redirectTo == "" && m.routes == [RULE] && m.pathRoutes == [ROUTE] && m.pathPrefix == ""
    ensures H.Routable(m)
  {
    R.OneRuleValid(RULE);
    H.OneRouteValid(ROUTE);
    assert R.RuleTag(1)[1] == 'r' && ("_" + ROUTE.prefix)[1] == 'w' && "up"[0] == 'u';
    assert forall r :: r in m.routes ==> r == RULE;
    assert forall pr :: pr in m.pathRoutes ==> pr == ROUTE;
    HAProxyNames.AclsOnceIff(m);
  }

  lemma MeetingAccepted(m: Mapping)
    requires m.routes == [RULE] && m.targets == [] && m.pathPrefix == ""
    ensures N.Accepts(NR.ServingLines(m))
  {
    assert forall r :: r in m.routes ==> r == RULE;
    assert R.NginxPath("/ws") == "/ws";
    N.AcceptsIff(m);
  }
}
