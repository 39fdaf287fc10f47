/** Exactly when HAProxy serves every path of a mapping by its longest matching rule. */
module HAProxyChoice {
  import opened Text
  import opened Model
  import opened HAProxyRender
  import opened HAProxyReading
  import opened HAProxyRoutes
  import HAProxyNames
  import R = Routes

  /** A validated mapping with route rules, whose ACL names are each declared once. */
  ghost predicate Routable(m: Mapping) {
    && IsHttp(m) && m.redirectTo == ""
    && R.ValidRules(m.routes) && ValidPathRoutes(m.pathRoutes)
    && AclsOnce(FrontendLines(m))
  }

  ghost predicate Enabled(m: Mapping, r: RouteRule) {
    r in m.routes && r.enabled
  }

  function AnswerOf(m: Mapping, r: RouteRule): Outcome {
    if r.redirect != "" then Redirected(r.redirect) else Sent(RuleBackend(m, r))
  }

  /** Every path some rule matches is served by the longest one, for clients of one kind. */
  ghost predicate FollowsLongest(m: Mapping, from: set<string>, upgrade: bool) {
    forall path, r :: R.Longest(m.routes, path, r) ==> Serve(FrontendLines(m), Request(path, from, upgrade)) == AnswerOf(m, r)
  }

  // ---- what the lookups find ----

  lemma {:induction false} FirstActingIs(rules: seq<RouteRule>, locs: seq<R.Loc>, path: string, redirects: bool)
    requires R.Descending(locs)
    ensures match FirstActing(rules, locs, path, redirects)
      case None => forall x :: x in locs && HasPrefix(path, x.path) ==> R.HasRedirect(rules, x.rule.id) != redirects
      case Some(l) =>
        && l in locs && HasPrefix(path, l.path) && R.HasRedirect(rules, l.rule.id) == redirects
        && forall x :: x in locs && HasPrefix(path, x.path) && R.HasRedirect(rules, x.rule.id) == redirects ==> |x.path| <= |l.path|
  {
    if locs != [] {
      R.DescendingTail(locs);
      FirstActingIs(rules, locs[1..], path, redirects);
    }
  }

  lemma FirstOfRules(rules: seq<RouteRule>, path: string, redirects: bool)
    ensures match FirstActing(rules, R.HaLocs(rules), path, redirects)
      case None => forall s :: s in rules && R.Matches(s, path) ==> R.HasRedirect(rules, s.id) != redirects
      case Some(l) =>
        && l.rule in rules && R.Matches(l.rule, path) && l.path == l.rule.path && R.HasRedirect(rules, l.rule.id) == redirects
        && forall s :: s in rules && R.Matches(s, path) && R.HasRedirect(rules, s.id) == redirects ==> |s.path| <= |l.path|
  {
    var locs := R.HaLocs(rules);
    R.SortedDescends(R.EnabledLocs(rules, false));
    FirstActingIs(rules, locs, path, redirects);
    forall s | s in rules && R.Matches(s, path) ensures R.Loc(s.path, s) in locs { R.HaLocMembers(rules, R.Loc(s.path, s)); }
    var first := FirstActing(rules, locs, path, redirects);
    if first.Some? {
      R.HaLocMembers(rules, first.value);
    } else {
      forall s | s in rules && R.Matches(s, path) ensures R.HasRedirect(rules, s.id) != redirects {
        assert R.Loc(s.path, s) in locs;
      }
    }
  }

  /** The longest rule of a path comes first among its own kind. */
  lemma LongestComesFirst(rules: seq<RouteRule>, path: string, r: RouteRule)
    requires R.ValidRules(rules) && R.Longest(rules, path, r)
    ensures FirstActing(rules, R.HaLocs(rules), path, R.HasRedirect(rules, r.id)) == Some(R.Loc(r.path, r))
  {
    FirstOfRules(rules, path, R.HasRedirect(rules, r.id));
    var l := FirstActing(rules, R.HaLocs(rules), path, R.HasRedirect(rules, r.id)).value;
    R.SameLengthSameRule(rules, path, l.rule, r);
  }

  /** The rule is found again under its id. */
  predicate FindsItself(m: Mapping, r: RouteRule) {
    R.HasRedirect(m.routes, r.id) == (r.redirect != "") && (r.redirect != "" ==> R.RedirectOf(m.routes, r.id) == r.redirect)
  }

  lemma {:induction false} RedirectFound(rules: seq<RouteRule>, r: RouteRule)
    requires r in rules && r.redirect != ""
    ensures R.HasRedirect(rules, r.id)
  {
    if rules[0] != r {
      assert r in rules[1..];
      RedirectFound(rules[1..], r);
    }
  }

  ghost predicate AllFindThemselves(m: Mapping) {
    forall r :: Enabled(m, r) ==> FindsItself(m, r)
  }

  ghost predicate IdsDiffer(rules: seq<RouteRule>) {
    forall i, j :: 0 <= i < j < |rules| ==> rules[i].id != rules[j].id
  }

  lemma {:induction false} LookupInOrder(rules: seq<RouteRule>, r: RouteRule)
    requires IdsDiffer(rules) && r in rules
    ensures R.HasRedirect(rules, r.id) == (r.redirect != "") && R.RedirectOf(rules, r.id) == r.redirect
  {
    if rules[0] == r {
      if r.redirect == "" { NoOtherId(rules[1..], r.id); }
    } else {
      var i :| 0 <= i < |rules| && rules[i] == r;
      assert rules[1..][i - 1] == r && rules[0].id != rules[i].id;
      LookupInOrder(rules[1..], r);
    }
  }

  lemma {:induction false} NoOtherId(rules: seq<RouteRule>, id: nat)
    requires forall i :: 0 <= i < |rules| ==> rules[i].id != id
    ensures !R.HasRedirect(rules, id)
  {
    if rules != [] { NoOtherId(rules[1..], id); }
  }

  /** They do when no two rules share an id. */
  lemma DifferentIdsFind(m: Mapping)
    requires IdsDiffer(m.routes)
    ensures AllFindThemselves(m)
  {
    forall r | Enabled(m, r) ensures FindsItself(m, r) { LookupInOrder(m.routes, r); }
  }

  ghost predicate NoRedirectMatches(m: Mapping, path: string) {
    forall s :: Enabled(m, s) && HasPrefix(path, s.path) ==> s.redirect == ""
  }

  lemma RedirectsMatching(m: Mapping, path: string)
    requires AllFindThemselves(m)
    ensures FirstActing(m.routes, R.HaLocs(m.routes), path, true) == None <==> NoRedirectMatches(m, path)
  {
    FirstOfRules(m.routes, path, true);
    var first := FirstActing(m.routes, R.HaLocs(m.routes), path, true);
    if first.Some? {
      assert Enabled(m, first.value.rule) && FindsItself(m, first.value.rule);
    } else {
      forall s | Enabled(m, s) && HasPrefix(path, s.path) ensures s.redirect == "" {
        assert R.Matches(s, path) && FindsItself(m, s);
      }
    }
  }

  // ---- one request ----

  ghost predicate ServedByLongest(m: Mapping, q: Request, r: RouteRule) {
    match Access(m.accessRules, q.from)
    case Refused => false
    case Admitted => r.redirect == ""
    case Unlisted => r.redirect != "" || (NoRedirectMatches(m, q.path) && !TurnedAway(m, q))
  }

  /** A request is answered as its longest rule says exactly when the access rules let it
      through and, for a redirect, do not end the rules early; for a proxy, nothing before
      it redirects or turns the request away. */
  lemma RuleServesIff(m: Mapping, q: Request, r: RouteRule)
    requires Routable(m) && AllFindThemselves(m) && R.Longest(m.routes, q.path, r)
    ensures Serve(FrontendLines(m), q) == AnswerOf(m, r) <==> ServedByLongest(m, q, r)
  {
    ServesAsExpected(m, q);
    assert Enabled(m, r) && FindsItself(m, r);
    LongestComesFirst(m.routes, q.path, r);
    RedirectsMatching(m, q.path);
  }

  // ---- every request ----

  ghost predicate UnderPrefix(m: Mapping, p: RouteRule) {
    m.pathPrefix != "" ==> HasPrefix(p.path, m.pathPrefix)
  }

  /** The path is strictly below `/prefix/port` of the route. */
  ghost predicate Below(pr: PathRoute, path: string) {
    exists d :: PortOf(pr, d) && HasPrefix(path, RouteHead(pr) + d + "/")
  }

  ghost predicate InsideRoutes(m: Mapping, p: RouteRule) {
    OnlyRoutes(m) ==> exists i :: 0 <= i < |m.pathRoutes| && Below(m.pathRoutes[i], p.path)
  }

  const DIGITS: seq<string> := ["0", "1", "2", "3", "4", "5", "6", "7", "8", "9"]

  /** The shortest port texts of a route: every longer one starts with one of them. */
  function FirstPorts(pr: PathRoute): seq<string> {
    if AnyPort(pr) then DIGITS else Ports(pr.minPort, pr.maxPort)
  }

  /** Some port of the route falls to the rule, and no redirect takes it away. */
  ghost predicate PortLeft(m: Mapping, pr: PathRoute, p: RouteRule) {
    || RouteTakes(pr, p.path)
    || exists d :: d in FirstPorts(pr) && HasPrefix(RouteHead(pr) + d, p.path) && NoRedirectMatches(m, RouteHead(pr) + d)
  }

  ghost predicate ClearOfGuards(m: Mapping, p: RouteRule) {
    forall i :: 0 <= i < |m.pathRoutes| && NeedsUpgrade(m.pathRoutes[i]) ==> !PortLeft(m, m.pathRoutes[i], p)
  }

  /** What stands between a proxying rule and its paths. */
  ghost predicate Open(m: Mapping, p: RouteRule, upgrade: bool) {
    UnderPrefix(m, p) && InsideRoutes(m, p) && (upgrade || ClearOfGuards(m, p))
  }

  ghost predicate NoneShadowed(m: Mapping) {
    forall r, p :: !R.RedirectShadowsProxy(m.routes, r, p)
  }

  ghost predicate Unhindered(m: Mapping, from: set<string>, upgrade: bool) {
    match Access(m.accessRules, from)
    case Refused => forall r :: !Enabled(m, r)
    case Admitted => AllFindThemselves(m) && forall r :: Enabled(m, r) ==> r.redirect == ""
    case Unlisted =>
      AllFindThemselves(m) && NoneShadowed(m) && forall p :: Enabled(m, p) && p.redirect == "" ==> Open(m, p, upgrade)
  }

  // ---- every request: enough ----

  lemma NoShorterRedirect(m: Mapping, path: string, p: RouteRule)
    requires R.ValidRules(m.routes) && NoneShadowed(m) && R.Longest(m.routes, path, p) && p.redirect == ""
    ensures NoRedirectMatches(m, path)
  {
    forall s | Enabled(m, s) && HasPrefix(path, s.path) ensures s.redirect == "" {
      assert R.Matches(s, path);
      if |s.path| == |p.path| {
        R.SameLengthSameRule(m.routes, path, s, p);
      } else {
        R.PrefixesNest(path, s.path, p.path);
        assert !R.RedirectShadowsProxy(m.routes, s, p);
      }
    }
  }

  lemma PrefixTrans(path: string, p: string, q: string)
    requires HasPrefix(path, p) && HasPrefix(p, q)
    ensures HasPrefix(path, q)
  {
    assert path[..|q|] == path[..|p|][..|q|];
  }

  lemma InsideIsTaken(m: Mapping, path: string, p: RouteRule)
    requires InsideRoutes(m, p) && OnlyRoutes(m) && HasPrefix(path, p.path)
    ensures RouteMatches(m, path)
  {
    var i :| 0 <= i < |m.pathRoutes| && Below(m.pathRoutes[i], p.path);
    var d :| PortOf(m.pathRoutes[i], d) && HasPrefix(p.path, RouteHead(m.pathRoutes[i]) + d + "/");
    var head := RouteHead(m.pathRoutes[i]) + d;
    PrefixTrans(path, p.path, head + "/");
    BelowIsAt(path, head);
  }

  lemma BelowIsAt(path: string, head: string)
    requires HasPrefix(path, head + "/")
    ensures AtOrBelow(path, head)
  {
    assert path[..|head|] == path[..|head| + 1][..|head|] == (head + "/")[..|head|];
    assert path[|head|] == path[..|head| + 1][|head|] == '/';
  }

  lemma AtOrBelowNests(path: string, head: string, p: string)
    requires AtOrBelow(path, head) && HasPrefix(path, p) && |p| >= |head|
    ensures AtOrBelow(p, head)
  {
    R.PrefixesNest(path, head, p);
    if |p| > |head| { assert p[|head|] == path[..|p|][|head|] == path[|head|]; }
  }

  /** A rule's path that is not taken itself ends before the port does. */
  lemma EndsBeforePort(pr: PathRoute, path: string, p: string, d: string)
    requires PortOf(pr, d) && AtOrBelow(path, RouteHead(pr) + d) && HasPrefix(path, p) && !RouteTakes(pr, p)
    ensures HasPrefix(RouteHead(pr) + d, p) && |p| < |RouteHead(pr) + d|
  {
    var head := RouteHead(pr) + d;
    if |p| >= |head| { AtOrBelowNests(path, head, p); }
    R.PrefixesNest(path, p, head);
  }

  lemma DigitListed(c: char)
    requires IsDigit(c)
    ensures [c] in DIGITS
  {
    var k := c as int - '0' as int;
    assert DIGITS[k] == [c];
  }

  lemma ShortestPort(pr: PathRoute, p: string, d: string)
    requires PortOf(pr, d) && HasPrefix(RouteHead(pr) + d, p) && !RouteTakes(pr, p) && |p| < |RouteHead(pr) + d|
    ensures exists e :: e in FirstPorts(pr) && HasPrefix(RouteHead(pr) + e, p) && HasPrefix(d, e)
  {
    if AnyPort(pr) {
      var head := RouteHead(pr);
      if |p| > |head| {
        var e := d[..|p| - |head|];
        assert p == (head + d)[..|p|] == head + e;
        assert PortOf(pr, e) && AtOrBelow(p, head + e);
      }
      var e := d[..1];
      assert e == [d[0]];
      DigitListed(d[0]);
      assert (head + e)[..|p|] == (head + d)[..|p|];
    } else {
      assert d[..|d|] == d;
    }
  }

  lemma GuardedMeansLeft(m: Mapping, i: nat, path: string, p: RouteRule)
    requires i < |m.pathRoutes| && RouteTakes(m.pathRoutes[i], path)
    requires HasPrefix(path, p.path) && NoRedirectMatches(m, path)
    ensures PortLeft(m, m.pathRoutes[i], p)
  {
    var pr := m.pathRoutes[i];
    if !RouteTakes(pr, p.path) {
      var d :| PortOf(pr, d) && AtOrBelow(path, RouteHead(pr) + d);
      EndsBeforePort(pr, path, p.path, d);
      ShortestPort(pr, p.path, d);
      var e :| e in FirstPorts(pr) && HasPrefix(RouteHead(pr) + e, p.path) && HasPrefix(d, e);
      HeadShorter(RouteHead(pr), d, e);
      PrefixTrans(path, RouteHead(pr) + d, RouteHead(pr) + e);
      forall s | Enabled(m, s) && HasPrefix(RouteHead(pr) + e, s.path) ensures s.redirect == "" {
        PrefixTrans(path, RouteHead(pr) + e, s.path);
      }
      assert NoRedirectMatches(m, RouteHead(pr) + e);
    }
  }

  lemma HeadShorter(head: string, d: string, e: string)
    requires HasPrefix(d, e)
    ensures HasPrefix(head + d, head + e)
  {
    assert (head + d)[..|head + e|] == head + d[..|e|];
  }

  lemma OpenServes(m: Mapping, q: Request, p: RouteRule)
    requires HasPrefix(q.path, p.path) && NoRedirectMatches(m, q.path) && Open(m, p, q.upgrade)
    ensures !TurnedAway(m, q)
  {
    if Guarded(m, q) {
      var i :| 0 <= i < |m.pathRoutes| && NeedsUpgrade(m.pathRoutes[i]) && RouteTakes(m.pathRoutes[i], q.path);
      GuardedMeansLeft(m, i, q.path, p);
    }
    if OnlyRoutes(m) { InsideIsTaken(m, q.path, p); }
    if m.pathPrefix != "" { PrefixTrans(q.path, p.path, m.pathPrefix); }
  }

  lemma UnhinderedFollows(m: Mapping, from: set<string>, upgrade: bool)
    requires Routable(m) && Unhindered(m, from, upgrade)
    ensures FollowsLongest(m, from, upgrade)
  {
    forall path, r | R.Longest(m.routes, path, r)
      ensures Serve(FrontendLines(m), Request(path, from, upgrade)) == AnswerOf(m, r)
    {
      var q := Request(path, from, upgrade);
      assert Enabled(m, r);
      RuleServesIff(m, q, r);
      if Access(m.accessRules, from) == Unlisted && r.redirect == "" {
        NoShorterRedirect(m, path, r);
        OpenServes(m, q, r);
      }
    }
  }

  // ---- every request: necessary ----

  lemma LongestAtOwnPath(m: Mapping, r: RouteRule)
    requires Enabled(m, r)
    ensures R.Longest(m.routes, r.path, r)
  {
    assert r.path[..|r.path|] == r.path;
  }

  /** One request answered otherwise is enough. */
  lemma Strays(m: Mapping, q: Request, r: RouteRule)
    requires R.Longest(m.routes, q.path, r) && Serve(FrontendLines(m), q) != AnswerOf(m, r)
    ensures !FollowsLongest(m, q.from, q.upgrade)
  {
    assert q == Request(q.path, q.from, q.upgrade);
  }

  lemma RefusedHinders(m: Mapping, from: set<string>, upgrade: bool, r: RouteRule)
    requires Routable(m) && Access(m.accessRules, from) == Refused && Enabled(m, r)
    ensures !FollowsLongest(m, from, upgrade)
  {
    var q := Request(r.path, from, upgrade);
    LongestAtOwnPath(m, r);
    ServesAsExpected(m, q);
    Strays(m, q, r);
  }

  /** Two enabled rules never share an ACL. */
  lemma RuleOfAcl(m: Mapping, r: RouteRule, s: RouteRule)
    requires Routable(m) && Enabled(m, r) && Enabled(m, s) && RuleAcl(m, r) == RuleAcl(m, s)
    ensures r == s
  {
    FrontendRead(m);
    R.HaLocMembers(m.routes, R.Loc(r.path, r));
    R.HaLocMembers(m.routes, R.Loc(s.path, s));
    RuleStmtsHave(m, R.HaLocs(m.routes), R.Loc(r.path, r));
    RuleStmtsHave(m, R.HaLocs(m.routes), R.Loc(s.path, s));
    StatementsParts(m);
    DeclaredOnce(Statements(m), Acl(RuleAcl(m, r), Beg(r.path)), Acl(RuleAcl(m, s), Beg(s.path)));
    var i :| 0 <= i < |m.routes| && m.routes[i] == r;
    var j :| 0 <= j < |m.routes| && m.routes[j] == s;
  }

  lemma OwnBackendOnly(m: Mapping, path: string, r: RouteRule)
    requires Routable(m) && Enabled(m, r) && R.HasRedirect(m.routes, r.id)
    ensures Backend(m, path) != RuleBackend(m, r)
  {
    FirstOfRules(m.routes, path, false);
    match FirstActing(m.routes, R.HaLocs(m.routes), path, false)
    case Some(l) =>
      if RuleBackend(m, l.rule) == RuleBackend(m, r) {
        HAProxyNames.SuffixSame(BackendName(m), R.RuleTag(l.rule.id), R.RuleTag(r.id));
        RuleOfAcl(m, l.rule, r);
      }
    case None =>
      assert RuleBackend(m, r)[|BackendName(m)| + 1] == R.RuleTag(r.id)[1] == 'r';
      assert DynName(m)[|BackendName(m)| + 1] == "_dyn"[1] == 'd';
      assert |RuleBackend(m, r)| > |BackendName(m)|;
  }

  lemma LookupStrays(m: Mapping, q: Request, r: RouteRule)
    requires Routable(m) && Enabled(m, r) && !FindsItself(m, r) && q.path == r.path
    ensures Serve(FrontendLines(m), q) != AnswerOf(m, r)
  {
    LongestAtOwnPath(m, r);
    ServesAsExpected(m, q);
    if r.redirect != "" { RedirectFound(m.routes, r); }
    LongestComesFirst(m.routes, r.path, r);
    OwnBackendOnly(m, r.path, r);
  }

  lemma LookupHinders(m: Mapping, from: set<string>, upgrade: bool, r: RouteRule)
    requires Routable(m) && Enabled(m, r) && !FindsItself(m, r)
    ensures !FollowsLongest(m, from, upgrade)
  {
    LongestAtOwnPath(m, r);
    LookupStrays(m, Request(r.path, from, upgrade), r);
    Strays(m, Request(r.path, from, upgrade), r);
  }

  /** A rule that does not answer a path it is the longest for. */
  lemma Hinders(m: Mapping, q: Request, r: RouteRule)
    requires Routable(m) && AllFindThemselves(m) && R.Longest(m.routes, q.path, r) && !ServedByLongest(m, q, r)
    ensures !FollowsLongest(m, q.from, q.upgrade)
  {
    RuleServesIff(m, q, r);
    Strays(m, q, r);
  }

  const TAB := "\t"

  /** Validated paths have no tab. */
  lemma LongestBeforeTab(m: Mapping, p: RouteRule)
    requires R.ValidRules(m.routes) && Enabled(m, p)
    ensures R.Longest(m.routes, p.path + TAB, p)
  {
    var path := p.path + TAB;
    assert path[..|p.path|] == p.path;
    forall s | s in m.routes && R.Matches(s, path) ensures |s.path| <= |p.path| { EndsBeforeTab(p.path, s.path); }
  }

  lemma EndsBeforeTab(p: string, s: string)
    requires HasPrefix(p + TAB, s) && R.Printable(s)
    ensures |s| <= |p|
  {
    assert forall i :: 0 <= i < |s| ==> s[i] == (p + TAB)[i];
    assert (p + TAB)[|p|] == '\t';
  }

  lemma PortIsDigits(pr: PathRoute, d: string)
    requires PortOf(pr, d)
    ensures d != [] && AllDigits(d)
  {
    if !AnyPort(pr) { PortsPlain(pr.minPort, pr.maxPort); }
  }

  lemma TabIsNoPort(pr: PathRoute, p: string)
    requires RouteTakes(pr, p + TAB)
    ensures Below(pr, p)
  {
    var d :| PortOf(pr, d) && AtOrBelow(p + TAB, RouteHead(pr) + d);
    var head, path := RouteHead(pr) + d, p + TAB;
    PortIsDigits(pr, d);
    assert IsDigit(head[|head| - 1]);
    assert path[|p|] == '\t' && forall k :: 0 <= k < |head| ==> head[k] == path[k];
    assert |head| < |p| && p[|head|] == path[|head|] == '/';
    assert p[..|head| + 1] == path[..|head| + 1] == head + "/";
  }

  lemma OutsideHinders(m: Mapping, from: set<string>, upgrade: bool, p: RouteRule)
    requires Routable(m) && AllFindThemselves(m) && Access(m.accessRules, from) == Unlisted
    requires Enabled(m, p) && p.redirect == "" && !(UnderPrefix(m, p) && InsideRoutes(m, p))
    ensures !FollowsLongest(m, from, upgrade)
  {
    LongestAtOwnPath(m, p);
    if UnderPrefix(m, p) && RouteMatches(m, p.path) {
      LongestBeforeTab(m, p);
      if RouteMatches(m, p.path + TAB) {
        var i :| 0 <= i < |m.pathRoutes| && RouteTakes(m.pathRoutes[i], p.path + TAB);
        TabIsNoPort(m.pathRoutes[i], p.path);
      }
      Hinders(m, Request(p.path + TAB, from, upgrade), p);
    } else {
      Hinders(m, Request(p.path, from, upgrade), p);
    }
  }

  lemma FirstPortsArePorts(pr: PathRoute, d: string)
    requires d in FirstPorts(pr)
    ensures PortOf(pr, d)
  {}

  lemma GuardHinders(m: Mapping, from: set<string>, i: nat, p: RouteRule)
    requires Routable(m) && AllFindThemselves(m) && Access(m.accessRules, from) == Unlisted
    requires Enabled(m, p) && p.redirect == "" && i < |m.pathRoutes| && NeedsUpgrade(m.pathRoutes[i]) && PortLeft(m, m.pathRoutes[i], p)
    ensures !FollowsLongest(m, from, false)
  {
    var pr := m.pathRoutes[i];
    if RouteTakes(pr, p.path) {
      LongestAtOwnPath(m, p);
      Hinders(m, Request(p.path, from, false), p);
    } else {
      var d :| d in FirstPorts(pr) && HasPrefix(RouteHead(pr) + d, p.path) && NoRedirectMatches(m, RouteHead(pr) + d);
      var path := RouteHead(pr) + d;
      FirstPortsArePorts(pr, d);
      assert path[..|path|] == path;
      assert AtOrBelow(path, path) && RouteTakes(pr, path);
      assert R.Matches(p, path);
      var r := R.LongestExists(m.routes, path);
      assert Enabled(m, r);
      Hinders(m, Request(path, from, false), r);
    }
  }

  lemma ShadowHinders(m: Mapping, from: set<string>, upgrade: bool, r: RouteRule, p: RouteRule)
    requires Routable(m) && AllFindThemselves(m) && Access(m.accessRules, from) == Unlisted
    requires R.RedirectShadowsProxy(m.routes, r, p)
    ensures !FollowsLongest(m, from, upgrade)
  {
    LongestAtOwnPath(m, p);
    assert Enabled(m, r) && HasPrefix(p.path, r.path);
    Hinders(m, Request(p.path, from, upgrade), p);
  }

  lemma AdmittedHinders(m: Mapping, from: set<string>, upgrade: bool, r: RouteRule)
    requires Routable(m) && AllFindThemselves(m) && Access(m.accessRules, from) == Admitted && Enabled(m, r) && r.redirect != ""
    ensures !FollowsLongest(m, from, upgrade)
  {
    LongestAtOwnPath(m, r);
    Hinders(m, Request(r.path, from, upgrade), r);
  }

  lemma HinderedStrays(m: Mapping, from: set<string>, upgrade: bool)
    requires Routable(m) && !Unhindered(m, from, upgrade)
    ensures !FollowsLongest(m, from, upgrade)
  {
    var access := Access(m.accessRules, from);
    if access == Refused {
      var r :| Enabled(m, r);
      RefusedHinders(m, from, upgrade, r);
    } else if !AllFindThemselves(m) {
      var r :| Enabled(m, r) && !FindsItself(m, r);
      LookupHinders(m, from, upgrade, r);
    } else if access == Admitted {
      var r :| Enabled(m, r) && r.redirect != "";
      AdmittedHinders(m, from, upgrade, r);
    } else if !NoneShadowed(m) {
      var r, p :| R.RedirectShadowsProxy(m.routes, r, p);
      ShadowHinders(m, from, upgrade, r, p);
    } else {
      var p :| Enabled(m, p) && p.redirect == "" && !Open(m, p, upgrade);
      if UnderPrefix(m, p) && InsideRoutes(m, p) {
        var i :| 0 <= i < |m.pathRoutes| && NeedsUpgrade(m.pathRoutes[i]) && PortLeft(m, m.pathRoutes[i], p);
        GuardHinders(m, from, i, p);
      } else {
        OutsideHinders(m, from, upgrade, p);
      }
    }
  }

  /** For the clients an access verdict admits, HAProxy serves every path by its longest
      matching rule exactly when each rule is found under its own id and: after an allow
      rule, no rule redirects; without one, no redirect shadows a longer proxy, and each
      proxying rule is under the path prefix, inside a path route if nothing else is
      served, and clear of the upgrade guards. A refused client is served no rule. */
  lemma FollowsLongestIff(m: Mapping, from: set<string>, upgrade: bool)
    requires Routable(m)
    ensures FollowsLongest(m, from, upgrade) <==> Unhindered(m, from, upgrade)
  {
    if Unhindered(m, from, upgrade) { UnhinderedFollows(m, from, upgrade); } else { HinderedStrays(m, from, upgrade); }
  }

  // ---- validated mappings that stray ----

  const BACKEND := Target("10.0.0.1", 8080, 1, false)

  const FRONT := Mapping(1, "front", true, HAProxy, Http, "0.0.0.0", 80, ["example.org"], None, "", false, false,
    [BACKEND], "", "", [], [], [], "", "", "", [])

  lemma FrontRoutable(m: Mapping)
    requires IsHttp(m) && m.redirectTo == "" && R.ValidRules(m.routes) && m.pathRoutes == [] && HAProxyNames.TagsDiffer(m.routes)
    ensures Routable(m)
  {
    HAProxyNames.AclsOnceIff(m);
  }

  /** A path prefix turns away a rule beside it. */
  lemma PrefixHidesRule()
    ensures var m := FRONT.(pathPrefix := "/x", routes := [RouteRule(1, "/a", true, [BACKEND], "")]);
      Routable(m) && Serve(FrontendLines(m), Request("/a", {}, true)) == Denied && !FollowsLongest(m, {}, true)
  {
    var r := RouteRule(1, "/a", true, [BACKEND], "");
    var m := FRONT.(pathPrefix := "/x", routes := [r]);
    R.OneRuleValid(r);
    assert m.routes[0] == r;
    FrontRoutable(m);
    LongestAtOwnPath(m, r);
    ServesAsExpected(m, Request("/a", {}, true));
    FirstOfRules(m.routes, "/a", true);
    assert !HasPrefix("/a", "/x");
    Strays(m, Request("/a", {}, true), r);
  }

  /** A redirect of `/` shadows a proxy of `/a`: redirects come before backends. */
  lemma MixedRulesDisagree()
    ensures var rules := [RouteRule(1, "/", true, [], "https://x"), RouteRule(2, "/a", true, [BACKEND], "")];
      var m := FRONT.(routes := rules); Routable(m) && !FollowsLongest(m, {}, true)
  {
    var r, p := RouteRule(1, "/", true, [], "https://x"), RouteRule(2, "/a", true, [BACKEND], "");
    var m := FRONT.(routes := [r, p]);
    R.TwoRulesValid(r, p);
    assert m.routes[0] == r && m.routes[1] == p;
    FrontRoutable(m);
    assert R.RedirectShadowsProxy(m.routes, r, p);
    FollowsLongestIff(m, {}, true);
  }

  /** For a client on the allow list, a redirect rule does nothing. */
  lemma AllowSkipsRedirect()
    ensures var m := FRONT.(accessRules := [AccessRule("allow", "10.0.0.0/8")], routes := [RouteRule(1, "/old", true, [], "https://x")]);
      Routable(m) && Serve(FrontendLines(m), Request("/old", {"10.0.0.0/8"}, true)) == Sent(BackendName(m))
  {
    var r := RouteRule(1, "/old", true, [], "https://x");
    var m := FRONT.(accessRules := [AccessRule("allow", "10.0.0.0/8")], routes := [r]);
    R.OneRuleValid(r);
    assert m.routes[0] == r;
    FrontRoutable(m);
    ServesAsExpected(m, Request("/old", {"10.0.0.0/8"}, true));
    RedirectFound(m.routes, r);
    FirstOfRules(m.routes, "/old", false);
    assert forall s :: s in m.routes ==> s == r;
  }

  /** A disabled redirect is found under the id of an enabled proxying rule. */
  lemma DisabledRedirectFound()
    ensures var rules := [RouteRule(1, "/a", true, [BACKEND], ""), RouteRule(1, "/b", false, [], "https://x")];
      var m := FRONT.(routes := rules); Routable(m) && !FollowsLongest(m, {}, true)
  {
    var r, d := RouteRule(1, "/a", true, [BACKEND], ""), RouteRule(1, "/b", false, [], "https://x");
    var m := FRONT.(routes := [r, d]);
    R.TwoRulesValid(r, d);
    assert m.routes[0] == r && m.routes[1] == d;
    assert HAProxyNames.TagsDiffer(m.routes);
    FrontRoutable(m);
    RedirectFound(m.routes, d);
    assert Enabled(m, r) && !FindsItself(m, r);
    FollowsLongestIff(m, {}, true);
  }

  lemma OneRouteValid(pr: PathRoute)
    requires pr.prefix != "" && forall i :: 0 <= i < |pr.prefix| ==> PrefixChar(pr.prefix[i])
    ensures ValidPathRoutes([pr])
  {
    assert forall x :: x in [pr] ==> x == pr;
  }

  /** A path route called like a rule's tag: one name for two ACLs, and validated. */
  lemma RouteCalledLikeRule()
    ensures var r, pr := RouteRule(1, "/a", true, [BACKEND], ""), PathRoute(WS, "r1", 0, 0);
      R.ValidRules([r]) && ValidPathRoutes([pr]) && !AclsOnce(FrontendLines(FRONT.(pathRoutes := [pr], routes := [r])))
  {
    var r, pr := RouteRule(1, "/a", true, [BACKEND], ""), PathRoute(WS, "r1", 0, 0);
    R.OneRuleValid(r);
    OneRouteValid(pr);
    assert pr in [pr] && r in [r];
    assert R.RuleTag(1) == "_" + "r1";
    assert HAProxyNames.TagUsed([r], "_" + pr.prefix);
    HAProxyNames.AclsOnceIff(FRONT.(pathRoutes := [pr], routes := [r]));
  }

  /** So is one called like the ACL of the upgrade guards, which it then disarms. */
  lemma RouteCalledUp()
    ensures var pr := PathRoute(WS, "up", 0, 0); ValidPathRoutes([pr]) && !AclsOnce(FrontendLines(FRONT.(pathRoutes := [pr])))
  {
    var pr := PathRoute(WS, "up", 0, 0);
    OneRouteValid(pr);
    assert [pr][0] == pr && NeedsUpgrade(pr) && pr in [pr];
    assert HAProxyNames.PrefixUsed([pr], "up");
    HAProxyNames.AclsOnceIff(FRONT.(pathRoutes := [pr]));
  }
}
