/** When HAProxy loads the backends of a printed haproxy.cfg: each is declared once, and
    each that a frontend uses is there. */
module HAProxyBackends {
  import opened Text
  import opened Model
  import opened HAProxyRender
  import opened HAProxyReading
  import opened HAProxyRoutes
  import HAProxyNames
  import R = Routes
  import Paths

  /** The backends a file declares. */
  function Declared(lines: seq<Line>): seq<string> {
    if lines == [] then []
    else if |lines[0]| >= 2 && lines[0][0] == "backend" then [lines[0][1]] + Declared(lines[1..])
    else Declared(lines[1..])
  }

  /** The backends its frontends send requests to. */
  function Used(lines: seq<Line>): seq<string> {
    if lines == [] then []
    else
      match ReadLine(lines[0])
      case Use(backend, _) => [backend] + Used(lines[1..])
      case Default(backend) => [backend] + Used(lines[1..])
      case _ => Used(lines[1..])
  }

  ghost predicate Loads(lines: seq<Line>) {
    Distinct(Declared(lines)) && forall n :: n in Used(lines) ==> n in Declared(lines)
  }

  lemma {:induction false} DeclaredAppend(x: seq<Line>, y: seq<Line>)
    ensures Declared(x + y) == Declared(x) + Declared(y)
  {
    if x == [] {
      assert x + y == y;
    } else {
      assert (x + y)[1..] == x[1..] + y;
      DeclaredAppend(x[1..], y);
    }
  }

  lemma {:induction false} UsedAppend(x: seq<Line>, y: seq<Line>)
    ensures Used(x + y) == Used(x) + Used(y)
  {
    if x == [] {
      assert x + y == y;
    } else {
      assert (x + y)[1..] == x[1..] + y;
      UsedAppend(x[1..], y);
    }
  }

  // ---- lines that declare and use nothing ----

  predicate Neutral(l: Line) {
    l == [] || (l[0] != "backend" && l[0] != "use_backend" && l[0] != "default_backend")
  }

  predicate AllNeutral(lines: seq<Line>) {
    forall i :: 0 <= i < |lines| ==> Neutral(lines[i])
  }

  lemma {:induction false} NeutralSilent(lines: seq<Line>)
    requires AllNeutral(lines)
    ensures Declared(lines) == [] && Used(lines) == []
  {
    if lines != [] {
      assert Neutral(lines[0]);
      NeutralSilent(lines[1..]);
    }
  }

  lemma PreambleNeutral()
    ensures AllNeutral(PREAMBLE) && AllNeutral(CLOSING)
  {
    assert AllNeutral(GLOBAL_BODY);
    assert AllNeutral(DEFAULTS_BODY);
  }

  lemma HeadNeutral(m: Mapping, p: Paths.Paths)
    requires m.protocol == Https ==> m.sslCert.Some?
    ensures AllNeutral(FrontendHead(m, p))
  {}

  lemma {:induction false} AccessNeutral(rules: seq<AccessRule>, tcpMode: bool)
    ensures AllNeutral(AccessLinesOf(rules, tcpMode))
  {
    if rules != [] {
      AccessNeutral(rules[1..], tcpMode);
      assert AccessLine(rules[0], tcpMode)[0] == if tcpMode then "tcp-request" else "http-request";
    }
  }

  lemma {:induction false} ServersNeutral(targets: seq<Target>, i: nat)
    ensures AllNeutral(ServerLines(targets, i))
  {
    if targets != [] {
      ServersNeutral(targets[1..], i + 1);
      assert ServerLine(i, targets[0])[0] == "server";
    }
  }

  lemma {:induction false} DynPortsNeutral(prs: seq<PathRoute>)
    ensures AllNeutral(DynPorts(prs))
  {
    if prs != [] { DynPortsNeutral(prs[1..]); }
  }

  // ---- backends ----

  /** What follows a backend's first line. */
  function Settings(m: Mapping, targets: seq<Target>, tcpMode: bool): seq<Line> {
    (if tcpMode then [["mode", "tcp"]] else [])
    + [["balance", if m.balance == "" then "roundrobin" else m.balance]]
    + (if !tcpMode && m.hostHeader != "" then [["http-request", "set-header", "Host", m.hostHeader]] else [])
    + ServerLines(targets, 0)
    + (if m.webSocket then [TUNNEL] else [])
    + [[]]
  }

  lemma SettingsNeutral(m: Mapping, targets: seq<Target>, tcpMode: bool)
    ensures AllNeutral(Settings(m, targets, tcpMode))
  {
    ServersNeutral(targets, 0);
  }

  lemma HeadedBy(be: string, rest: seq<Line>)
    requires AllNeutral(rest)
    ensures Declared([["backend", be]] + rest) == [be] && Used([["backend", be]] + rest) == []
  {
    NeutralSilent(rest);
    assert ([["backend", be]] + rest)[1..] == rest;
  }

  lemma BackendDeclared(be: string, m: Mapping, targets: seq<Target>, tcpMode: bool)
    ensures Declared(BackendLines(be, m, targets, tcpMode)) == [be] && Used(BackendLines(be, m, targets, tcpMode)) == []
  {
    SettingsNeutral(m, targets, tcpMode);
    HeadedBy(be, Settings(m, targets, tcpMode));
    BackendShape(be, m, targets, tcpMode);
  }

  lemma BackendShape(be: string, m: Mapping, targets: seq<Target>, tcpMode: bool)
    ensures BackendLines(be, m, targets, tcpMode) == [["backend", be]] + Settings(m, targets, tcpMode)
  {}

  function TargetNames(m: Mapping, rules: seq<RouteRule>): seq<string> {
    if rules == [] then []
    else if rules[0].enabled && rules[0].targets != [] then [RuleBackend(m, rules[0])] + TargetNames(m, rules[1..])
    else TargetNames(m, rules[1..])
  }

  lemma {:induction false} RouteBackendsDeclared(m: Mapping, rules: seq<RouteRule>)
    ensures Declared(RouteBackends(m, rules)) == TargetNames(m, rules) && Used(RouteBackends(m, rules)) == []
  {
    if rules != [] {
      var head, rest := RouteBackend(m, rules[0]), RouteBackends(m, rules[1..]);
      BackendDeclared(RuleBackend(m, rules[0]), m, rules[0].targets, false);
      DeclaredAppend(head, rest);
      UsedAppend(head, rest);
      RouteBackendsDeclared(m, rules[1..]);
    }
  }

  function DynTail(m: Mapping): seq<Line> {
    [["http-request", "set-dst-port", "var(txn.pgport)"], ["server", "dynamic", DynHost(m) + ":1"], []]
  }

  function DynSettings(m: Mapping): seq<Line> {
    [["mode", "http"], TUNNEL] + DynPorts(m.pathRoutes) + DynTail(m)
  }

  lemma DynSettingsNeutral(m: Mapping)
    ensures AllNeutral(DynSettings(m))
  {
    DynPortsNeutral(m.pathRoutes);
  }

  lemma DynShape(m: Mapping)
    ensures DynBackend(m) == [["backend", DynName(m)]] + DynSettings(m)
  {}

  lemma DynDeclared(m: Mapping)
    ensures Declared(DynBackend(m)) == [DynName(m)] && Used(DynBackend(m)) == []
  {
    DynSettingsNeutral(m);
    HeadedBy(DynName(m), DynSettings(m));
    DynShape(m);
  }

  // ---- frontends ----

  /** The rules that proxy, as the lookup by id has it. */
  function ProxyNames(m: Mapping, locs: seq<R.Loc>): seq<string> {
    if locs == [] then []
    else if R.HasRedirect(m.routes, locs[0].rule.id) then ProxyNames(m, locs[1..])
    else [RuleBackend(m, locs[0].rule)] + ProxyNames(m, locs[1..])
  }

  lemma {:induction false} ProxyNamesWhose(m: Mapping, locs: seq<R.Loc>, n: string)
    requires n in ProxyNames(m, locs)
    ensures exists l :: l in locs && !R.HasRedirect(m.routes, l.rule.id) && n == RuleBackend(m, l.rule)
  {
    if R.HasRedirect(m.routes, locs[0].rule.id) || n != RuleBackend(m, locs[0].rule) {
      ProxyNamesWhose(m, locs[1..], n);
      assert forall l :: l in locs[1..] ==> l in locs;
    }
  }

  lemma {:induction false} DirectivesUse(m: Mapping, locs: seq<R.Loc>)
    ensures var lines := DirectiveLines(R.HaDirectivesOf(FrontendName(m), BackendName(m), m.routes, locs));
      Declared(lines) == [] && Used(lines) == ProxyNames(m, locs)
  {
    if locs != [] {
      var ds := R.HaRuleDirectives(FrontendName(m), BackendName(m), m.routes, locs[0]);
      var rest := R.HaDirectivesOf(FrontendName(m), BackendName(m), m.routes, locs[1..]);
      PairLines(ds, rest);
      DeclaredAppend([DirectiveLine(ds[0]), DirectiveLine(ds[1])], DirectiveLines(rest));
      UsedAppend([DirectiveLine(ds[0]), DirectiveLine(ds[1])], DirectiveLines(rest));
      PairUses(m, locs[0]);
      DirectivesUse(m, locs[1..]);
    }
  }

  lemma PairUses(m: Mapping, l: R.Loc)
    ensures var ds := R.HaRuleDirectives(FrontendName(m), BackendName(m), m.routes, l);
      var pair := [DirectiveLine(ds[0]), DirectiveLine(ds[1])];
      Declared(pair) == [] && Used(pair) == if R.HasRedirect(m.routes, l.rule.id) then [] else [RuleBackend(m, l.rule)]
  {
    var ds := R.HaRuleDirectives(FrontendName(m), BackendName(m), m.routes, l);
    var x, y := DirectiveLine(ds[0]), DirectiveLine(ds[1]);
    assert [x, y] == [x] + [y];
    DeclaredAppend([x], [y]);
    UsedAppend([x], [y]);
    assert Neutral(x);
    NeutralSilent([x]);
    if R.HasRedirect(m.routes, l.rule.id) {
      assert Neutral(y);
      NeutralSilent([y]);
    } else {
      UseOnly(RuleBackend(m, l.rule), ["if", RuleAcl(m, l.rule)]);
      assert y == ["use_backend", RuleBackend(m, l.rule)] + ["if", RuleAcl(m, l.rule)];
    }
  }

  lemma UseOnly(be: string, words: seq<string>)
    ensures var lines := [["use_backend", be] + words]; Declared(lines) == [] && Used(lines) == [be]
  {
    UseLineRead(be, words);
    var lines := [["use_backend", be] + words];
    assert lines[1..] == [] && lines[0][0] == "use_backend";
  }

  lemma DefaultOnly(be: string)
    ensures var lines := [["default_backend", be]]; Declared(lines) == [] && Used(lines) == [be]
  {
    var lines: seq<Line> := [["default_backend", be]];
    assert lines[1..] == [] && lines[0][0] == "default_backend";
  }

  lemma {:induction false} PathAclsNeutral(fe: string, prs: seq<PathRoute>)
    ensures AllNeutral(PathAcls(fe, prs)) && AllNeutral(UpgradeGuards(fe, prs))
  {
    if prs != [] { PathAclsNeutral(fe, prs[1..]); }
  }

  lemma UpgradeNeutral(m: Mapping)
    ensures AllNeutral(UpgradeLines(m)) && AllNeutral(OnlyLines(m))
  {
    PathAclsNeutral(FrontendName(m), m.pathRoutes);
    assert (["http-request", "deny", "deny_status", "404", "if"] + NoneOf(FrontendName(m), m.pathRoutes))[0] == "http-request";
  }

  lemma DynUseLine(m: Mapping)
    ensures DynUse(m) == [["use_backend", DynName(m)] + (["if"] + AnyOf(FrontendName(m), m.pathRoutes))]
  {
    assert DynUse(m)[0] == ["use_backend", DynName(m)] + (["if"] + AnyOf(FrontendName(m), m.pathRoutes));
  }

  lemma DynUses(m: Mapping)
    ensures Declared(DynUse(m)) == [] && Used(DynUse(m)) == [DynName(m)]
  {
    DynUseLine(m);
    UseOnly(DynName(m), ["if"] + AnyOf(FrontendName(m), m.pathRoutes));
  }

  lemma RouteSides(m: Mapping)
    ensures Declared(PathAcls(FrontendName(m), m.pathRoutes)) == [] && Used(PathAcls(FrontendName(m), m.pathRoutes)) == []
    ensures Declared(UpgradeLines(m)) == [] && Used(UpgradeLines(m)) == []
    ensures Declared(OnlyLines(m)) == [] && Used(OnlyLines(m)) == []
  {
    PathAclsNeutral(FrontendName(m), m.pathRoutes);
    UpgradeNeutral(m);
    NeutralSilent(PathAcls(FrontendName(m), m.pathRoutes));
    NeutralSilent(UpgradeLines(m));
    NeutralSilent(OnlyLines(m));
  }

  lemma RoutesUse(m: Mapping)
    ensures Declared(PathRouteLines(m)) == [] && Used(PathRouteLines(m)) == if m.pathRoutes == [] then [] else [DynName(m)]
  {
    if m.pathRoutes != [] {
      RouteLineParts(m);
      DynUses(m);
      RouteSides(m);
      FourParts(PathAcls(FrontendName(m), m.pathRoutes), UpgradeLines(m), DynUse(m), OnlyLines(m));
    }
  }

  lemma FourParts(a: seq<Line>, b: seq<Line>, c: seq<Line>, d: seq<Line>)
    ensures Declared(a + b + c + d) == Declared(a) + Declared(b) + Declared(c) + Declared(d)
    ensures Used(a + b + c + d) == Used(a) + Used(b) + Used(c) + Used(d)
  {
    DeclaredAppend(a, b);
    DeclaredAppend(a + b, c);
    DeclaredAppend(a + b + c, d);
    UsedAppend(a, b);
    UsedAppend(a + b, c);
    UsedAppend(a + b + c, d);
  }

  lemma PrefixUses(m: Mapping)
    ensures Declared(PathPrefixLines(m)) == [] && Used(PathPrefixLines(m)) == if m.pathPrefix == "" then [] else [BackendName(m)]
  {
    if m.pathPrefix != "" {
      var acl: seq<Line> := [["acl", PathAcl(m), "path_beg", m.pathPrefix]];
      var use: seq<Line> := [["use_backend", BackendName(m), "if", PathAcl(m)]];
      var deny: seq<Line> := [["http-request", "deny", "deny_status", "404", "if", "!" + PathAcl(m)]];
      assert "!" + FrontendName(m) + "_path" == "!" + PathAcl(m);
      assert PathPrefixLines(m) == acl + use + deny + [];
      assert use[0] == ["use_backend", BackendName(m)] + ["if", PathAcl(m)];
      UseOnly(BackendName(m), ["if", PathAcl(m)]);
      NeutralSilent(acl);
      NeutralSilent(deny);
      FourParts(acl, use, deny, []);
    }
  }

  /** The backends a mapping's frontend may send to. */
  ghost predicate MaySend(m: Mapping, n: string) {
    || n == BackendName(m)
    || (HasDyn(m) && n == DynName(m))
    || (IsHttp(m) && exists r :: r in m.routes && r.enabled && !R.HasRedirect(m.routes, r.id) && n == RuleBackend(m, r))
  }

  function FrontendUses(m: Mapping): seq<string> {
    ProxyNames(m, R.HaLocs(m.routes)) + (if m.pathRoutes == [] then [] else [DynName(m)])
    + (if m.pathPrefix == "" then [] else [BackendName(m)]) + [BackendName(m)]
  }

  lemma FrontendUsesThese(m: Mapping)
    requires IsHttp(m) && m.redirectTo == ""
    ensures Declared(RoutingLines(m)) == [] && Used(RoutingLines(m)) == FrontendUses(m)
  {
    DirectivesUse(m, R.HaLocs(m.routes));
    RoutesUse(m);
    PrefixUses(m);
    DefaultOnly(BackendName(m));
    FourParts(DirectiveLines(R.HaDirectives(FrontendName(m), BackendName(m), m.routes)), PathRouteLines(m), PathPrefixLines(m),
      [["default_backend", BackendName(m)]]);
  }

  lemma FrontendMaySend(m: Mapping, n: string)
    requires Rendered(m) && IsHttp(m) && m.redirectTo == "" && n in FrontendUses(m)
    ensures MaySend(m, n)
  {
    if n in ProxyNames(m, R.HaLocs(m.routes)) {
      ProxyNamesWhose(m, R.HaLocs(m.routes), n);
      var l :| l in R.HaLocs(m.routes) && !R.HasRedirect(m.routes, l.rule.id) && n == RuleBackend(m, l.rule);
      R.HaLocMembers(m.routes, l);
    }
  }

  lemma RoutingUses(m: Mapping, n: string)
    requires Rendered(m) && m.protocol != Udp
    ensures Declared(RoutingLines(m)) == [] && (n in Used(RoutingLines(m)) ==> MaySend(m, n))
  {
    if IsHttp(m) && m.redirectTo == "" {
      FrontendUsesThese(m);
      if n in FrontendUses(m) { FrontendMaySend(m, n); }
    } else if IsHttp(m) {
      NeutralSilent(RoutingLines(m));
    } else {
      DefaultOnly(BackendName(m));
    }
  }

  // ---- one mapping ----

  /** The backends a mapping declares, its dynamic one aside. */
  function NamesOf(m: Mapping): seq<string> {
    (if m.protocol == Tcp then [] else TargetNames(m, m.routes)) + [BackendName(m)]
  }

  function BackendPart(m: Mapping): seq<Line> {
    if m.protocol == Tcp then [] else RouteBackends(m, m.routes) + (if m.webSocket then [TUNNEL] else [])
  }

  lemma BackendPartDeclared(m: Mapping)
    ensures Declared(BackendPart(m)) == (if m.protocol == Tcp then [] else TargetNames(m, m.routes)) && Used(BackendPart(m)) == []
  {
    if m.protocol != Tcp {
      var tunnel: seq<Line> := if m.webSocket then [TUNNEL] else [];
      RouteBackendsDeclared(m, m.routes);
      NeutralSilent(tunnel);
      DeclaredAppend(RouteBackends(m, m.routes), tunnel);
      UsedAppend(RouteBackends(m, m.routes), tunnel);
    }
  }

  lemma FrontNeutral(m: Mapping, p: Paths.Paths)
    requires m.protocol == Https ==> m.sslCert.Some?
    ensures Declared(FrontendHead(m, p) + AccessLines(m, m.protocol == Tcp)) == []
    ensures Used(FrontendHead(m, p) + AccessLines(m, m.protocol == Tcp)) == []
  {
    HeadNeutral(m, p);
    AccessNeutral(m.accessRules, m.protocol == Tcp);
    NeutralSilent(FrontendHead(m, p) + AccessLines(m, m.protocol == Tcp));
  }

  lemma MappingDeclares(m: Mapping, p: Paths.Paths, n: string)
    requires Rendered(m) && Renderable(m)
    ensures Declared(MappingLines(m, p)) == NamesOf(m) && (n in Used(MappingLines(m, p)) ==> MaySend(m, n))
  {
    FrontNeutral(m, p);
    RoutingUses(m, n);
    BackendPartDeclared(m);
    BackendDeclared(BackendName(m), m, m.targets, m.protocol == Tcp);
    MappingShape(m, p);
    BackPair(FrontendHead(m, p) + AccessLines(m, m.protocol == Tcp), RoutingLines(m), BackendPart(m),
      BackendLines(BackendName(m), m, m.targets, m.protocol == Tcp));
  }

  lemma MappingShape(m: Mapping, p: Paths.Paths)
    requires m.protocol == Https ==> m.sslCert.Some?
    ensures MappingLines(m, p) == FrontendHead(m, p) + AccessLines(m, m.protocol == Tcp) + RoutingLines(m) + BackendPart(m)
      + BackendLines(BackendName(m), m, m.targets, m.protocol == Tcp)
  {}

  lemma BackPair(a: seq<Line>, b: seq<Line>, c: seq<Line>, d: seq<Line>)
    requires Declared(a) == [] && Used(a) == [] && Declared(b) == [] && Used(c) == [] && Used(d) == []
    ensures Declared(a + b + c + d) == Declared(c) + Declared(d) && Used(a + b + c + d) == Used(b)
  {
    FourParts(a, b, c, d);
    assert [] + [] + Declared(c) + Declared(d) == Declared(c) + Declared(d);
    assert [] + Used(b) + [] + [] == Used(b);
  }

  // ---- the whole file ----

  function MainNames(ms: seq<Mapping>): seq<string> {
    if ms == [] then [] else (if Rendered(ms[0]) then NamesOf(ms[0]) else []) + MainNames(ms[1..])
  }

  function DynNames(ms: seq<Mapping>): seq<string> {
    if ms == [] then [] else (if HasDyn(ms[0]) then [DynName(ms[0])] else []) + DynNames(ms[1..])
  }

  lemma {:induction false} MainDeclares(ms: seq<Mapping>, p: Paths.Paths, n: string)
    requires AllRenderable(ms)
    ensures Declared(MainLines(ms, p)) == MainNames(ms)
    ensures n in Used(MainLines(ms, p)) ==> exists m :: m in ms && Rendered(m) && MaySend(m, n)
  {
    if ms != [] {
      assert Renderable(ms[0]);
      if Rendered(ms[0]) { MappingDeclares(ms[0], p, n); }
      DeclaredAppend(MappingBlock(ms[0], p), MainLines(ms[1..], p));
      UsedAppend(MappingBlock(ms[0], p), MainLines(ms[1..], p));
      MainDeclares(ms[1..], p, n);
    }
  }

  lemma {:induction false} DynsDeclare(ms: seq<Mapping>)
    ensures Declared(DynLines(ms)) == DynNames(ms) && Used(DynLines(ms)) == []
  {
    if ms != [] {
      DynDeclared(ms[0]);
      DeclaredAppend(DynBlock(ms[0]), DynLines(ms[1..]));
      UsedAppend(DynBlock(ms[0]), DynLines(ms[1..]));
      DynsDeclare(ms[1..]);
    }
  }

  lemma FrameSilent()
    ensures Declared(PREAMBLE) == [] && Used(PREAMBLE) == [] && Declared(CLOSING) == [] && Used(CLOSING) == []
  {
    PreambleNeutral();
    NeutralSilent(PREAMBLE);
    NeutralSilent(CLOSING);
  }

  lemma Framed(a: seq<Line>, b: seq<Line>, c: seq<Line>, d: seq<Line>)
    requires Declared(a) == [] && Used(a) == [] && Declared(d) == [] && Used(d) == []
    ensures Declared(a + b + c + d) == Declared(b) + Declared(c) && Used(a + b + c + d) == Used(b) + Used(c)
  {
    FourParts(a, b, c, d);
    Bare(Declared(b), Declared(c));
    Bare(Used(b), Used(c));
  }

  lemma Bare(x: seq<string>, y: seq<string>)
    ensures [] + x + y + [] == x + y
  {}

  lemma ConfigDeclares(ms: seq<Mapping>, p: Paths.Paths, n: string)
    requires Config(ms, p).Some?
    ensures Declared(Config(ms, p).value) == MainNames(SortById(ms)) + DynNames(SortById(ms))
    ensures n in Used(Config(ms, p).value) ==> exists m :: m in SortById(ms) && Rendered(m) && MaySend(m, n)
  {
    var sorted := SortById(ms);
    FrameSilent();
    MainDeclares(sorted, p, n);
    DynsDeclare(sorted);
    Framed(PREAMBLE, MainLines(sorted, p), DynLines(sorted), CLOSING);
  }

  // ---- names apart ----

  /** What follows the mapping's id in a backend name. */
  predicate Suffix(s: string) {
    s == "" || s[0] == '_'
  }

  function LeadingDigits(s: string): nat {
    if s == [] || !IsDigit(s[0]) then 0 else 1 + LeadingDigits(s[1..])
  }

  lemma {:induction false} DigitsThen(a: string, s: string)
    requires AllDigits(a) && Suffix(s)
    ensures LeadingDigits(a + s) == |a|
  {
    if a == [] {
      assert a + s == s;
    } else {
      assert (a + s)[0] == a[0] && (a + s)[1..] == a[1..] + s;
      DigitsThen(a[1..], s);
    }
  }

  /** A backend name says whose it is, and which of the mapping's. */
  lemma NameParts(m: Mapping, k: Mapping, s: string, t: string)
    requires Suffix(s) && Suffix(t) && BackendName(m) + s == BackendName(k) + t
    ensures m.id == k.id && s == t
  {
    var x, y := Itoa(m.id) + s, Itoa(k.id) + t;
    assert BackendName(m) + s == "be_pg" + x && BackendName(k) + t == "be_pg" + y;
    assert ("be_pg" + x)[5..] == x && ("be_pg" + y)[5..] == y;
    DigitsThen(Itoa(m.id), s);
    DigitsThen(Itoa(k.id), t);
    assert x[..|Itoa(m.id)|] == Itoa(m.id) && y[..|Itoa(k.id)|] == Itoa(k.id);
    assert x[|Itoa(m.id)|..] == s && y[|Itoa(k.id)|..] == t;
    ItoaInjective(m.id, k.id);
  }

  /** The name is the mapping's own, and not that of its dynamic backend. */
  ghost predicate OwnStatic(m: Mapping, n: string) {
    exists s :: Suffix(s) && s != "_dyn" && n == BackendName(m) + s
  }

  lemma {:induction false} TargetNamesOwn(m: Mapping, rules: seq<RouteRule>, n: string)
    requires n in TargetNames(m, rules)
    ensures exists r :: r in rules && r.enabled && r.targets != [] && n == RuleBackend(m, r)
  {
    if rules[0].enabled && rules[0].targets != [] && n == RuleBackend(m, rules[0]) {
    } else {
      TargetNamesOwn(m, rules[1..], n);
      assert forall r :: r in rules[1..] ==> r in rules;
    }
  }

  lemma {:induction false} TargetNamesHave(m: Mapping, rules: seq<RouteRule>, r: RouteRule)
    requires r in rules && r.enabled && r.targets != []
    ensures RuleBackend(m, r) in TargetNames(m, rules)
  {
    if rules[0] != r {
      assert r in rules[1..];
      TargetNamesHave(m, rules[1..], r);
    }
  }

  lemma TagIsSuffix(id: nat)
    ensures Suffix(R.RuleTag(id)) && R.RuleTag(id) != "_dyn" && R.RuleTag(id) != ""
  {
    assert R.RuleTag(id)[0] == '_' && R.RuleTag(id)[1] == 'r' && "_dyn"[1] == 'd';
  }

  lemma NamesOfOwn(m: Mapping, n: string)
    requires n in NamesOf(m)
    ensures OwnStatic(m, n)
  {
    if n == BackendName(m) {
      assert n == BackendName(m) + "";
    } else {
      TargetNamesOwn(m, m.routes, n);
      var r :| r in m.routes && r.enabled && r.targets != [] && n == RuleBackend(m, r);
      TagIsSuffix(r.id);
    }
  }

  /** Enabled rules with targets differ in the tag of their id. */
  ghost predicate TargetTagsDiffer(rules: seq<RouteRule>) {
    forall i, j :: 0 <= i < j < |rules| && HasBackend(rules[i]) && HasBackend(rules[j]) ==> rules[i].id % 100000 != rules[j].id % 100000
  }

  predicate HasBackend(r: RouteRule) {
    r.enabled && r.targets != []
  }

  ghost predicate BackendTag(rules: seq<RouteRule>, tag: nat) {
    exists r :: r in rules && HasBackend(r) && r.id % 100000 == tag
  }

  lemma TargetTagsStep(rules: seq<RouteRule>)
    requires rules != []
    ensures TargetTagsDiffer(rules)
      <==> TargetTagsDiffer(rules[1..]) && (HasBackend(rules[0]) ==> !BackendTag(rules[1..], rules[0].id % 100000))
  {
    var rest := rules[1..];
    assert forall i :: 0 <= i < |rest| ==> rest[i] == rules[i + 1];
    if TargetTagsDiffer(rules) {
      forall i, j | 0 <= i < j < |rest| && HasBackend(rest[i]) && HasBackend(rest[j]) ensures rest[i].id % 100000 != rest[j].id % 100000 {
        assert HasBackend(rules[i + 1]) && HasBackend(rules[j + 1]);
      }
      forall r | r in rest && HasBackend(r) && HasBackend(rules[0]) ensures r.id % 100000 != rules[0].id % 100000 {
        var k :| 0 <= k < |rest| && rest[k] == r;
        assert HasBackend(rules[k + 1]);
      }
    } else {
      var i, j :| 0 <= i < j < |rules| && HasBackend(rules[i]) && HasBackend(rules[j]) && rules[i].id % 100000 == rules[j].id % 100000;
      assert rules[j] == rest[j - 1] && rest[j - 1] in rest;
      if i > 0 { assert HasBackend(rest[i - 1]) && HasBackend(rest[j - 1]); }
    }
  }

  lemma SameTag(m: Mapping, r: RouteRule, s: RouteRule)
    ensures RuleBackend(m, r) == RuleBackend(m, s) <==> r.id % 100000 == s.id % 100000
  {
    HAProxyNames.SameTag(r.id, s.id);
    if RuleBackend(m, r) == RuleBackend(m, s) { HAProxyNames.SuffixSame(BackendName(m), R.RuleTag(r.id), R.RuleTag(s.id)); }
  }

  lemma TargetNamesTag(m: Mapping, rules: seq<RouteRule>, r: RouteRule)
    ensures RuleBackend(m, r) in TargetNames(m, rules) <==> BackendTag(rules, r.id % 100000)
  {
    if RuleBackend(m, r) in TargetNames(m, rules) {
      TargetNamesOwn(m, rules, RuleBackend(m, r));
      var s :| s in rules && s.enabled && s.targets != [] && RuleBackend(m, r) == RuleBackend(m, s);
      SameTag(m, r, s);
    }
    if BackendTag(rules, r.id % 100000) {
      var s :| s in rules && HasBackend(s) && s.id % 100000 == r.id % 100000;
      TargetNamesHave(m, rules, s);
      SameTag(m, r, s);
    }
  }

  lemma {:induction false} TargetNamesDistinct(m: Mapping, rules: seq<RouteRule>)
    ensures Distinct(TargetNames(m, rules)) <==> TargetTagsDiffer(rules)
  {
    if rules != [] {
      TargetNamesDistinct(m, rules[1..]);
      TargetTagsStep(rules);
      TargetNamesTag(m, rules[1..], rules[0]);
      DistinctCons(RuleBackend(m, rules[0]), TargetNames(m, rules[1..]));
    }
  }

  lemma NamesOfDistinct(m: Mapping)
    requires m.protocol != Udp
    ensures Distinct(NamesOf(m)) <==> (IsHttp(m) ==> TargetTagsDiffer(m.routes))
  {
    TargetNamesDistinct(m, m.routes);
    DistinctConcat(TargetNames(m, m.routes), [BackendName(m)]);
    forall n | n in TargetNames(m, m.routes) ensures n != BackendName(m) {
      TargetNamesOwn(m, m.routes, n);
      var r :| r in m.routes && r.enabled && r.targets != [] && n == RuleBackend(m, r);
      TagIsSuffix(r.id);
      assert |n| > |BackendName(m)|;
    }
  }

  // ---- no name twice, nothing missing ----

  lemma {:induction false} MainNamesWhose(ms: seq<Mapping>, n: string)
    requires n in MainNames(ms)
    ensures exists m :: m in ms && Rendered(m) && n in NamesOf(m)
  {
    if !(Rendered(ms[0]) && n in NamesOf(ms[0])) {
      MainNamesWhose(ms[1..], n);
      assert forall m :: m in ms[1..] ==> m in ms;
    }
  }

  lemma {:induction false} MainNamesHave(ms: seq<Mapping>, m: Mapping, n: string)
    requires m in ms && Rendered(m) && n in NamesOf(m)
    ensures n in MainNames(ms)
  {
    if m != ms[0] {
      assert m in ms[1..];
      MainNamesHave(ms[1..], m, n);
    }
  }

  lemma {:induction false} DynNamesWhose(ms: seq<Mapping>, n: string)
    requires n in DynNames(ms)
    ensures exists m :: m in ms && HasDyn(m) && n == DynName(m)
  {
    if !(HasDyn(ms[0]) && n == DynName(ms[0])) {
      DynNamesWhose(ms[1..], n);
      assert forall m :: m in ms[1..] ==> m in ms;
    }
  }

  lemma {:induction false} DynNamesHave(ms: seq<Mapping>, m: Mapping)
    requires m in ms && HasDyn(m)
    ensures DynName(m) in DynNames(ms)
  {
    if m != ms[0] {
      assert m in ms[1..];
      DynNamesHave(ms[1..], m);
    }
  }

  lemma OthersElsewhere(ms: seq<Mapping>, n: string)
    requires ms != [] && DistinctIds(ms) && n in MainNames(ms[1..])
    ensures n !in NamesOf(ms[0])
  {
    MainNamesWhose(ms[1..], n);
    var k :| k in ms[1..] && Rendered(k) && n in NamesOf(k);
    var i :| 0 <= i < |ms[1..]| && ms[1..][i] == k;
    assert ms[i + 1] == k;
    NamesOfOwn(k, n);
    var s :| Suffix(s) && s != "_dyn" && n == BackendName(k) + s;
    if n in NamesOf(ms[0]) {
      NamesOfOwn(ms[0], n);
      var t :| Suffix(t) && t != "_dyn" && n == BackendName(ms[0]) + t;
      NameParts(k, ms[0], s, t);
    }
  }

  lemma {:induction false} MainDistinct(ms: seq<Mapping>)
    requires DistinctIds(ms)
    ensures Distinct(MainNames(ms)) <==> forall m :: m in ms && Rendered(m) ==> Distinct(NamesOf(m))
  {
    if ms != [] {
      MainDistinct(ms[1..]);
      HeadTail(ms);
      if Rendered(ms[0]) {
        DistinctConcat(NamesOf(ms[0]), MainNames(ms[1..]));
        forall n | n in MainNames(ms[1..]) ensures n !in NamesOf(ms[0]) { OthersElsewhere(ms, n); }
      } else {
        assert [] + MainNames(ms[1..]) == MainNames(ms[1..]);
      }
    }
  }

  lemma DynDiffers(m: Mapping, k: Mapping)
    requires DynName(m) == DynName(k)
    ensures m.id == k.id
  {
    NameParts(m, k, "_dyn", "_dyn");
  }

  lemma {:induction false} DynDistinct(ms: seq<Mapping>)
    requires DistinctIds(ms)
    ensures Distinct(DynNames(ms))
  {
    if ms != [] {
      DynDistinct(ms[1..]);
      DistinctCons(DynName(ms[0]), DynNames(ms[1..]));
      if DynName(ms[0]) in DynNames(ms[1..]) {
        DynNamesWhose(ms[1..], DynName(ms[0]));
        var k :| k in ms[1..] && HasDyn(k) && DynName(ms[0]) == DynName(k);
        DynDiffers(ms[0], k);
      }
    }
  }

  lemma DynElsewhere(ms: seq<Mapping>, n: string)
    requires n in DynNames(ms)
    ensures n !in MainNames(ms)
  {
    DynNamesWhose(ms, n);
    var m :| m in ms && HasDyn(m) && n == DynName(m);
    if n in MainNames(ms) {
      MainNamesWhose(ms, n);
      var k :| k in ms && Rendered(k) && n in NamesOf(k);
      NamesOfOwn(k, n);
      var s :| Suffix(s) && s != "_dyn" && n == BackendName(k) + s;
      NameParts(m, k, "_dyn", s);
    }
  }

  lemma {:induction false} NoRedirectOwn(rules: seq<RouteRule>, r: RouteRule)
    requires r in rules && !R.HasRedirect(rules, r.id)
    ensures r.redirect == ""
  {
    if rules[0] != r {
      assert r in rules[1..];
      NoRedirectOwn(rules[1..], r);
    }
  }

  /** Whatever a validated mapping sends to is declared. */
  lemma SentIsDeclared(ms: seq<Mapping>, m: Mapping, n: string)
    requires m in ms && Rendered(m) && MaySend(m, n) && m.protocol != Udp && (IsHttp(m) ==> R.ValidRules(m.routes))
    ensures n in MainNames(ms) + DynNames(ms)
  {
    if n == BackendName(m) {
      MainNamesHave(ms, m, n);
    } else if HasDyn(m) && n == DynName(m) {
      DynNamesHave(ms, m);
    } else {
      var r :| r in m.routes && r.enabled && !R.HasRedirect(m.routes, r.id) && n == RuleBackend(m, r);
      NoRedirectOwn(m.routes, r);
      TargetNamesHave(m, m.routes, r);
      MainNamesHave(ms, m, n);
    }
  }

  /** HAProxy loads the backends of a printed file of validated mappings exactly when, in
      each, the enabled rules with targets have ids that differ modulo 100000. */
  lemma LoadsIff(ms: seq<Mapping>, p: Paths.Paths)
    requires DistinctIds(ms) && Config(ms, p).Some?
    requires forall m :: m in ms && Rendered(m) && IsHttp(m) ==> R.ValidRules(m.routes)
    ensures Loads(Config(ms, p).value) <==> forall m :: m in ms && Rendered(m) && IsHttp(m) ==> TargetTagsDiffer(m.routes)
  {
    var sorted := SortById(ms);
    SortKeepsDistinct(ms);
    forall m ensures m in sorted <==> m in ms { SortByIdMembers(ms, m); }
    forall m | m in sorted && Rendered(m) ensures m.protocol != Udp { SortedRenderable(ms, m); }
    UsedIsDeclared(ms, p);
    ConfigDeclares(ms, p, "");
    MainDistinct(sorted);
    DynDistinct(sorted);
    DistinctConcat(MainNames(sorted), DynNames(sorted));
    forall n | n in DynNames(sorted) ensures n !in MainNames(sorted) { DynElsewhere(sorted, n); }
    forall m | m in sorted && Rendered(m) ensures Distinct(NamesOf(m)) <==> (IsHttp(m) ==> TargetTagsDiffer(m.routes)) { NamesOfDistinct(m); }
  }

  lemma SortedRenderable(ms: seq<Mapping>, m: Mapping)
    requires AllRenderable(SortById(ms)) && m in SortById(ms) && Rendered(m)
    ensures m.protocol != Udp
  {
    var i :| 0 <= i < |SortById(ms)| && SortById(ms)[i] == m;
    assert Renderable(SortById(ms)[i]);
  }

  lemma UsedIsDeclared(ms: seq<Mapping>, p: Paths.Paths)
    requires Config(ms, p).Some?
    requires forall m :: m in ms && Rendered(m) && IsHttp(m) ==> R.ValidRules(m.routes)
    ensures forall n :: n in Used(Config(ms, p).value) ==> n in Declared(Config(ms, p).value)
  {
    forall n | n in Used(Config(ms, p).value) ensures n in Declared(Config(ms, p).value) {
      ConfigDeclares(ms, p, n);
      var m :| m in SortById(ms) && Rendered(m) && MaySend(m, n);
      SortByIdMembers(ms, m);
      SortedRenderable(ms, m);
      SentIsDeclared(SortById(ms), m, n);
    }
  }

  lemma OneSorted(m: Mapping, p: Paths.Paths)
    requires Renderable(m)
    ensures Config([m], p).Some?
  {
    SortOne(m);
  }

  /** Two validated rules whose ids were left out, and so are both 0. */
  lemma EqualIdsAreRefused(m: Mapping, p: Paths.Paths)
    requires m.enabled && m.engine == HAProxy && m.protocol == Http
    requires |m.routes| == 2 && m.routes[0].id == 0 == m.routes[1].id && HasBackend(m.routes[0]) && HasBackend(m.routes[1])
    requires m.routes[0].path == "/a" && m.routes[1].path == "/b"
    ensures R.ValidRules(m.routes) && Config([m], p).Some? && !Loads(Config([m], p).value)
  {
    R.TwoRulesValid(m.routes[0], m.routes[1]);
    assert m.routes == [m.routes[0], m.routes[1]];
    OneSorted(m, p);
    assert !TargetTagsDiffer(m.routes);
    assert m in [m] && forall x :: x in [m] ==> x == m;
    LoadsIff([m], p);
  }
}
