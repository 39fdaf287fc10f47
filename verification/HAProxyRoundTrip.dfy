/** Rendering mappings as haproxy.cfg, parsing it and converting it back gives the
    mappings again. */
module HAProxyRoundTrip {
  import opened Text
  import opened Model
  import opened Import
  import opened HAProxyParser
  import opened HAProxyTokens
  import opened HAProxyBlocks
  import HR = HAProxyRender
  import R = Routes
  import Paths

  // ---- what a frontend does ----

  ghost predicate AllAddRules(lines: seq<Line>) {
    forall i :: 0 <= i < |lines| ==> AddsRules(lines[i])
  }

  ghost predicate AllQuiet(lines: seq<Line>) {
    forall i :: 0 <= i < |lines| ==> QuietFront(lines[i])
  }

  lemma AllAddRulesAppend(x: seq<Line>, y: seq<Line>)
    requires AllAddRules(x) && AllAddRules(y)
    ensures AllAddRules(x + y)
  {}

  lemma OneLineAddsRules(line: Line)
    requires line != [] && (PlainHead(line[0]) || line[0] == "use_backend")
    ensures AllAddRules([line])
  {
    if PlainHead(line[0]) { PlainHeadQuiet(line); } else { UseLineAddsRules(line); }
  }

  lemma {:induction false} AccessQuiet(rules: seq<AccessRule>, tcpMode: bool)
    ensures AllQuiet(HR.AccessLinesOf(rules, tcpMode))
  {
    if rules != [] {
      var line := HR.AccessLine(rules[0], tcpMode);
      assert line[0] == if tcpMode then "tcp-request" else "http-request";
      PlainHeadQuiet(line);
      AccessQuiet(rules[1..], tcpMode);
    }
  }

  lemma AccessLinesQuiet(m: Mapping, tcpMode: bool)
    ensures AllQuiet(HR.AccessLines(m, tcpMode))
  {
    AccessQuiet(m.accessRules, tcpMode);
    PlainHeadQuiet(["tcp-request", "connection", "reject"]);
    PlainHeadQuiet(["http-request", "deny"]);
  }

  lemma {:induction false} DirectivesAddRules(ds: seq<R.HaDirective>)
    ensures AllAddRules(HR.DirectiveLines(ds))
  {
    if ds != [] {
      OneLineAddsRules(HR.DirectiveLine(ds[0]));
      DirectivesAddRules(ds[1..]);
      AllAddRulesAppend([HR.DirectiveLine(ds[0])], HR.DirectiveLines(ds[1..]));
    }
  }

  lemma {:induction false} PathAclsAddRules(fe: string, prs: seq<PathRoute>)
    ensures AllAddRules(HR.PathAcls(fe, prs))
  {
    if prs != [] {
      var line := ["acl", fe + "_" + prs[0].prefix, "path_reg", HR.PathPattern(prs[0])];
      OneLineAddsRules(line);
      PathAclsAddRules(fe, prs[1..]);
      AllAddRulesAppend([line], HR.PathAcls(fe, prs[1..]));
    }
  }

  lemma {:induction false} GuardsAddRules(fe: string, prs: seq<PathRoute>)
    ensures AllAddRules(HR.UpgradeGuards(fe, prs))
  {
    if prs != [] {
      var line := ["http-request", "deny", "deny_status", "404", "if", fe + "_" + prs[0].prefix, "!" + fe + "_up"];
      OneLineAddsRules(line);
      GuardsAddRules(fe, prs[1..]);
      AllAddRulesAppend(if HR.NeedsUpgrade(prs[0]) then [line] else [], HR.UpgradeGuards(fe, prs[1..]));
    }
  }

  lemma PathRoutesAddRules(m: Mapping)
    ensures AllAddRules(HR.PathRouteLines(m))
  {
    var fe := HR.FrontendName(m);
    if m.pathRoutes != [] {
      var up: Line := ["acl", fe + "_up", "req.hdr(Upgrade)", "-m", "found"];
      var use: Line := ["use_backend", HR.BackendName(m) + "_dyn", "if"] + HR.AnyOf(fe, m.pathRoutes);
      var deny: Line := ["http-request", "deny", "deny_status", "404", "if"] + HR.NoneOf(fe, m.pathRoutes);
      PathAclsAddRules(fe, m.pathRoutes);
      GuardsAddRules(fe, m.pathRoutes);
      OneLineAddsRules(up);
      OneLineAddsRules(use);
      OneLineAddsRules(deny);
      AllAddRulesAppend([up], HR.UpgradeGuards(fe, m.pathRoutes));
    }
  }

  lemma PathPrefixAddsRules(m: Mapping)
    ensures AllAddRules(HR.PathPrefixLines(m))
  {
    var fe := HR.FrontendName(m);
    var acl: Line := ["acl", fe + "_path", "path_beg", m.pathPrefix];
    var use: Line := ["use_backend", HR.BackendName(m), "if", fe + "_path"];
    var deny: Line := ["http-request", "deny", "deny_status", "404", "if", "!" + fe + "_path"];
    OneLineAddsRules(acl);
    OneLineAddsRules(use);
    OneLineAddsRules(deny);
    AllAddRulesAppend([acl], [use]);
    AllAddRulesAppend([acl] + [use], [deny]);
    if m.pathPrefix != "" { assert HR.PathPrefixLines(m) == [acl] + [use] + [deny]; }
  }

  /** What a mapping's frontend parses to. */
  ghost predicate RoutesFor(f: Frontend, m: Mapping) {
    && ListensFor(f, m)
    && if IsHttp(m) && m.redirectTo != "" then f.defaultBackend == "" && f.rules == []
       else f.defaultBackend == HR.BackendName(m)
  }

  lemma NewFrontFacts(p: Parser, f: Frontend, g: Frontend)
    ensures AtFront(WithNewFront(p, f)) && LastFront(WithNewFront(p, f)) == f
    ensures WithFront(WithNewFront(p, f), g) == WithNewFront(p, g)
  {
    var fs := p.cfg.frontends;
    assert (fs + [f])[..|fs|] == fs;
  }

  lemma DefaultRun(p: Parser, m: Mapping, f: Frontend)
    ensures Run(WithNewFront(p, f), [["default_backend", HR.BackendName(m)]]) == WithNewFront(p, f.(defaultBackend := HR.BackendName(m)))
  {
    var line: Line := ["default_backend", HR.BackendName(m)];
    BackendNameLower(m);
    DefaultLineFront(f, HR.BackendName(m));
    assert FrontendLine(f, line) == f.(defaultBackend := HR.BackendName(m));
    Run1(WithNewFront(p, f), line);
    NewFrontStep(p, f, line);
  }

  lemma RoutingRun(p: Parser, m: Mapping, f: Frontend) returns (g: Frontend)
    requires ListensFor(f, m) && f.defaultBackend == "" && f.rules == [] && m.protocol != Udp
    ensures RoutesFor(g, m)
    ensures Run(WithNewFront(p, f), HR.RoutingLines(m)) == WithNewFront(p, g)
  {
    var q := WithNewFront(p, f);
    NewFrontFacts(p, f, f);
    if m.protocol == Tcp {
      DefaultRun(p, m, f);
      g := f.(defaultBackend := HR.BackendName(m));
    } else if m.redirectTo != "" {
      var line: Line := ["http-request", "redirect", "location", m.redirectTo, "code", "301"];
      PlainHeadQuiet(line);
      QuietRun(q, [line]);
      g := f;
    } else {
      var d := HR.DirectiveLines(R.HaDirectives(HR.FrontendName(m), HR.BackendName(m), m.routes));
      var lines := d + HR.PathRouteLines(m) + HR.PathPrefixLines(m);
      DirectivesAddRules(R.HaDirectives(HR.FrontendName(m), HR.BackendName(m), m.routes));
      PathRoutesAddRules(m);
      PathPrefixAddsRules(m);
      AllAddRulesAppend(d, HR.PathRouteLines(m));
      AllAddRulesAppend(d + HR.PathRouteLines(m), HR.PathPrefixLines(m));
      var rules := RulesRun(q, lines);
      var h := f.(rules := rules);
      NewFrontFacts(p, f, h);
      RunAppend(q, lines, [["default_backend", HR.BackendName(m)]]);
      DefaultRun(p, m, h);
      g := h.(defaultBackend := HR.BackendName(m));
    }
  }

  // ---- other backends of a mapping ----

  /** Route-rule and path-route backends: their names go on after the mapping's number. */
  predicate IsAuxName(name: string) {
    |name| > 5 && '_' in name[5..]
  }

  ghost predicate AllAux(bs: seq<Backend>) {
    forall i :: 0 <= i < |bs| ==> IsAuxName(bs[i].name)
  }

  function AddBacks(p: Parser, bs: seq<Backend>): Parser {
    Parser(if bs == [] then p.section else InBackend, p.cfg.(backends := p.cfg.backends + bs))
  }

  lemma AuxName(m: Mapping, suffix: string)
    requires suffix != [] && suffix[0] == '_'
    ensures IsAuxName(HR.BackendName(m) + suffix)
  {
    var name := HR.BackendName(m) + suffix;
    assert name[5..][|Itoa(m.id)|] == '_';
  }

  lemma RouteBackRun(p: Parser, m: Mapping, r: RouteRule) returns (b: Backend)
    requires r.enabled && r.targets != []
    ensures IsAuxName(b.name) && Run(p, HR.RouteBackend(m, r)) == AddBacks(p, [b])
  {
    var name := HR.BackendName(m) + R.RuleTag(r.id);
    var body := BackendBody(m, r.targets, false);
    BackendSplits(name, m, r.targets, false);
    BackendBodyNoHeader(m, r.targets, false);
    NamedBlock(p, name, body);
    b := BodyOf(Backend(name, "http", "roundrobin", []), body);
    BodyName(Backend(name, "http", "roundrobin", []), body);
    AuxName(m, R.RuleTag(r.id));
  }

  lemma {:induction false} RouteBacksRun(p: Parser, m: Mapping, rules: seq<RouteRule>) returns (bs: seq<Backend>)
    ensures AllAux(bs) && Run(p, HR.RouteBackends(m, rules)) == AddBacks(p, bs)
    decreases |rules|
  {
    if rules == [] {
      bs := [];
      assert p.cfg.backends + [] == p.cfg.backends;
    } else {
      RunAppend(p, HR.RouteBackend(m, rules[0]), HR.RouteBackends(m, rules[1..]));
      if rules[0].enabled && rules[0].targets != [] {
        var b := RouteBackRun(p, m, rules[0]);
        var rest := RouteBacksRun(AddBacks(p, [b]), m, rules[1..]);
        AddTwice(p, [b], rest);
        bs := [b] + rest;
      } else {
        bs := RouteBacksRun(p, m, rules[1..]);
      }
    }
  }

  lemma AddTwice(p: Parser, x: seq<Backend>, y: seq<Backend>)
    ensures AddBacks(AddBacks(p, x), y) == AddBacks(p, x + y)
  {
    assert p.cfg.backends + x + y == p.cfg.backends + (x + y);
  }

  lemma TunnelRun(p: Parser, lines: seq<Line>)
    requires AtFront(p) || AtBack(p)
    requires lines == [] || lines == [HR.TUNNEL]
    ensures Run(p, lines) == p
  {
    PlainHeadQuiet(HR.TUNNEL);
    if AtFront(p) {
      QuietRun(p, lines);
    } else {
      BackRun(p, lines);
      QuietBody(LastBack(p), lines);
      WithBackFacts(p, LastBack(p), LastBack(p));
    }
  }

  // ---- a whole mapping ----

  /** The mappings the round trip is about: what validation accepts, except that target
      hosts with a colon (IPv6 literals) are shut out. */
  predicate PlainMapping(m: Mapping) {
    && PlainListener(m)
    && PlainBalance(m.balance)
    && (forall t :: t in m.targets ==> PlainTarget(t))
  }

  function MainBackend(m: Mapping): Backend {
    BackendOf(HR.BackendName(m), m, m.targets, m.protocol == Tcp)
  }

  lemma FrontPart(p: Parser, m: Mapping, paths: Paths.Paths) returns (g: Frontend)
    requires PlainMapping(m) && m.protocol != Udp && (m.protocol == Https ==> m.sslCert.Some?)
    ensures RoutesFor(g, m)
    ensures Run(p, HR.FrontendHead(m, paths) + HR.AccessLines(m, m.protocol == Tcp) + HR.RoutingLines(m)) == WithNewFront(p, g)
  {
    var head, access, routing := HR.FrontendHead(m, paths), HR.AccessLines(m, m.protocol == Tcp), HR.RoutingLines(m);
    RunAppend(p, head + access, routing);
    RunAppend(p, head, access);
    var f: Frontend;
    if m.protocol == Tcp { f := HeadTcp(p, m, paths); } else { f := HeadHttp(p, m, paths); }
    NewFrontFacts(p, f, f);
    AccessLinesQuiet(m, m.protocol == Tcp);
    QuietRun(WithNewFront(p, f), access);
    g := RoutingRun(p, m, f);
  }

  /** Between the frontend and the main backend. */
  function MiddleLines(m: Mapping): seq<Line> {
    if m.protocol == Tcp then [] else HR.RouteBackends(m, m.routes) + (if m.webSocket then [HR.TUNNEL] else [])
  }

  lemma MiddlePart(p: Parser, m: Mapping) returns (bs: seq<Backend>)
    requires AtFront(p)
    ensures AllAux(bs) && Run(p, MiddleLines(m)) == AddBacks(p, bs)
  {
    if m.protocol == Tcp {
      bs := [];
      assert p.cfg.backends + [] == p.cfg.backends;
    } else {
      var tunnel: seq<Line> := if m.webSocket then [HR.TUNNEL] else [];
      RunAppend(p, HR.RouteBackends(m, m.routes), tunnel);
      bs := RouteBacksRun(p, m, m.routes);
      TunnelRun(AddBacks(p, bs), tunnel);
    }
  }

  /** A printed mapping adds its frontend, its extra backends and its main backend. */
  lemma MappingRun(p: Parser, m: Mapping, paths: Paths.Paths) returns (g: Frontend, bs: seq<Backend>)
    requires PlainMapping(m) && m.protocol != Udp && (m.protocol == Https ==> m.sslCert.Some?)
    ensures RoutesFor(g, m) && AllAux(bs)
    ensures Run(p, HR.MappingLines(m, paths)) ==
      Parser(InBackend, p.cfg.(frontends := p.cfg.frontends + [g], backends := p.cfg.backends + bs + [MainBackend(m)]))
  {
    var front := HR.FrontendHead(m, paths) + HR.AccessLines(m, m.protocol == Tcp) + HR.RoutingLines(m);
    var main := HR.BackendLines(HR.BackendName(m), m, m.targets, m.protocol == Tcp);
    assert HR.MappingLines(m, paths) == front + MiddleLines(m) + main;
    RunAppend(p, front + MiddleLines(m), main);
    RunAppend(p, front, MiddleLines(m));
    g := FrontPart(p, m, paths);
    NewFrontFacts(p, g, g);
    bs := MiddlePart(WithNewFront(p, g), m);
    BackendBlock(AddBacks(WithNewFront(p, g), bs), HR.BackendName(m), m, m.targets, m.protocol == Tcp);
  }

  // ---- all mappings ----

  /** The rendered mappings, in order. */
  function RenderedOf(ms: seq<Mapping>): seq<Mapping> {
    if ms == [] then [] else (if HR.Rendered(ms[0]) then [ms[0]] else []) + RenderedOf(ms[1..])
  }

  /** Frontend for frontend, the parsed ones belong to the rendered mappings. */
  ghost predicate FrontsFor(fs: seq<Frontend>, ms: seq<Mapping>) {
    |fs| == |ms| && forall i :: 0 <= i < |fs| ==> RoutesFor(fs[i], ms[i])
  }

  /** Every parsed backend is a mapping's main one or an extra one, and all main ones are there. */
  ghost predicate BacksFor(bs: seq<Backend>, ms: seq<Mapping>) {
    && (forall b :: b in bs ==> IsAuxName(b.name) || exists m :: m in ms && b == MainBackend(m))
    && (forall m :: m in ms ==> MainBackend(m) in bs)
  }

  lemma BacksForOne(bs: seq<Backend>, m: Mapping, more: seq<Backend>, ms: seq<Mapping>)
    requires AllAux(bs) && BacksFor(more, ms)
    ensures BacksFor(bs + [MainBackend(m)] + more, [m] + ms)
  {
    var all := bs + [MainBackend(m)] + more;
    forall b | b in all ensures IsAuxName(b.name) || exists k :: k in [m] + ms && b == MainBackend(k) {
      if b in more && !IsAuxName(b.name) {
        var k :| k in ms && b == MainBackend(k);
        assert k in [m] + ms;
      } else if b == MainBackend(m) {
        assert m in [m] + ms;
      }
    }
  }

  function Grown(cfg: Cfg, fs: seq<Frontend>, bs: seq<Backend>): Cfg {
    cfg.(frontends := cfg.frontends + fs, backends := cfg.backends + bs)
  }

  lemma GrownTwice(cfg: Cfg, fs: seq<Frontend>, bs: seq<Backend>, fs': seq<Frontend>, bs': seq<Backend>)
    ensures Grown(Grown(cfg, fs, bs), fs', bs') == Grown(cfg, fs + fs', bs + bs')
  {
    assert cfg.frontends + fs + fs' == cfg.frontends + (fs + fs');
    assert cfg.backends + bs + bs' == cfg.backends + (bs + bs');
  }

  lemma GrownNothing(cfg: Cfg)
    ensures Grown(cfg, [], []) == cfg
  {
    assert cfg.frontends + [] == cfg.frontends && cfg.backends + [] == cfg.backends;
  }

  lemma OneMapping(p: Parser, m: Mapping, paths: Paths.Paths) returns (g: Frontend, aux: seq<Backend>)
    requires PlainMapping(m) && m.protocol != Udp && (m.protocol == Https ==> m.sslCert.Some?)
    ensures RoutesFor(g, m) && AllAux(aux)
    ensures Run(p, HR.MappingLines(m, paths)).cfg == Grown(p.cfg, [g], aux + [MainBackend(m)])
  {
    g, aux := MappingRun(p, m, paths);
    assert p.cfg.backends + aux + [MainBackend(m)] == p.cfg.backends + (aux + [MainBackend(m)]);
  }

  lemma FrontsForOne(g: Frontend, m: Mapping, fs: seq<Frontend>, ms: seq<Mapping>)
    requires RoutesFor(g, m) && FrontsFor(fs, ms)
    ensures FrontsFor([g] + fs, [m] + ms)
  {}

  lemma MainLinesStep(ms: seq<Mapping>, paths: Paths.Paths)
    requires ms != [] && HR.AllRenderable(ms)
    ensures HR.Renderable(ms[0]) && HR.AllRenderable(ms[1..])
    ensures HR.Rendered(ms[0]) ==> HR.MainLines(ms, paths) == HR.MappingLines(ms[0], paths) + HR.MainLines(ms[1..], paths)
    ensures !HR.Rendered(ms[0]) ==> HR.MainLines(ms, paths) == HR.MainLines(ms[1..], paths)
    ensures RenderedOf(ms) == if HR.Rendered(ms[0]) then [ms[0]] + RenderedOf(ms[1..]) else RenderedOf(ms[1..])
  {
    assert HR.Renderable(ms[0]);
  }

  lemma {:induction false} MainRun(p: Parser, ms: seq<Mapping>, paths: Paths.Paths) returns (fs: seq<Frontend>, bs: seq<Backend>)
    requires HR.AllRenderable(ms) && forall m :: m in ms && HR.Rendered(m) ==> PlainMapping(m)
    ensures FrontsFor(fs, RenderedOf(ms)) && BacksFor(bs, RenderedOf(ms))
    ensures Run(p, HR.MainLines(ms, paths)).cfg == Grown(p.cfg, fs, bs)
    decreases |ms|
  {
    if ms == [] {
      fs, bs := [], [];
      GrownNothing(p.cfg);
    } else {
      MainLinesStep(ms, paths);
      if HR.Rendered(ms[0]) {
        fs, bs := MainRunOne(p, ms, paths);
      } else {
        fs, bs := MainRun(p, ms[1..], paths);
      }
    }
  }

  lemma {:induction false} MainRunOne(p: Parser, ms: seq<Mapping>, paths: Paths.Paths) returns (fs: seq<Frontend>, bs: seq<Backend>)
    requires ms != [] && HR.Rendered(ms[0])
    requires HR.AllRenderable(ms) && forall m :: m in ms && HR.Rendered(m) ==> PlainMapping(m)
    ensures FrontsFor(fs, RenderedOf(ms)) && BacksFor(bs, RenderedOf(ms))
    ensures Run(p, HR.MainLines(ms, paths)).cfg == Grown(p.cfg, fs, bs)
    decreases |ms|, 0
  {
    var m := ms[0];
    MainLinesStep(ms, paths);
    RunAppend(p, HR.MappingLines(m, paths), HR.MainLines(ms[1..], paths));
    var g, aux := OneMapping(p, m, paths);
    var fs', bs' := MainRun(Run(p, HR.MappingLines(m, paths)), ms[1..], paths);
    GrownTwice(p.cfg, [g], aux + [MainBackend(m)], fs', bs');
    fs, bs := [g] + fs', aux + [MainBackend(m)] + bs';
    FrontsForOne(g, m, fs', RenderedOf(ms[1..]));
    BacksForOne(aux, m, bs', RenderedOf(ms[1..]));
  }

  // ---- the dynamic backends ----

  lemma {:induction false} DynPortsNoHeader(prs: seq<PathRoute>)
    ensures AllNoHeader(HR.DynPorts(prs))
  {
    if prs != [] {
      var line := HR.DynPorts(prs)[0];
      assert line[0] == "http-request";
      PlainHeadQuiet(line);
      DynPortsNoHeader(prs[1..]);
      OneNoHeader(line);
      AllNoHeaderAppend([line], HR.DynPorts(prs[1..]));
    }
  }

  function DynOpening(): seq<Line> {
    [["mode", "http"]] + [HR.TUNNEL]
  }

  function DynClosing(m: Mapping): seq<Line> {
    [["http-request", "set-dst-port", "var(txn.pgport)"]] + [["server", "dynamic", HR.DynHost(m) + ":1"]] + [[]]
  }

  lemma DynOpeningNoHeader()
    ensures AllNoHeader(DynOpening())
  {
    NotASection("mode");
    PlainHeadQuiet(HR.TUNNEL);
    OneNoHeader(["mode", "http"]);
    OneNoHeader(HR.TUNNEL);
    AllNoHeaderAppend([["mode", "http"]], [HR.TUNNEL]);
  }

  lemma DynClosingNoHeader(m: Mapping)
    ensures AllNoHeader(DynClosing(m))
  {
    var port: Line, server: Line :=
      ["http-request", "set-dst-port", "var(txn.pgport)"], ["server", "dynamic", HR.DynHost(m) + ":1"];
    NotASection("server");
    PlainHeadQuiet(port);
    OneNoHeader(port);
    OneNoHeader(server);
    OneNoHeader([]);
    AllNoHeaderAppend([port], [server]);
    AllNoHeaderAppend([port] + [server], [[]]);
  }

  lemma DynShape(m: Mapping)
    ensures HR.DynBackend(m) == [["backend", HR.BackendName(m) + "_dyn"]] + (DynOpening() + HR.DynPorts(m.pathRoutes) + DynClosing(m))
  {
    var open: seq<Line> := [["backend", HR.BackendName(m) + "_dyn"]];
    assert HR.DynBackend(m) == open + (DynOpening() + HR.DynPorts(m.pathRoutes) + DynClosing(m));
  }

  lemma DynRun(p: Parser, m: Mapping) returns (b: Backend)
    ensures IsAuxName(b.name) && Run(p, HR.DynBackend(m)) == AddBacks(p, [b])
  {
    var name := HR.BackendName(m) + "_dyn";
    var body := DynOpening() + HR.DynPorts(m.pathRoutes) + DynClosing(m);
    DynOpeningNoHeader();
    DynPortsNoHeader(m.pathRoutes);
    DynClosingNoHeader(m);
    AllNoHeaderAppend(DynOpening(), HR.DynPorts(m.pathRoutes));
    AllNoHeaderAppend(DynOpening() + HR.DynPorts(m.pathRoutes), DynClosing(m));
    DynShape(m);
    NamedBlock(p, name, body);
    b := BodyOf(Backend(name, "http", "roundrobin", []), body);
    BodyName(Backend(name, "http", "roundrobin", []), body);
    AuxName(m, "_dyn");
  }

  lemma {:induction false} DynsRun(p: Parser, ms: seq<Mapping>) returns (bs: seq<Backend>)
    ensures AllAux(bs) && Run(p, HR.DynLines(ms)) == AddBacks(p, bs)
    decreases |ms|
  {
    if ms == [] {
      bs := [];
      assert p.cfg.backends + [] == p.cfg.backends;
    } else {
      RunAppend(p, HR.DynBlock(ms[0]), HR.DynLines(ms[1..]));
      if HR.HasDyn(ms[0]) {
        var b := DynRun(p, ms[0]);
        var rest := DynsRun(AddBacks(p, [b]), ms[1..]);
        AddTwice(p, [b], rest);
        bs := [b] + rest;
      } else {
        bs := DynsRun(p, ms[1..]);
      }
    }
  }

  // ---- the whole file ----

  lemma {:induction false} OtherRun(p: Parser, lines: seq<Line>)
    requires p.section == OtherSection && AllNoHeader(lines)
    ensures Run(p, lines) == p
    decreases |lines|
  {
    if lines != [] {
      assert NoHeader(lines[0]);
      OtherRun(p, lines[1..]);
    }
  }

  predicate PreambleWord(t: string) {
    t == "log" || t == "maxconn" || t == "user" || t == "group" || t == "stats" || t == "ca-base" || t == "crt-base"
    || t == "mode" || t == "option" || t == "timeout" || t == "retries"
  }

  lemma PreambleWordDiffers(t: string, w: string)
    requires PreambleWord(t) && w in KEYWORDS
    ensures !HasPrefix(t, w)
  {
    if |w| <= |t| {
      var k := if t[0] != w[0] then 0 else if t[1] != w[1] then 1 else 2;
      PrefixDiffers(t, w, k);
    }
  }

  lemma PreambleWordFree(line: Line)
    requires line != [] ==> PreambleWord(line[0])
    ensures NoHeader(line)
  {
    if line != [] {
      forall i | 0 <= i < |KEYWORDS| ensures !HasPrefix(line[0], KEYWORDS[i]) {
        PreambleWordDiffers(line[0], KEYWORDS[i]);
      }
      NoKeyword(line[0], KEYWORDS);
    }
  }

  lemma PreambleBodies()
    ensures AllNoHeader(HR.GLOBAL_BODY) && AllNoHeader(HR.DEFAULTS_BODY)
  {
    forall i | 0 <= i < |HR.GLOBAL_BODY| ensures NoHeader(HR.GLOBAL_BODY[i]) { PreambleWordFree(HR.GLOBAL_BODY[i]); }
    forall i | 0 <= i < |HR.DEFAULTS_BODY| ensures NoHeader(HR.DEFAULTS_BODY[i]) { PreambleWordFree(HR.DEFAULTS_BODY[i]); }
  }

  lemma GlobalHeader(p: Parser)
    ensures Step(p, ["global"]) == Parser(OtherSection, p.cfg)
  {
    assert !HasPrefix("global", "#") by { HeadDiffers("global", "#"); }
  }

  lemma DefaultsHeader(p: Parser)
    ensures Step(p, ["defaults"]) == Parser(OtherSection, p.cfg)
  {
    HeadDiffers("defaults", "#");
    HeadDiffers("defaults", "global");
    assert FirstKeyword("defaults", KEYWORDS) == FirstKeyword("defaults", KEYWORDS[1..]);
    assert KEYWORDS[1..][0] == "defaults";
    assert "defaults" != "frontend" && "defaults" != "backend" && "defaults" != "listen";
  }

  lemma PreambleRun()
    ensures Run(EMPTY, HR.PREAMBLE) == Parser(OtherSection, EMPTY.cfg)
  {
    var opening: seq<Line> := [["#", "Generated", "by", "PortGuard"], ["global"]];
    var q := Parser(OtherSection, EMPTY.cfg);
    PreambleBodies();
    RunAppend(EMPTY, opening + HR.GLOBAL_BODY + [["defaults"]], HR.DEFAULTS_BODY);
    RunAppend(EMPTY, opening + HR.GLOBAL_BODY, [["defaults"]]);
    RunAppend(EMPTY, opening, HR.GLOBAL_BODY);
    OpeningRun();
    OtherRun(q, HR.GLOBAL_BODY);
    Run1(q, ["defaults"]);
    DefaultsHeader(q);
    OtherRun(q, HR.DEFAULTS_BODY);
  }

  lemma OpeningRun()
    ensures Run(EMPTY, [["#", "Generated", "by", "PortGuard"], ["global"]]) == Parser(OtherSection, EMPTY.cfg)
  {
    var opening: seq<Line> := [["#", "Generated", "by", "PortGuard"], ["global"]];
    assert opening[1..] == [["global"]];
    assert Blank(opening[0]);
    Run1(EMPTY, ["global"]);
    GlobalHeader(EMPTY);
  }

  lemma ClosingRun(p: Parser)
    ensures Run(p, HR.CLOSING) == p
  {
    assert HR.CLOSING[1..][1..] == [];
    assert Blank(HR.CLOSING[0]) && Blank(HR.CLOSING[1..][0]);
  }

  lemma ConfigRun(ms: seq<Mapping>, paths: Paths.Paths) returns (fs: seq<Frontend>, bs: seq<Backend>)
    requires var sorted := HR.SortById(ms);
      HR.AllRenderable(sorted) && forall m :: m in sorted && HR.Rendered(m) ==> PlainMapping(m)
    ensures FrontsFor(fs, RenderedOf(HR.SortById(ms))) && BacksFor(bs, RenderedOf(HR.SortById(ms)))
    ensures HR.Config(ms, paths).Some? && Run(EMPTY, HR.Config(ms, paths).value).cfg == Cfg(fs, bs, [])
  {
    var sorted := HR.SortById(ms);
    var main, dyn := HR.MainLines(sorted, paths), HR.DynLines(sorted);
    RunAppend(EMPTY, HR.PREAMBLE + main + dyn, HR.CLOSING);
    RunAppend(EMPTY, HR.PREAMBLE + main, dyn);
    RunAppend(EMPTY, HR.PREAMBLE, main);
    PreambleRun();
    var bs1: seq<Backend>;
    fs, bs1 := MainRun(Parser(OtherSection, EMPTY.cfg), sorted, paths);
    var q := Run(Parser(OtherSection, EMPTY.cfg), main);
    var bs2 := DynsRun(q, sorted);
    ClosingRun(AddBacks(q, bs2));
    bs := bs1 + bs2;
    assert [] + fs == fs && [] + bs1 == bs1;
    BacksForMore(bs1, bs2, RenderedOf(sorted));
  }

  lemma BacksForMore(bs: seq<Backend>, aux: seq<Backend>, ms: seq<Mapping>)
    requires BacksFor(bs, ms) && AllAux(aux)
    ensures BacksFor(bs + aux, ms)
  {}

  // ---- conversion ----

  lemma {:induction false} FindsIt(bs: seq<Backend>, b: Backend)
    requires b in bs && forall c :: c in bs && c.name == b.name ==> c == b
    ensures FindBackend(bs, b.name) == Some(b)
  {
    if bs[0].name != b.name {
      assert bs[1..] == bs[1..] && b in bs[1..];
      FindsIt(bs[1..], b);
    }
  }

  lemma MainNameIsNotAux(m: Mapping)
    ensures !IsAuxName(HR.BackendName(m))
  {
    assert HR.BackendName(m)[5..] == Itoa(m.id);
    assert !IsDigit('_');
  }

  lemma MainNameInjective(m: Mapping, k: Mapping)
    requires HR.BackendName(m) == HR.BackendName(k)
    ensures m.id == k.id
  {
    assert HR.BackendName(m)[5..] == Itoa(m.id) && HR.BackendName(k)[5..] == Itoa(k.id);
    ItoaInjective(m.id, k.id);
  }

  ghost predicate UniqueIds(ms: seq<Mapping>) {
    forall m, k :: m in ms && k in ms && m.id == k.id ==> m == k
  }

  lemma MainBackendFound(bs: seq<Backend>, ms: seq<Mapping>, m: Mapping)
    requires BacksFor(bs, ms) && UniqueIds(ms) && m in ms
    ensures FindBackend(bs, HR.BackendName(m)) == Some(MainBackend(m))
  {
    forall c | c in bs && c.name == HR.BackendName(m) ensures c == MainBackend(m) {
      MainNameIsNotAux(m);
      var k :| k in ms && c == MainBackend(k);
      MainNameInjective(m, k);
    }
    FindsIt(bs, MainBackend(m));
  }

  /** Targets as an import writes them. */
  function NormalTargets(targets: seq<Target>): seq<Target> {
    if targets == [] then []
    else [targets[0].(weight := NormalWeight(targets[0].weight))] + NormalTargets(targets[1..])
  }

  lemma {:induction false} ServersToTargets(targets: seq<Target>, i: nat)
    ensures TargetsOf(ServersOf(targets, i)) == NormalTargets(targets)
    decreases |targets|
  {
    if targets != [] {
      ServersToTargets(targets[1..], i + 1);
      assert ServersOf(targets, i)[1..] == ServersOf(targets[1..], i + 1);
    }
  }

  /** The mappings an import gets back. */
  predicate Recoverable(m: Mapping) {
    m.targets != [] && !(IsHttp(m) && m.redirectTo != "")
  }

  /** What it gets back of one of them. */
  function Recovered(m: Mapping): Candidate {
    Candidate("", true, HAProxy, m.protocol, NormalIP(m.listenIP), m.listenPort, [], "",
              NormalTargets(m.targets), BalanceOf(m), "")
  }

  function Expected(m: Mapping): Option<Candidate> {
    if Recoverable(m) then Some(Recovered(m)) else None
  }

  lemma FrontendGivesMapping(f: Frontend, bs: seq<Backend>, ms: seq<Mapping>, m: Mapping)
    requires RoutesFor(f, m) && BacksFor(bs, ms) && UniqueIds(ms) && m in ms && m.protocol != Udp
    ensures FrontendCandidate(f, bs) == Expected(m)
  {
    MainBackendFound(bs, ms, m);
    ServersToTargets(m.targets, 0);
    if m.targets != [] { assert ServersOf(m.targets, 0)[0] == ServerOf(0, m.targets[0]); }
    BackendNameLower(m);
  }

  /** The import of a mapping list: each one recovered under a fresh name, or reported. */
  function Reimport(c: Converted, ms: seq<Mapping>): Converted
    decreases |ms|
  {
    if ms == [] then c
    else Reimport(Convert(c, "frontend", HR.FrontendName(ms[0]), Expected(ms[0])), ms[1..])
  }

  lemma {:induction false} ConvertsAll(c: Converted, fs: seq<Frontend>, bs: seq<Backend>, ms: seq<Mapping>, all: seq<Mapping>)
    requires FrontsFor(fs, ms) && BacksFor(bs, all) && UniqueIds(all)
    requires forall m :: m in ms ==> m in all && m.protocol != Udp
    ensures ConvertFrontends(c, fs, bs) == Reimport(c, ms)
    decreases |fs|
  {
    if fs != [] {
      assert RoutesFor(fs[0], ms[0]);
      FrontendGivesMapping(fs[0], bs, all, ms[0]);
      assert FrontsFor(fs[1..], ms[1..]);
      ConvertsAll(Convert(c, "frontend", fs[0].name, FrontendCandidate(fs[0], bs)), fs[1..], bs, ms[1..], all);
    }
  }

  lemma {:induction false} RenderedMembers(ms: seq<Mapping>, m: Mapping)
    ensures m in RenderedOf(ms) <==> m in ms && HR.Rendered(m)
  {
    if ms != [] {
      RenderedMembers(ms[1..], m);
      assert ms == [ms[0]] + ms[1..];
    }
  }

  /** Printing the mappings, parsing the file and converting it back recovers, in id
      order, every rendered mapping that has targets and is not an http redirect, and
      reports one issue for each of the others. */
  lemma RoundTrip(ms: seq<Mapping>, paths: Paths.Paths, taken: set<string>)
    requires UniqueIds(ms) && forall m :: m in ms && HR.Rendered(m) ==> HR.Renderable(m) && PlainMapping(m)
    ensures HR.Config(ms, paths).Some?
    ensures ToMappings(Run(EMPTY, HR.Config(ms, paths).value).cfg, taken)
      == Reimport(Converted([], [], taken), RenderedOf(HR.SortById(ms)))
  {
    var sorted := HR.SortById(ms);
    var rendered := RenderedOf(sorted);
    forall m ensures m in sorted <==> m in ms { HR.SortByIdMembers(ms, m); }
    var fs, bs := ConfigRun(ms, paths);
    forall m | m in rendered ensures m.protocol != Udp && m in sorted { RenderedMembers(sorted, m); }
    ConvertsAll(Converted([], [], taken), fs, bs, rendered, rendered);
  }

  function AllRecovered(ms: seq<Mapping>): seq<Candidate> {
    if ms == [] then [] else (if Recoverable(ms[0]) then [Recovered(ms[0])] else []) + AllRecovered(ms[1..])
  }

  function AllReported(ms: seq<Mapping>): seq<Issue> {
    if ms == [] then []
    else (if Recoverable(ms[0]) then [] else [Issue("frontend " + HR.FrontendName(ms[0]))]) + AllReported(ms[1..])
  }

  lemma ReimportStep(c: Converted, m: Mapping)
    ensures var d := Convert(c, "frontend", HR.FrontendName(m), Expected(m));
      Anonymous(d.out) == Anonymous(c.out) + (if Recoverable(m) then [Recovered(m)] else [])
      && d.issues == c.issues + (if Recoverable(m) then [] else [Issue("frontend " + HR.FrontendName(m))])
  {
    if Recoverable(m) {
      var name := UniqueName("imported-" + HR.FrontendName(m), c.taken);
      AnonymousAppend(c.out, [Recovered(m).(name := name)]);
      assert Anonymous([Recovered(m).(name := name)]) == [Recovered(m)] + Anonymous([]);
    } else {
      assert "frontend" + " " + HR.FrontendName(m) == "frontend " + HR.FrontendName(m);
    }
  }

  /** The reimport read off: what is recovered, what is reported, both in order. */
  lemma {:induction false} ReimportContents(c: Converted, ms: seq<Mapping>)
    ensures Anonymous(Reimport(c, ms).out) == Anonymous(c.out) + AllRecovered(ms)
    ensures Reimport(c, ms).issues == c.issues + AllReported(ms)
    decreases |ms|
  {
    if ms != [] {
      var d := Convert(c, "frontend", HR.FrontendName(ms[0]), Expected(ms[0]));
      ReimportStep(c, ms[0]);
      ReimportContents(d, ms[1..]);
      ContentsStep(Anonymous(c.out), c.issues, ms);
    }
  }

  lemma ContentsStep(out: seq<Candidate>, issues: seq<Issue>, ms: seq<Mapping>)
    requires ms != []
    ensures out + AllRecovered(ms) == out + (if Recoverable(ms[0]) then [Recovered(ms[0])] else []) + AllRecovered(ms[1..])
    ensures issues + AllReported(ms)
      == issues + (if Recoverable(ms[0]) then [] else [Issue("frontend " + HR.FrontendName(ms[0]))]) + AllReported(ms[1..])
  {
    Joined(out, if Recoverable(ms[0]) then [Recovered(ms[0])] else [], AllRecovered(ms[1..]));
    Joined(issues, if Recoverable(ms[0]) then [] else [Issue("frontend " + HR.FrontendName(ms[0]))], AllReported(ms[1..]));
  }

  /** Every rendered mapping is accounted for exactly once. */
  lemma {:induction false} RecoveredOrReported(ms: seq<Mapping>)
    ensures |AllRecovered(ms)| + |AllReported(ms)| == |ms|
  {
    if ms != [] { RecoveredOrReported(ms[1..]); }
  }
}
