/** What parsing a printed nginx configuration yields, server block by server block. */
module NginxServers {
  import opened Text
  import opened Model
  import opened NginxRender
  import opened NginxParser
  import opened NginxBlocks
  import opened NginxGroups
  import HR = HAProxyRender
  import R = Routes
  import Paths

  /** What validation accepts, with distinct ids of route rules: target hosts carry no slash
      or bracket, paths start with a slash, rules that proxy have targets, and no name
      claims to be PortGuard's own. */
  predicate PlainMapping(m: Mapping) {
    && 1 <= m.listenPort <= MAX_INT64
    && PlainTargetsOnly(m.targets)
    && PlainRoutes(m.routes)
    && (m.pathPrefix != "" ==> m.pathPrefix[0] == '/')
    && PlainRules(m.accessRules)
    && !NamesPortGuard(m.serverNames)
  }

  predicate PlainTargetsOnly(targets: seq<Target>) {
    forall t :: t in targets ==> PlainTarget(t)
  }

  predicate PlainRoutes(rules: seq<RouteRule>) {
    && ProperRules(rules)
    && forall r :: r in rules ==> r.path != "" && r.path[0] == '/' && PlainTargetsOnly(r.targets)
  }

  predicate PlainRules(rules: seq<AccessRule>) {
    forall i :: 0 <= i < |rules| ==> rules[i].action == "allow" || rules[i].action == "deny"
  }

  predicate NamesPortGuard(names: seq<string>) {
    exists i :: 0 <= i < |names| && Contains(names[i], "portguard")
  }

  // ---- the head of a server block ----

  function Listening(m: Mapping): Server {
    Server(m.listenPort, m.protocol == Https, [], [], "", false)
  }

  function Named(m: Mapping): Server {
    Listening(m).(names := WithoutUnderscore(m.serverNames))
  }

  lemma AddressIsNoFlag(addr: string)
    requires ':' in addr
    ensures addr != "ssl" && addr != "default_server"
  {}

  lemma TlsFlags(m: Mapping)
    ensures "ssl" in TlsTokens(m) <==> m.protocol == Https
    ensures "default_server" !in TlsTokens(m)
  {
    if m.protocol == Https { assert TlsTokens(m)[0] == "ssl"; }
  }

  lemma ListenDirective(s: Server, m: Mapping, addr: string)
    requires ':' in addr && ListenPort(addr) == m.listenPort
    ensures ServerDirective(s, ["listen", addr] + TlsTokens(m), false) == s.(port := m.listenPort, ssl := s.ssl || m.protocol == Https)
  {
    var head := ["listen", addr];
    var f := head + TlsTokens(m);
    AddressIsNoFlag(addr);
    TlsFlags(m);
    assert "ssl" !in head && "default_server" !in head;
    assert f[0] == "listen" && f[1] == addr;
  }

  lemma ListenIsPlain(tokens: seq<string>)
    ensures Plain(D(["listen"] + tokens))
  {
    var line := D(["listen"] + tokens);
    assert line.fields[0] == "listen";
    assert "listen"[0] == 'l';
    assert !HasPrefix("listen", "#");
  }

  lemma ListenStep(p: Parser, addr: string, tokens: seq<string>)
    requires InServer(p)
    ensures Run(p, [D(["listen", addr] + tokens)]) == WithServer(p, ServerDirective(p.server.value, ["listen", addr] + tokens, p.inStream))
  {
    assert ["listen", addr] + tokens == ["listen"] + ([addr] + tokens);
    ListenIsPlain([addr] + tokens);
    OneDirective(p, D(["listen", addr] + tokens));
  }

  lemma ListenRun1(p: Parser, m: Mapping, addr: string)
    requires InServer(p) && !p.inStream && ':' in addr && ListenPort(addr) == m.listenPort
    ensures Run(p, [D(["listen", addr] + TlsTokens(m))])
      == WithServer(p, p.server.value.(port := m.listenPort, ssl := p.server.value.ssl || m.protocol == Https))
  {
    ListenStep(p, addr, TlsTokens(m));
    ListenDirective(p.server.value, m, addr);
  }

  lemma ListenRun(p: Parser, m: Mapping)
    requires InServer(p) && !p.inStream && p.server.value == NEW_SERVER && 0 <= m.listenPort <= MAX_INT64
    ensures Run(p, ListenLines(m)) == WithServer(p, Listening(m))
  {
    var addr := ListenAddr(m.listenIP, m.listenPort);
    ListenReadsBack(m.listenIP, m.listenPort);
    ListenRun1(p, m, addr);
    var first := [D(["listen", addr] + TlsTokens(m))];
    if Wildcard(m.listenIP) {
      var second := [D(["listen", WildcardAddr(m.listenPort)] + TlsTokens(m))];
      RunAppend(p, first, second);
      ListenReadsBack("", m.listenPort);
      ListenRun1(WithServer(p, Listening(m)), m, WildcardAddr(m.listenPort));
    } else {
      assert ListenLines(m) == first;
    }
  }

  predicate AllIgnored(lines: seq<NLine>) {
    forall i :: 0 <= i < |lines| ==> Plain(lines[i]) && Ignored(lines[i].fields[0])
  }

  lemma IgnoredWord(fields: seq<string>)
    requires fields != [] && fields[0] in ["ssl_certificate", "ssl_certificate_key", "allow", "deny", "add_header", "proxy_connect_timeout"]
    ensures AllIgnored([D(fields)])
  {
    assert fields[0][0] != '#';
    assert !HasPrefix(fields[0], "#");
  }

  lemma CertIgnored(m: Mapping, paths: Paths.Paths)
    requires m.protocol == Https ==> m.sslCert.Some?
    ensures AllIgnored(CertLines(m, paths))
  {
    if m.protocol == Https {
      var lines := CertLines(m, paths);
      IgnoredWord(lines[0].fields);
      IgnoredWord(lines[1].fields);
      assert AllIgnored([lines[0]]) && AllIgnored([lines[1]]);
      assert lines == [lines[0]] + [lines[1]];
    }
  }

  lemma {:induction false} AccessIgnored(rules: seq<AccessRule>)
    requires PlainRules(rules)
    ensures AllIgnored(AccessLinesOf(rules))
  {
    if rules != [] {
      IgnoredWord([rules[0].action, rules[0].value]);
      AccessIgnored(rules[1..]);
    }
  }

  lemma AccessLinesIgnored(m: Mapping)
    requires PlainRules(m.accessRules)
    ensures AllIgnored(AccessLines(m))
  {
    AccessIgnored(m.accessRules);
    IgnoredWord(["deny", "all"]);
  }

  lemma {:induction false} HeadersIgnored(headers: seq<(string, string)>)
    ensures AllIgnored(ExtraHeaderLines(headers))
  {
    if headers != [] {
      IgnoredWord(["add_header", headers[0].0, headers[0].1, "always"]);
      HeadersIgnored(headers[1..]);
    }
  }

  lemma NameRun(p: Parser, m: Mapping)
    requires InServer(p) && !p.inStream && p.server.value.names == []
    ensures Run(p, [NameLine(m)]) == WithServer(p, p.server.value.(names := WithoutUnderscore(m.serverNames)))
  {
    var line := NameLine(m);
    var names := if m.serverNames == [] then ["_"] else m.serverNames;
    assert line.fields[0] == "server_name" && line.fields[1..] == names;
    assert "server_name"[0] == 's';
    assert !HasPrefix("server_name", "#");
    assert WithoutUnderscore(["_"]) == WithoutUnderscore([]);
    assert [] + WithoutUnderscore(names) == WithoutUnderscore(names);
    OneDirective(p, line);
  }

  lemma HeadRun(p: Parser, m: Mapping, paths: Paths.Paths)
    requires InServer(p) && !p.inStream && p.server.value == NEW_SERVER && PlainMapping(m)
    requires m.protocol == Https ==> m.sslCert.Some?
    ensures Run(p, HeadLines(m, paths)) == WithServer(p, Named(m))
  {
    var listen, cert, name, access := ListenLines(m), CertLines(m, paths), [NameLine(m)], AccessLines(m);
    RunAppend(p, listen + cert + name, access);
    RunAppend(p, listen + cert, name);
    RunAppend(p, listen, cert);
    ListenRun(p, m);
    var q := WithServer(p, Listening(m));
    CertIgnored(m, paths);
    IgnoredRun(q, cert);
    NameRun(q, m);
    AccessLinesIgnored(m);
    IgnoredRun(WithServer(p, Named(m)), access);
  }

  // ---- the locations of a server block ----

  /** Locations that lead an import nowhere: no proxy_pass, or one to a variable port. */
  ghost predicate DeadEnds(ls: seq<Location>, m: Mapping) {
    forall i :: 0 <= i < |ls| ==> ls[i].proxyPass == "" || ls[i].proxyPass == PathRoutePass(m)
  }

  function WithLocations(p: Parser, ls: seq<Location>): Parser
    requires p.server.Some?
  {
    WithServer(p, p.server.value.(locations := p.server.value.locations + ls))
  }

  lemma WithLocationsTwice(p: Parser, x: seq<Location>, y: seq<Location>)
    requires p.server.Some?
    ensures WithLocations(WithLocations(p, x), y) == WithLocations(p, x + y)
  {
    assert p.server.value.locations + x + y == p.server.value.locations + (x + y);
  }

  lemma WithNoLocations(p: Parser)
    requires p.server.Some?
    ensures WithLocations(p, []) == p
  {
    assert p.server.value.locations + [] == p.server.value.locations;
  }

  /** A word that starts no block and no directive the parser knows inside a location. */
  predicate PassiveWord(t: string) {
    && |t| > 1 && t[0] != '#' && t[0] != 's' && t[0] != 'u'
    && (|t| == 10 ==> t[0] != 'p') && (|t| == 6 ==> t[0] != 'r')
  }

  /** A location line that changes nothing. */
  predicate Passive(line: NLine) {
    Inner(line) && line.fields[0] != "proxy_pass" && line.fields[0] != "return"
  }

  predicate AllPassive(lines: seq<NLine>) {
    forall i :: 0 <= i < |lines| ==> Passive(lines[i])
  }

  lemma HeaderIsPassive(line: NLine)
    requires line.fields != [] && PassiveWord(line.fields[0])
    ensures Passive(line)
  {}

  lemma {:induction false} PassiveBody(l: Location, lines: seq<NLine>)
    requires AllPassive(lines)
    ensures LocationBody(l, lines) == l
    decreases |lines|
  {
    if lines != [] {
      assert Passive(lines[0]);
      PassiveBody(l, lines[1..]);
    }
  }

  lemma {:induction false} BodyAppend(l: Location, x: seq<NLine>, y: seq<NLine>)
    requires AllInner(x) && AllInner(y)
    ensures AllInner(x + y) && LocationBody(l, x + y) == LocationBody(LocationBody(l, x), y)
    decreases |x|
  {
    if x == [] {
      assert x + y == y;
    } else {
      assert Inner(x[0]);
      BodyAppend(LocationDirective(l, x[0].fields), x[1..], y);
      assert (x + y)[1..] == x[1..] + y;
    }
  }

  lemma PassIsInner(pass: string)
    ensures AllInner([D(["proxy_pass", pass])])
    ensures forall l: Location :: LocationBody(l, [D(["proxy_pass", pass])]) == l.(proxyPass := pass)
  {
    var line := D(["proxy_pass", pass]);
    assert "proxy_pass"[0] == 'p';
    assert !HasPrefix("proxy_pass", "#");
    forall l: Location ensures LocationBody(l, [line]) == l.(proxyPass := pass) {
      assert [line][1..] == [];
      assert LocationBody(LocationDirective(l, line.fields), []) == LocationDirective(l, line.fields);
    }
  }

  /** Passive lines around one proxy_pass. */
  lemma ProxyBody(l: Location, before: seq<NLine>, pass: string, after: seq<NLine>)
    requires AllPassive(before) && AllPassive(after)
    ensures AllInner(before + [D(["proxy_pass", pass])] + after)
    ensures LocationBody(l, before + [D(["proxy_pass", pass])] + after) == l.(proxyPass := pass)
  {
    PassIsInner(pass);
    BodyAppend(l, before, [D(["proxy_pass", pass])]);
    BodyAppend(l, before + [D(["proxy_pass", pass])], after);
    PassiveBody(l, before);
    PassiveBody(l.(proxyPass := pass), after);
  }

  lemma BlankStep(p: Parser)
    ensures Run(p, [BLANK]) == p && Run(p, [COMMENT]) == p
  {
    Run1(p, BLANK);
    Run1(p, COMMENT);
    assert HasPrefix("#", "#");
  }

  lemma TunnelLinesPassive()
    ensures AllPassive(WS_LINES) && AllPassive(XHTTP_LINES)
  {
    forall i | 0 <= i < |WS_LINES| ensures Passive(WS_LINES[i]) { HeaderIsPassive(WS_LINES[i]); }
    forall i | 0 <= i < |XHTTP_LINES| ensures Passive(XHTTP_LINES[i]) { HeaderIsPassive(XHTTP_LINES[i]); }
  }

  function Guards(pr: PathRoute): seq<NLine> {
    if pr.transport == XHttp then [] else [UpgradeGuard()]
  }

  function Tunnel(pr: PathRoute): seq<NLine> {
    if pr.transport == XHttp then XHTTP_LINES else WS_LINES
  }

  lemma PathRouteShape(m: Mapping, pr: PathRoute)
    ensures PathRouteLocation(m, pr)
      == [COMMENT] + ([Open(["location"] + ["~", RoutePattern(pr)])] + PathRouteBody(m, pr) + [CLOSE]) + [BLANK]
  {
    assert ["location"] + ["~", RoutePattern(pr)] == ["location", "~", RoutePattern(pr)];
  }

  lemma GuardsPassive(pr: PathRoute)
    ensures AllPassive(Guards(pr)) && AllPassive(Tunnel(pr))
  {
    TunnelLinesPassive();
    HeaderIsPassive(UpgradeGuard());
  }

  function PathRouteBody(m: Mapping, pr: PathRoute): seq<NLine> {
    Guards(pr) + [D(["proxy_pass", PathRoutePass(m)])] + Tunnel(pr)
  }

  lemma PassBlock(p: Parser, words: seq<string>, before: seq<NLine>, pass: string, after: seq<NLine>)
    requires InServer(p) && !p.inStream && AllPassive(before) && AllPassive(after)
    ensures Run(p, [Open(["location"] + words)] + (before + [D(["proxy_pass", pass])] + after) + [CLOSE])
      == WithLocations(p, [NewLocation(["location"] + words + ["{"]).(proxyPass := pass)])
  {
    ProxyBody(NewLocation(["location"] + words + ["{"]), before, pass, after);
    LocationRun(p, words, before + [D(["proxy_pass", pass])] + after);
  }

  lemma PathRouteBlock(p: Parser, m: Mapping, pr: PathRoute) returns (l: Location)
    requires InServer(p) && !p.inStream
    ensures DeadEnds([l], m)
    ensures Run(p, [Open(["location"] + ["~", RoutePattern(pr)])] + PathRouteBody(m, pr) + [CLOSE]) == WithLocations(p, [l])
  {
    GuardsPassive(pr);
    PassBlock(p, ["~", RoutePattern(pr)], Guards(pr), PathRoutePass(m), Tunnel(pr));
    l := NewLocation(["location"] + ["~", RoutePattern(pr)] + ["{"]).(proxyPass := PathRoutePass(m));
  }

  /** Comment and blank lines around a block change nothing. */
  lemma Framed(p: Parser, block: seq<NLine>)
    ensures Run(p, [COMMENT] + block + [BLANK]) == Run(p, block)
  {
    RunAppend(p, [COMMENT] + block, [BLANK]);
    RunAppend(p, [COMMENT], block);
    BlankStep(p);
    BlankStep(Run(p, block));
  }

  lemma PathRouteRun(p: Parser, m: Mapping, pr: PathRoute) returns (l: Location)
    requires InServer(p) && !p.inStream
    ensures DeadEnds([l], m) && Run(p, PathRouteLocation(m, pr)) == WithLocations(p, [l])
  {
    l := PathRouteBlock(p, m, pr);
    PathRouteShape(m, pr);
    Framed(p, [Open(["location"] + ["~", RoutePattern(pr)])] + PathRouteBody(m, pr) + [CLOSE]);
  }

  lemma {:induction false} PathRoutesRun(p: Parser, m: Mapping, prs: seq<PathRoute>) returns (ls: seq<Location>)
    requires InServer(p) && !p.inStream
    ensures DeadEnds(ls, m) && Run(p, PathRouteLocations(m, prs)) == WithLocations(p, ls)
    decreases |prs|
  {
    if prs == [] {
      ls := [];
      WithNoLocations(p);
    } else {
      RunAppend(p, PathRouteLocation(m, prs[0]), PathRouteLocations(m, prs[1..]));
      var l := PathRouteRun(p, m, prs[0]);
      var rest := PathRoutesRun(WithLocations(p, [l]), m, prs[1..]);
      WithLocationsTwice(p, [l], rest);
      ls := [l] + rest;
    }
  }

  lemma HeaderLinesPassive(m: Mapping)
    ensures AllPassive(HeaderLines(m))
  {
    forall i | 0 <= i < |HeaderLines(m)| ensures Passive(HeaderLines(m)[i]) { HeaderIsPassive(HeaderLines(m)[i]); }
  }

  /** The location of a prefix path. */
  lemma PathLocation(path: string)
    requires path != "" && path[0] == '/'
    ensures NewLocation(["location"] + [path] + ["{"]) == Location(path, "", false, false)
  {
    var f := ["location"] + [path] + ["{"];
    assert f[1..2] == [path];
    assert !HasPrefix(path, "~");
    assert !HasPrefix(path, "~*");
  }

  /** Where the mapping itself is served. */
  function SitePath(m: Mapping): string {
    if m.pathPrefix != "" then m.pathPrefix else "/"
  }

  function SiteOf(m: Mapping): Location {
    Location(SitePath(m), ProxyPass(m), false, false)
  }

  function Site(m: Mapping): seq<Location> {
    if m.pathPrefix != "" || m.targets != [] then [SiteOf(m)] else []
  }

  lemma ProxyLocationRun(p: Parser, m: Mapping, path: string)
    requires InServer(p) && !p.inStream && path != "" && path[0] == '/'
    ensures Run(p, ProxyLocation(m, path)) == WithLocations(p, [Location(path, ProxyPass(m), false, false)])
  {
    var pass := D(["proxy_pass", ProxyPass(m)]);
    var body := HeaderLines(m) + [pass] + [];
    assert ["location"] + [path] == ["location", path];
    assert ProxyLocation(m, path) == [Open(["location"] + [path])] + body + [CLOSE];
    HeaderLinesPassive(m);
    ProxyBody(Location(path, "", false, false), HeaderLines(m), ProxyPass(m), []);
    PathLocation(path);
    LocationRun(p, [path], body);
  }

  lemma SiteRun(p: Parser, m: Mapping)
    requires InServer(p) && !p.inStream && PlainMapping(m)
    ensures Run(p, SiteLocation(m)) == WithLocations(p, Site(m))
  {
    if m.pathPrefix != "" || m.targets != [] {
      ProxyLocationRun(p, m, SitePath(m));
    } else {
      WithNoLocations(p);
    }
  }

  lemma ReturnIsInner(line: NLine)
    requires line == D(["return", "404"])
    ensures AllInner([line]) && forall l: Location :: LocationBody(l, [line]).proxyPass == l.proxyPass
  {
    assert "return"[0] == 'r';
    assert !HasPrefix("return", "#");
    forall l: Location ensures LocationBody(l, [line]).proxyPass == l.proxyPass {
      assert [line][1..] == [];
      assert LocationBody(LocationDirective(l, line.fields), []) == LocationDirective(l, line.fields);
    }
  }

  function DecoyBody(): seq<NLine> {
    [D(["root", "/var/lib/portguard/decoy"]), D(["index", "index.html"]), D(["try_files", "$uri", "$uri/", "=404"])]
  }

  lemma DecoyPassive()
    ensures AllPassive(DecoyBody())
  {
    forall i | 0 <= i < |DecoyBody()| ensures Passive(DecoyBody()[i]) { HeaderIsPassive(DecoyBody()[i]); }
  }

  /** The body of the fallback location, when there is one. */
  function FallbackBody(m: Mapping): Option<seq<NLine>> {
    if m.decoy == "" then (if m.pathPrefix != "" || m.pathRoutes != [] then Some([D(["return", "404"])]) else None)
    else if m.decoy == "builtin" || m.decoy == "custom" then Some(DecoyBody())
    else None
  }

  lemma FallbackShape(m: Mapping)
    ensures Fallback(m) == match FallbackBody(m) case None => [] case Some(body) => [Open(["location"] + ["/"])] + body + [CLOSE]
  {
    assert ["location"] + ["/"] == ["location", "/"];
  }

  lemma FallbackRun(p: Parser, m: Mapping) returns (ls: seq<Location>)
    requires InServer(p) && !p.inStream
    ensures DeadEnds(ls, m) && Run(p, Fallback(m)) == WithLocations(p, ls)
  {
    FallbackShape(m);
    if FallbackBody(m) == None {
      ls := [];
      WithNoLocations(p);
    } else {
      var body := FallbackBody(m).value;
      var l := Location("/", "", false, false);
      PathLocation("/");
      if m.decoy == "" {
        ReturnIsInner(body[0]);
      } else {
        DecoyPassive();
        PassiveBody(l, body);
      }
      LocationRun(p, ["/"], body);
      ls := [LocationBody(l, body)];
    }
  }

  // ---- route rules ----

  lemma {:induction false} RuleUpstreamsRun(p: Parser, m: Mapping, locs: seq<R.Loc>)
    requires p.upstream == "" && ProperLocs(m, locs)
    ensures Run(p, RuleUpstreams(m, locs)) == WithUpstreams(p, AddList(p.sites.upstreams, RuleGroups(m, locs)))
    decreases |locs|
  {
    if locs != [] {
      var r, rest := locs[0].rule, locs[1..];
      ProperLocsTail(m, locs);
      RunAppend(p, RuleUpstream(m, r), RuleUpstreams(m, rest));
      if NeedsRuleGroup(r) {
        RuleNameNotEmpty(m, r);
        UpstreamRun(p, RuleUpstreamName(m, r), [], r.targets, true);
        var next := AddGroup(p.sites.upstreams, RuleUpstreamName(m, r), r.targets);
        RuleUpstreamsRun(WithUpstreams(p, next), m, rest);
        AddListCons(p.sites.upstreams, Group(RuleUpstreamName(m, r), r.targets), RuleGroups(m, rest));
      } else {
        RuleUpstreamsRun(p, m, rest);
      }
    }
  }

  lemma RuleNameNotEmpty(m: Mapping, r: RouteRule)
    requires r.targets != []
    ensures RuleUpstreamName(m, r) != ""
  {}

  /** Where a rule's location passes requests on; nowhere for a redirect. */
  function RulePass(m: Mapping, r: RouteRule): string {
    if r.redirect != "" then ""
    else if |r.targets| == 1 then "http://" + HostPort(r.targets[0])
    else "http://" + RuleUpstreamName(m, r)
  }

  function RuleLocationOf(m: Mapping, l: R.Loc): Location {
    Location(l.path, RulePass(m, l.rule), false, false)
  }

  function RuleLocationsOf(m: Mapping, locs: seq<R.Loc>): (ls: seq<Location>)
    ensures |ls| == |locs|
  {
    if locs == [] then [] else [RuleLocationOf(m, locs[0])] + RuleLocationsOf(m, locs[1..])
  }

  lemma Return301IsInner(url: string)
    ensures AllInner([D(["return", "301", url])])
    ensures forall l: Location :: LocationBody(l, [D(["return", "301", url])]) == l
  {
    var line := D(["return", "301", url]);
    assert "return"[0] == 'r';
    assert !HasPrefix("return", "#");
    assert "301" != "404";
    forall l: Location ensures LocationBody(l, [line]) == l {
      assert [line][1..] == [];
      assert LocationBody(LocationDirective(l, line.fields), []) == LocationDirective(l, line.fields);
    }
  }

  lemma ActionBody(m: Mapping, r: RouteRule, l: Location)
    requires l.proxyPass == "" && (r.redirect == "" ==> r.targets != [])
    ensures var line := ActionLine(R.NgRuleAction(m.id, r));
      AllInner([line]) && LocationBody(l, [line]) == l.(proxyPass := RulePass(m, r))
  {
    if r.redirect != "" {
      Return301IsInner(r.redirect);
    } else {
      RuleActionPasses(m, r);
      PassIsInner(RulePass(m, r));
    }
  }

  lemma RuleActionPasses(m: Mapping, r: RouteRule)
    requires r.redirect == "" && r.targets != []
    ensures ActionLine(R.NgRuleAction(m.id, r)) == D(["proxy_pass", RulePass(m, r)])
  {}

  lemma RuleLocationRun(p: Parser, m: Mapping, l: R.Loc)
    requires InServer(p) && !p.inStream && l.path != "" && l.path[0] == '/' && (l.rule.redirect == "" ==> l.rule.targets != [])
    ensures Run(p, RuleLocation(m, l)) == WithLocations(p, [RuleLocationOf(m, l)])
  {
    assert ["location"] + [l.path] == ["location", l.path];
    PathLocation(l.path);
    ActionBody(m, l.rule, Location(l.path, "", false, false));
    LocationRun(p, [l.path], [ActionLine(R.NgRuleAction(m.id, l.rule))]);
  }

  ghost predicate SlashLocs(locs: seq<R.Loc>) {
    forall i :: 0 <= i < |locs| ==> locs[i].path != "" && locs[i].path[0] == '/'
  }

  lemma SlashTail(locs: seq<R.Loc>)
    requires locs != [] && SlashLocs(locs)
    ensures SlashLocs(locs[1..]) && locs[0].path != "" && locs[0].path[0] == '/'
  {
    forall i | 0 <= i < |locs[1..]| ensures locs[1..][i] == locs[i + 1] {}
  }

  lemma {:induction false} RuleLocationsRun(p: Parser, m: Mapping, locs: seq<R.Loc>)
    requires InServer(p) && !p.inStream && ProperLocs(m, locs) && SlashLocs(locs)
    ensures Run(p, RuleLocations(m, locs)) == WithLocations(p, RuleLocationsOf(m, locs))
    decreases |locs|
  {
    if locs == [] {
      WithNoLocations(p);
    } else {
      ProperLocsTail(m, locs);
      SlashTail(locs);
      assert locs[0].rule.redirect == "" ==> locs[0].rule.targets != [];
      RunAppend(p, RuleLocation(m, locs[0]), RuleLocations(m, locs[1..]));
      RuleLocationRun(p, m, locs[0]);
      RuleLocationsRun(WithLocations(p, [RuleLocationOf(m, locs[0])]), m, locs[1..]);
      WithLocationsTwice(p, [RuleLocationOf(m, locs[0])], RuleLocationsOf(m, locs[1..]));
    }
  }

  /** The locations of a validated mapping's rules are plain prefixes. */
  lemma SortedLocsSlash(m: Mapping)
    requires PlainRoutes(m.routes)
    ensures SlashLocs(SortedLocs(m)) && ProperLocs(m, SortedLocs(m))
  {
    SortedLocsProper(m);
    SortedLocsAreProper(m);
    var locs := SortedLocs(m);
    forall i | 0 <= i < |locs| ensures locs[i].path != "" && locs[i].path[0] == '/' {
      assert locs[i] in locs;
      var r := locs[i].rule;
      assert r in m.routes;
    }
  }

  /** Printing the rules records their groups and adds their locations. */
  lemma RouteRulesRun(p: Parser, m: Mapping)
    requires InServer(p) && !p.inStream && PlainRoutes(m.routes)
    ensures Run(p, RouteRuleLines(m))
      == WithUpstreams(WithLocations(p, RuleLocationsOf(m, SortedLocs(m))), AddList(p.sites.upstreams, RuleGroups(m, SortedLocs(m))))
  {
    var locs := SortedLocs(m);
    SortedLocsSlash(m);
    RunAppend(p, RuleUpstreams(m, locs), RuleLocations(m, locs));
    RuleUpstreamsRun(p, m, locs);
    RuleLocationsRun(WithUpstreams(p, AddList(p.sites.upstreams, RuleGroups(m, locs))), m, locs);
  }

  // ---- everything a mapping serves ----

  /** The locations of a mapping that proxies: its rules and its site between dead ends. */
  ghost predicate LocationsFor(ls: seq<Location>, m: Mapping) {
    exists before, after :: ls == before + (RuleLocationsOf(m, SortedLocs(m)) + Site(m)) + after && DeadEnds(before, m) && DeadEnds(after, m)
  }

  /** What a server block adds beside its server. */
  function RulesAdded(p: Parser, m: Mapping): Parser {
    WithUpstreams(p, AddList(p.sites.upstreams, RuleGroups(m, SortedLocs(m))))
  }

  lemma FourParts(p: Parser, a: seq<Location>, b: seq<Location>, c: seq<Location>, d: seq<Location>)
    requires p.server.Some?
    ensures WithLocations(WithLocations(WithLocations(WithLocations(p, a), b), c), d) == WithLocations(p, a + (b + c) + d)
  {
    WithLocationsTwice(p, a, b);
    WithLocationsTwice(p, a + b, c);
    WithLocationsTwice(p, a + b + c, d);
    assert a + b + c == a + (b + c);
  }

  lemma UpsCommute(p: Parser, ls: seq<Location>, ups: Ups)
    requires p.server.Some?
    ensures WithLocations(WithUpstreams(p, ups), ls) == WithUpstreams(WithLocations(p, ls), ups)
  {}

  lemma ServingSplit(p: Parser, m: Mapping)
    requires m.redirectTo == ""
    ensures Run(p, ServingLines(m))
      == Run(Run(Run(Run(p, PathRouteLocations(m, m.pathRoutes)), RouteRuleLines(m)), SiteLocation(m)), Fallback(m))
  {
    var routes := PathRouteLocations(m, m.pathRoutes);
    RunAppend(p, routes + RouteRuleLines(m) + SiteLocation(m), Fallback(m));
    RunAppend(p, routes + RouteRuleLines(m), SiteLocation(m));
    RunAppend(p, routes, RouteRuleLines(m));
  }

  lemma ServingRun(p: Parser, m: Mapping) returns (ls: seq<Location>)
    requires InServer(p) && !p.inStream && PlainMapping(m) && m.redirectTo == ""
    ensures LocationsFor(ls, m) && Run(p, ServingLines(m)) == RulesAdded(WithLocations(p, ls), m)
  {
    var rules := RuleLocationsOf(m, SortedLocs(m));
    var ups := AddList(p.sites.upstreams, RuleGroups(m, SortedLocs(m)));
    ServingSplit(p, m);
    var before := PathRoutesRun(p, m, m.pathRoutes);
    var q := WithLocations(p, before);
    RouteRulesRun(q, m);
    var r := WithLocations(q, rules);
    SiteRun(WithUpstreams(r, ups), m);
    UpsCommute(r, Site(m), ups);
    var t := WithLocations(r, Site(m));
    var after := FallbackRun(WithUpstreams(t, ups), m);
    UpsCommute(t, after, ups);
    FourParts(p, before, rules, Site(m), after);
    ls := before + (rules + Site(m)) + after;
  }

  lemma RedirectRun(p: Parser, m: Mapping)
    requires InServer(p) && !p.inStream && m.redirectTo != ""
    ensures Run(p, ServingLines(m)) == WithServer(p, p.server.value.(redirect := m.redirectTo))
  {
    var line := D(["return", "301", m.redirectTo]);
    assert "return"[0] == 'r';
    assert !HasPrefix("return", "#");
    assert line.fields[2..] == [m.redirectTo];
    OneDirective(p, line);
  }

  // ---- server blocks ----

  /** What a mapping's http server block parses to. */
  ghost predicate ServerFor(s: Server, m: Mapping) {
    && s.(locations := [], redirect := "") == Named(m)
    && s.redirect == m.redirectTo
    && if m.redirectTo != "" then s.locations == [] else LocationsFor(s.locations, m)
  }

  /** The groups a server block adds. */
  function BlockGroups(m: Mapping): seq<Group> {
    if m.redirectTo == "" then RuleGroups(m, SortedLocs(m)) else []
  }

  lemma ServedRun(p: Parser, m: Mapping) returns (s: Server)
    requires InServer(p) && !p.inStream && PlainMapping(m) && p.server.value == Named(m)
    ensures ServerFor(s, m)
    ensures Run(p, ServingLines(m)) == WithUpstreams(WithServer(p, s), AddList(p.sites.upstreams, BlockGroups(m)))
  {
    if m.redirectTo != "" {
      RedirectRun(p, m);
      s := Named(m).(redirect := m.redirectTo);
    } else {
      var ls := ServingRun(p, m);
      s := Named(m).(locations := ls);
      assert [] + ls == ls;
    }
  }

  lemma BodySplit(p: Parser, m: Mapping, paths: Paths.Paths)
    requires m.protocol == Https ==> m.sslCert.Some?
    ensures Run(p, ServerBody(m, paths)) == Run(Run(Run(p, HeadLines(m, paths)), ServingLines(m)), ExtraHeaderLines(m.extraHeaders))
  {
    RunAppend(p, HeadLines(m, paths) + ServingLines(m), ExtraHeaderLines(m.extraHeaders));
    RunAppend(p, HeadLines(m, paths), ServingLines(m));
  }

  lemma BodyRun(p: Parser, m: Mapping, paths: Paths.Paths) returns (s: Server)
    requires InServer(p) && !p.inStream && p.server.value == NEW_SERVER && PlainMapping(m)
    requires m.protocol == Https ==> m.sslCert.Some?
    ensures ServerFor(s, m)
    ensures Run(p, ServerBody(m, paths)) == WithUpstreams(WithServer(p, s), AddList(p.sites.upstreams, BlockGroups(m)))
  {
    BodySplit(p, m, paths);
    HeadRun(p, m, paths);
    s := ServedRun(WithServer(p, Named(m)), m);
    HeadersIgnored(m.extraHeaders);
    IgnoredRun(Run(WithServer(p, Named(m)), ServingLines(m)), ExtraHeaderLines(m.extraHeaders));
  }

  lemma OpenServer(p: Parser)
    requires AtTop(p)
    ensures Step(p, Open(["server"])) == p.(server := Some(NEW_SERVER), depth := if p.inStream then p.depth + 1 else p.depth)
  {
    var line := Open(["server"]);
    assert line.fields == ["server", "{"];
    assert HasSuffix("{", "{");
    assert "server"[0] == 's';
    assert !HasPrefix("server", "#");
  }

  lemma CloseServerStep(p: Parser)
    requires InServer(p) && !(p.inStream && p.depth == 0)
    ensures Step(p, CLOSE) == CloseServer(p, p.server.value)
  {
    assert "}"[0] == '}';
    assert !HasPrefix("}", "#");
  }

  lemma {:induction false} NamesKept(names: seq<string>)
    requires !NamesPortGuard(names)
    ensures !NamesPortGuard(WithoutUnderscore(names))
  {
    if names != [] {
      forall i | 0 <= i < |names[1..]| ensures !Contains(names[1..][i], "portguard") { assert names[1..][i] == names[i + 1]; }
      NamesKept(names[1..]);
      if names[0] != "_" {
        NotInCons(names[0], WithoutUnderscore(names[1..]));
        assert !Contains(names[0], "portguard");
      }
    }
  }

  lemma NotInCons(name: string, names: seq<string>)
    requires !NamesPortGuard(names) && !Contains(name, "portguard")
    ensures !NamesPortGuard([name] + names)
  {
    var all := [name] + names;
    forall i | 0 <= i < |all| ensures !Contains(all[i], "portguard") {
      if i > 0 { assert all[i] == names[i - 1]; }
    }
  }

  lemma NotManaged(s: Server, m: Mapping)
    requires ServerFor(s, m) && PlainMapping(m)
    ensures !Managed(s)
  {
    NamesKept(m.serverNames);
    assert s.names == WithoutUnderscore(m.serverNames);
  }

  function AddHttp(p: Parser, ss: seq<Server>): Parser {
    p.(sites := p.sites.(http := p.sites.http + ss))
  }

  lemma BlockSplit(p: Parser, body: seq<NLine>)
    ensures Run(p, [COMMENT] + ([Open(["server"])] + body + [CLOSE]) + [BLANK]) == Step(Run(Step(p, Open(["server"])), body), CLOSE)
  {
    Framed(p, [Open(["server"])] + body + [CLOSE]);
    RunAppend(p, [Open(["server"])] + body, [CLOSE]);
    RunAppend(p, [Open(["server"])], body);
    Run1(p, Open(["server"]));
    Run1(Run(Step(p, Open(["server"])), body), CLOSE);
  }

  /** Parsing a printed server block adds its server and the groups of its rules. */
  lemma HttpServerRun(p: Parser, m: Mapping, paths: Paths.Paths) returns (s: Server)
    requires AtTop(p) && !p.inStream && PlainMapping(m) && (m.protocol == Https ==> m.sslCert.Some?)
    ensures ServerFor(s, m)
    ensures Run(p, HttpServer(m, paths)) == AddHttp(WithUpstreams(p, AddList(p.sites.upstreams, BlockGroups(m))), [s])
  {
    BlockSplit(p, ServerBody(m, paths));
    OpenServer(p);
    var q := WithServer(p, NEW_SERVER);
    s := BodyRun(q, m, paths);
    var r := WithUpstreams(WithServer(q, s), AddList(p.sites.upstreams, BlockGroups(m)));
    CloseServerStep(r);
    NotManaged(s, m);
  }

  /** The http mappings that are rendered, in order. */
  function HttpOf(ms: seq<Mapping>): seq<Mapping> {
    if ms == [] then [] else (if HttpRendered(ms[0]) then [ms[0]] else []) + HttpOf(ms[1..])
  }

  function StreamOf(ms: seq<Mapping>): seq<Mapping> {
    if ms == [] then [] else (if StreamRendered(ms[0]) then [ms[0]] else []) + StreamOf(ms[1..])
  }

  ghost predicate ServersFor(ss: seq<Server>, ms: seq<Mapping>) {
    |ss| == |ms| && forall i :: 0 <= i < |ss| ==> ServerFor(ss[i], ms[i])
  }

  predicate AllPlain(ms: seq<Mapping>) {
    forall i :: 0 <= i < |ms| ==> Rendered(ms[i]) ==> PlainMapping(ms[i])
  }

  lemma UpsAndHttp(p: Parser, ups: Ups, later: Ups, x: seq<Server>, y: seq<Server>)
    ensures AddHttp(WithUpstreams(AddHttp(WithUpstreams(p, ups), x), later), y) == AddHttp(WithUpstreams(p, later), x + y)
    ensures AddHttp(WithUpstreams(p, p.sites.upstreams), []) == p
  {
    assert p.sites.http + x + y == p.sites.http + (x + y);
    assert p.sites.http + [] == p.sites.http;
  }

  lemma PlainHead(ms: seq<Mapping>)
    requires ms != [] && AllPlain(ms) && AllRenderable(ms)
    ensures AllPlain(ms[1..]) && AllRenderable(ms[1..]) && Renderable(ms[0]) && (Rendered(ms[0]) ==> PlainMapping(ms[0]))
  {
    forall i | 0 <= i < |ms[1..]| ensures ms[1..][i] == ms[i + 1] {}
  }

  lemma BlockGroupsAre(m: Mapping)
    requires HttpRendered(m)
    ensures GroupsOf(m, RuleKind) == BlockGroups(m)
  {}

  /** One mapping's block, or nothing. */
  lemma ServerBlockRun(p: Parser, m: Mapping, paths: Paths.Paths) returns (ss: seq<Server>)
    requires AtTop(p) && !p.inStream && Renderable(m) && (Rendered(m) ==> PlainMapping(m))
    ensures ServersFor(ss, if HttpRendered(m) then [m] else [])
    ensures Run(p, ServerBlock(m, paths)) == AddHttp(WithUpstreams(p, AddList(p.sites.upstreams, GroupsOf(m, RuleKind))), ss)
  {
    if HttpRendered(m) {
      var s := HttpServerRun(p, m, paths);
      BlockGroupsAre(m);
      ss := [s];
    } else {
      ss := [];
      UpsAndHttp(p, p.sites.upstreams, p.sites.upstreams, [], []);
    }
  }

  lemma ServersAppend(x: seq<Server>, a: seq<Mapping>, y: seq<Server>, b: seq<Mapping>)
    requires ServersFor(x, a) && ServersFor(y, b)
    ensures ServersFor(x + y, a + b)
  {}

  lemma {:induction false} HttpServersRun(p: Parser, ms: seq<Mapping>, paths: Paths.Paths) returns (ss: seq<Server>)
    requires AtTop(p) && !p.inStream && AllPlain(ms) && AllRenderable(ms)
    ensures ServersFor(ss, HttpOf(ms))
    ensures Run(p, HttpServers(ms, paths)) == AddHttp(WithUpstreams(p, AddList(p.sites.upstreams, Flat(ms, RuleKind))), ss)
    decreases |ms|
  {
    var ups := p.sites.upstreams;
    if ms == [] {
      ss := [];
      UpsAndHttp(p, ups, ups, [], []);
    } else {
      PlainHead(ms);
      RunAppend(p, ServerBlock(ms[0], paths), HttpServers(ms[1..], paths));
      var first := ServerBlockRun(p, ms[0], paths);
      var next := AddList(ups, GroupsOf(ms[0], RuleKind));
      var rest := HttpServersRun(AddHttp(WithUpstreams(p, next), first), ms[1..], paths);
      UpsAndHttp(p, next, AddList(next, Flat(ms[1..], RuleKind)), first, rest);
      FlatCons(ups, ms, RuleKind);
      ServersAppend(first, if HttpRendered(ms[0]) then [ms[0]] else [], rest, HttpOf(ms[1..]));
      ss := first + rest;
    }
  }

  // ---- upstream groups ----

  lemma BalanceIsPlain(m: Mapping)
    ensures BalanceLines(HttpBalance(m)) && BalanceLines(StreamBalance(m))
  {}

  lemma NamesNotEmpty(m: Mapping)
    ensures HttpUpstreamName(m) != "" && StreamUpstreamName(m) != ""
  {}

  lemma OneGroup(ups: Ups, g: Group)
    ensures AddList(ups, [g]) == AddGroup(ups, g.name, g.targets)
  {
    AddListCons(ups, g, []);
    assert [g] + [] == [g];
  }

  lemma UpstreamOfRun(p: Parser, m: Mapping)
    requires AtTop(p)
    ensures Run(p, UpstreamOf(m)) == WithUpstreams(p, AddList(p.sites.upstreams, GroupsOf(m, HttpKind)))
  {
    if HttpRendered(m) && NeedsUpstream(m) {
      var block := UpstreamBlock(HttpUpstreamName(m), HttpBalance(m), m.targets, true);
      RunAppend(p, block, [BLANK]);
      BalanceIsPlain(m);
      NamesNotEmpty(m);
      UpstreamRun(p, HttpUpstreamName(m), HttpBalance(m), m.targets, true);
      BlankStep(Run(p, block));
      OneGroup(p.sites.upstreams, Group(HttpUpstreamName(m), m.targets));
    }
  }

  lemma FlatCons(ups: Ups, ms: seq<Mapping>, kind: Kind)
    requires ms != []
    ensures AddList(ups, Flat(ms, kind)) == AddList(AddList(ups, GroupsOf(ms[0], kind)), Flat(ms[1..], kind))
  {
    AddListAppend(ups, GroupsOf(ms[0], kind), Flat(ms[1..], kind));
  }

  lemma {:induction false} UpstreamsRun(p: Parser, ms: seq<Mapping>)
    requires AtTop(p)
    ensures Run(p, Upstreams(ms)) == WithUpstreams(p, AddList(p.sites.upstreams, Flat(ms, HttpKind)))
    decreases |ms|
  {
    if ms != [] {
      RunAppend(p, UpstreamOf(ms[0]), Upstreams(ms[1..]));
      UpstreamOfRun(p, ms[0]);
      UpstreamsRun(Run(p, UpstreamOf(ms[0])), ms[1..]);
      FlatCons(p.sites.upstreams, ms, HttpKind);
    }
  }

  // ---- stream servers ----

  /** What a mapping's stream server block parses to. */
  function StreamServerOf(m: Mapping): Server {
    Server(m.listenPort, false, [], [Location("/", StreamUpstreamName(m), false, false)], "", false)
  }

  function StreamServersOf(ms: seq<Mapping>): seq<Server> {
    if ms == [] then [] else (if StreamRendered(ms[0]) then [StreamServerOf(ms[0])] else []) + StreamServersOf(ms[1..])
  }

  lemma StreamListenDirective(addr: string, udp: seq<string>, port: int)
    requires ':' in addr && ListenPort(addr) == port && (udp == [] || udp == ["udp"])
    ensures ServerDirective(NEW_SERVER, ["listen", addr] + udp, true) == NEW_SERVER.(port := port)
  {
    var head := ["listen", addr];
    AddressIsNoFlag(addr);
    assert "ssl" !in head && "default_server" !in head;
    assert "ssl" !in udp && "default_server" !in udp;
    assert (head + udp)[0] == "listen" && (head + udp)[1] == addr;
  }

  lemma StreamListen(p: Parser, m: Mapping)
    requires InServer(p) && p.inStream && p.server.value == NEW_SERVER && 0 <= m.listenPort <= MAX_INT64
    ensures Run(p, [StreamListenLine(m)]) == WithServer(p, NEW_SERVER.(port := m.listenPort))
  {
    var addr := ListenAddr(m.listenIP, m.listenPort);
    var udp: seq<string> := if m.protocol == Udp then ["udp"] else [];
    ListenReadsBack(m.listenIP, m.listenPort);
    StreamListenDirective(addr, udp, m.listenPort);
    ListenStep(p, addr, udp);
  }

  lemma StreamPass(p: Parser, m: Mapping)
    requires InServer(p) && p.inStream && p.server.value == NEW_SERVER.(port := m.listenPort)
    ensures Run(p, [D(["proxy_pass", StreamUpstreamName(m)])]) == WithServer(p, StreamServerOf(m))
  {
    var line := D(["proxy_pass", StreamUpstreamName(m)]);
    assert "proxy_pass"[0] == 'p';
    assert !HasPrefix("proxy_pass", "#");
    OneDirective(p, line);
    assert [] + [Location("/", StreamUpstreamName(m), false, false)] == [Location("/", StreamUpstreamName(m), false, false)];
  }

  lemma StreamBodyRun(p: Parser, m: Mapping)
    requires InServer(p) && p.inStream && p.server.value == NEW_SERVER && 0 <= m.listenPort <= MAX_INT64
    ensures Run(p, StreamBody(m)) == WithServer(p, StreamServerOf(m))
  {
    var listen, pass, timeout := [StreamListenLine(m)], [D(["proxy_pass", StreamUpstreamName(m)])], [D(["proxy_connect_timeout", "5s"])];
    RunAppend(p, listen + pass, timeout);
    RunAppend(p, listen, pass);
    StreamListen(p, m);
    StreamPass(WithServer(p, NEW_SERVER.(port := m.listenPort)), m);
    IgnoredWord(["proxy_connect_timeout", "5s"]);
    IgnoredRun(WithServer(p, StreamServerOf(m)), timeout);
  }

  predicate AtStream(p: Parser) {
    AtTop(p) && p.inStream && p.depth == 0
  }

  function AddStream(p: Parser, ss: seq<Server>): Parser {
    p.(sites := p.sites.(stream := p.sites.stream + ss))
  }

  lemma StreamBlockRun(p: Parser, m: Mapping)
    requires AtStream(p) && 1 <= m.listenPort <= MAX_INT64
    ensures Run(p, [Open(["server"])] + StreamBody(m) + [CLOSE]) == AddStream(p, [StreamServerOf(m)])
  {
    var body := StreamBody(m);
    RunAppend(p, [Open(["server"])] + body, [CLOSE]);
    RunAppend(p, [Open(["server"])], body);
    Run1(p, Open(["server"]));
    OpenServer(p);
    var q := p.(server := Some(NEW_SERVER), depth := 1);
    StreamBodyRun(q, m);
    var r := WithServer(q, StreamServerOf(m));
    Run1(r, CLOSE);
    CloseServerStep(r);
  }

  lemma StreamUpstreamRun(p: Parser, m: Mapping)
    requires AtTop(p) && StreamRendered(m)
    ensures Run(p, [COMMENT] + UpstreamBlock(StreamUpstreamName(m), StreamBalance(m), m.targets, false))
      == WithUpstreams(p, AddList(p.sites.upstreams, GroupsOf(m, StreamKind)))
  {
    var block := UpstreamBlock(StreamUpstreamName(m), StreamBalance(m), m.targets, false);
    RunAppend(p, [COMMENT], block);
    BlankStep(p);
    BalanceIsPlain(m);
    NamesNotEmpty(m);
    UpstreamRun(p, StreamUpstreamName(m), StreamBalance(m), m.targets, false);
    if m.targets != [] { OneGroup(p.sites.upstreams, Group(StreamUpstreamName(m), m.targets)); }
  }

  /** What one mapping's stream block adds. */
  function StreamStep(p: Parser, m: Mapping): Parser {
    AddStream(WithUpstreams(p, AddList(p.sites.upstreams, GroupsOf(m, StreamKind))), if StreamRendered(m) then [StreamServerOf(m)] else [])
  }

  lemma StreamServerRun(p: Parser, m: Mapping)
    requires AtStream(p) && (StreamRendered(m) ==> PlainMapping(m))
    ensures Run(p, StreamBlock(m)) == StreamStep(p, m)
  {
    if StreamRendered(m) {
      var group := [COMMENT] + UpstreamBlock(StreamUpstreamName(m), StreamBalance(m), m.targets, false);
      var server := [Open(["server"])] + StreamBody(m) + [CLOSE];
      RunAppend(p, group + server, [BLANK]);
      RunAppend(p, group, server);
      StreamUpstreamRun(p, m);
      StreamBlockRun(Run(p, group), m);
      BlankStep(StreamStep(p, m));
    } else {
      assert p.sites.stream + [] == p.sites.stream;
    }
  }

  function StreamResult(p: Parser, ms: seq<Mapping>): Parser {
    AddStream(WithUpstreams(p, AddList(p.sites.upstreams, Flat(ms, StreamKind))), StreamServersOf(ms))
  }

  lemma UpsAndStream(p: Parser, ups: Ups, later: Ups, x: seq<Server>, y: seq<Server>)
    ensures AddStream(WithUpstreams(AddStream(WithUpstreams(p, ups), x), later), y) == AddStream(WithUpstreams(p, later), x + y)
  {
    assert p.sites.stream + x + y == p.sites.stream + (x + y);
  }

  lemma StreamResultStep(p: Parser, ms: seq<Mapping>)
    requires ms != []
    ensures StreamResult(StreamStep(p, ms[0]), ms[1..]) == StreamResult(p, ms)
  {
    var next := AddList(p.sites.upstreams, GroupsOf(ms[0], StreamKind));
    FlatCons(p.sites.upstreams, ms, StreamKind);
    UpsAndStream(p, next, AddList(next, Flat(ms[1..], StreamKind)), if StreamRendered(ms[0]) then [StreamServerOf(ms[0])] else [],
                 StreamServersOf(ms[1..]));
  }

  lemma {:induction false} StreamServersRun(p: Parser, ms: seq<Mapping>)
    requires AtStream(p) && AllPlain(ms)
    ensures Run(p, StreamServers(ms)) == StreamResult(p, ms)
    decreases |ms|
  {
    if ms == [] {
      assert p.sites.stream + [] == p.sites.stream;
    } else {
      assert Rendered(ms[0]) ==> PlainMapping(ms[0]);
      forall i | 0 <= i < |ms[1..]| ensures ms[1..][i] == ms[i + 1] {}
      RunAppend(p, StreamBlock(ms[0]), StreamServers(ms[1..]));
      StreamServerRun(p, ms[0]);
      StreamServersRun(StreamStep(p, ms[0]), ms[1..]);
      StreamResultStep(p, ms);
    }
  }

  // ---- the whole file ----

  /** Lines outside every block the parser knows. */
  predicate TopLine(line: NLine) {
    line.fields == [] || (line.fields[0] != "upstream" && line.fields[0] != "server" && line.fields[0] != "stream")
  }

  lemma TopStep(p: Parser, line: NLine)
    requires AtTop(p) && !p.inStream && TopLine(line)
    ensures Step(p, line) == p
  {}

  lemma {:induction false} TopRun(p: Parser, lines: seq<NLine>)
    requires AtTop(p) && !p.inStream && forall i :: 0 <= i < |lines| ==> TopLine(lines[i])
    ensures Run(p, lines) == p
    decreases |lines|
  {
    if lines != [] {
      assert TopLine(lines[0]);
      TopStep(p, lines[0]);
      TopRun(p, lines[1..]);
    }
  }

  predicate TopWord(t: string) {
    t in ["#", "user", "worker_processes", "pid", "error_log", "include", "events", "worker_connections", "}", "http", "sendfile",
          "tcp_nopush", "types_hash_max_size", "default_type", "ssl_protocols", "ssl_prefer_server_ciphers", "access_log", "gzip",
          "client_max_body_size"]
  }

  lemma TopWordIsFree(line: NLine)
    requires line.fields != [] ==> TopWord(line.fields[0])
    ensures TopLine(line)
  {
    if line.fields != [] {
      var t := line.fields[0];
      assert t[0] != 's' || |t| != 6;
      assert t[0] != 'u' || |t| != 8;
    }
  }

  lemma MainBodyIsTop()
    ensures forall i :: 0 <= i < |MAIN_BODY| ==> TopLine(MAIN_BODY[i])
  {
    forall i | 0 <= i < |MAIN_BODY| ensures TopLine(MAIN_BODY[i]) { TopWordIsFree(MAIN_BODY[i]); }
  }

  /** The groups of the http part. */
  function HttpUps(ms: seq<Mapping>): Ups {
    AddList(AddList(map[], Flat(ms, HttpKind)), Flat(ms, RuleKind))
  }

  lemma HttpConfSplit(ms: seq<Mapping>, paths: Paths.Paths)
    requires AllRenderable(ms)
    ensures Run(START, MAIN_BODY + HttpConf(ms, paths)) == Run(Run(START, Upstreams(ms)), HttpServers(ms, paths))
  {
    var ups, servers := Upstreams(ms), HttpServers(ms, paths);
    RunAppend(START, MAIN_BODY, ups + servers + [COMMENT]);
    MainBodyIsTop();
    TopRun(START, MAIN_BODY);
    RunAppend(START, ups + servers, [COMMENT]);
    RunAppend(START, ups, servers);
    BlankStep(Run(START, ups + servers));
  }

  lemma HttpConfRun(ms: seq<Mapping>, paths: Paths.Paths) returns (ss: seq<Server>)
    requires AllPlain(ms) && AllRenderable(ms)
    ensures ServersFor(ss, HttpOf(ms))
    ensures Run(START, MAIN_BODY + HttpConf(ms, paths)) == START.(sites := Sites(ss, [], HttpUps(ms)))
  {
    HttpConfSplit(ms, paths);
    UpstreamsRun(START, ms);
    ss := HttpServersRun(Run(START, Upstreams(ms)), ms, paths);
    assert [] + ss == ss;
  }

  lemma OpenStream(p: Parser)
    requires AtTop(p)
    ensures Step(p, Open(["stream"])) == p.(inStream := true, depth := 0)
  {
    assert Open(["stream"]).fields == ["stream", "{"];
    assert "stream"[0] == 's';
    assert !HasPrefix("stream", "#");
  }

  lemma TurnRun(p: Parser)
    requires AtTop(p) && !p.inStream
    ensures Run(p, TURN) == p.(inStream := true, depth := 0)
  {
    RunAppend(p, [CLOSE] + [BLANK], [Open(["stream"])]);
    RunAppend(p, [CLOSE], [BLANK]);
    TopWordIsFree(CLOSE);
    TopRun(p, [CLOSE]);
    BlankStep(p);
    Run1(p, Open(["stream"]));
    OpenStream(p);
  }

  lemma LeaveStream(p: Parser)
    requires AtStream(p)
    ensures Run(p, [CLOSE]) == p.(inStream := false)
  {
    Run1(p, CLOSE);
    assert "}"[0] == '}';
    assert !HasPrefix("}", "#");
  }

  lemma StreamConfRun(p: Parser, ms: seq<Mapping>)
    requires AtTop(p) && !p.inStream && AllPlain(ms) && p.sites.stream == []
    ensures Run(p, TURN + StreamConf(ms) + [CLOSE]).sites
      == p.sites.(stream := StreamServersOf(ms), upstreams := AddList(p.sites.upstreams, Flat(ms, StreamKind)))
  {
    var q := p.(inStream := true, depth := 0);
    RunAppend(p, TURN + StreamConf(ms), [CLOSE]);
    RunAppend(p, TURN, StreamConf(ms));
    TurnRun(p);
    RunAppend(q, StreamServers(ms), [COMMENT]);
    StreamServersRun(q, ms);
    BlankStep(StreamResult(q, ms));
    LeaveStream(StreamResult(q, ms));
    assert [] + StreamServersOf(ms) == StreamServersOf(ms);
  }

  lemma AllGroupsSplit(ms: seq<Mapping>)
    ensures AllGroups(ms) == AddList(HttpUps(ms), Flat(ms, StreamKind))
  {
    AddListAppend(map[], Flat(ms, HttpKind) + Flat(ms, RuleKind), Flat(ms, StreamKind));
    AddListAppend(map[], Flat(ms, HttpKind), Flat(ms, RuleKind));
  }

  lemma ExpandedParts(ms: seq<Mapping>, paths: Paths.Paths)
    requires AllRenderable(HR.SortById(ms))
    ensures var sorted := HR.SortById(ms);
      Expanded(ms, paths) == Some((MAIN_BODY + HttpConf(sorted, paths)) + (TURN + StreamConf(sorted) + [CLOSE]))
  {
    var sorted := HR.SortById(ms);
    Associate(MAIN_BODY + HttpConf(sorted, paths), TURN + StreamConf(sorted), [CLOSE]);
    Associate(MAIN_BODY + HttpConf(sorted, paths), TURN, StreamConf(sorted));
  }

  /** What parsing the whole expanded configuration yields. */
  lemma ConfigRun(ms: seq<Mapping>, paths: Paths.Paths) returns (ss: seq<Server>)
    requires AllPlain(HR.SortById(ms)) && AllRenderable(HR.SortById(ms))
    ensures Expanded(ms, paths).Some?
    ensures ServersFor(ss, HttpOf(HR.SortById(ms)))
    ensures Run(START, Expanded(ms, paths).value).sites == Sites(ss, StreamServersOf(HR.SortById(ms)), AllGroups(HR.SortById(ms)))
  {
    var sorted := HR.SortById(ms);
    ExpandedParts(ms, paths);
    var http, rest := MAIN_BODY + HttpConf(sorted, paths), TURN + StreamConf(sorted) + [CLOSE];
    RunAppend(START, http, rest);
    ss := HttpConfRun(sorted, paths);
    StreamConfRun(Run(START, http), sorted);
    AllGroupsSplit(sorted);
  }
}
