/** The parser followed block by block over a printed haproxy.cfg: a block starts with a
    section header, so what it adds does not depend on where the parser was. */
module HAProxyBlocks {
  import opened Text
  import opened Model
  import opened Import
  import opened HAProxyParser
  import opened HAProxyTokens
  import HR = HAProxyRender
  import R = Routes
  import Paths

  // ---- lines inside a frontend ----

  /** The parser leaves a frontend alone on this line. */
  ghost predicate QuietFront(line: Line) {
    Blank(line) || (SectionWord(line) == "" && forall f: Frontend :: FrontendLine(f, line) == f)
  }

  /** At most `rules` changes. */
  ghost predicate AddsRules(line: Line) {
    Blank(line) || (SectionWord(line) == "" && forall f: Frontend :: FrontendLine(f, line) == f.(rules := FrontendLine(f, line).rules))
  }

  lemma KeywordCase()
    ensures NoUpper("default_backend") && NoUpper("use_backend")
  {
    LiteralCase("default_backend");
    LiteralCase("use_backend");
  }

  lemma LiteralCase(s: string)
    requires s == "default_backend" || s == "use_backend"
    ensures NoUpper(s)
  {
    forall i | 0 <= i < |s| ensures 'a' <= s[i] <= 'z' || s[i] == '_' {}
  }

  lemma LowerHead(line: Line)
    requires line != [] && NoUpper(line[0])
    ensures LowerLine(line)[0] == line[0]
  {
    LowerFixed(line[0]);
  }

  lemma PlainHeadQuiet(line: Line)
    requires line != [] && PlainHead(line[0])
    ensures QuietFront(line) && AddsRules(line) && QuietBack(line)
  {
    var t := line[0];
    NotASection(t);
    LowerHead(line);
    assert t[0] == 'a' || t[0] == 'h' || t[0] == 't' || t[0] == 'o';
    assert !HasPrefix(t, "#");
    HeadDiffers(t, "bind");
    HeadDiffers(t, "mode");
    HeadDiffers(t, "default_backend");
    HeadDiffers(t, "use_backend");
    HeadDiffers(t, "balance");
    HeadDiffers(t, "server");
  }

  lemma HeadDiffers(t: string, w: string)
    requires t != [] && w != [] && t[0] != w[0]
    ensures !HasPrefix(t, w)
  {
    PrefixDiffers(t, w, 0);
  }

  lemma UseLineAddsRules(line: Line)
    requires line != [] && line[0] == "use_backend"
    ensures AddsRules(line)
  {
    NotASection("use_backend");
    KeywordCase();
    LowerHead(line);
    UseHead(line);
    assert !Blank(line) by { HeadDiffers("use_backend", "#"); }
  }

  lemma UseHead(line: Line)
    requires line != [] && line[0] == "use_backend" && LowerLine(line)[0] == "use_backend"
    ensures forall f: Frontend :: FrontendLine(f, line) == f.(rules := FrontendLine(f, line).rules)
  {
    HeadDiffers("use_backend", "bind");
    HeadDiffers("use_backend", "mode");
    HeadDiffers("use_backend", "default_backend");
    HeadDiffers("use_backend", "acl");
    var low := LowerLine(line);
    assert !StartsWith(low, "bind") && !StartsWith(low, "mode") && !StartsWith(low, "default_backend") && !StartsWith(low, "acl");
  }

  /** The parser with its open frontend replaced. */
  function WithFront(p: Parser, f: Frontend): Parser
    requires p.cfg.frontends != []
  {
    p.(cfg := p.cfg.(frontends := p.cfg.frontends[..|p.cfg.frontends| - 1] + [f]))
  }

  function LastFront(p: Parser): Frontend
    requires p.cfg.frontends != []
  {
    p.cfg.frontends[|p.cfg.frontends| - 1]
  }

  predicate AtFront(p: Parser) {
    p.section == InFrontend && p.cfg.frontends != []
  }

  lemma WithFrontFacts(p: Parser, f: Frontend, g: Frontend)
    requires AtFront(p)
    ensures AtFront(WithFront(p, f)) && LastFront(WithFront(p, f)) == f
    ensures WithFront(WithFront(p, f), g) == WithFront(p, g)
    ensures WithFront(p, LastFront(p)) == p
  {
    var fs := p.cfg.frontends;
    assert fs == fs[..|fs| - 1] + [fs[|fs| - 1]];
    assert (fs[..|fs| - 1] + [f])[..|fs| - 1] == fs[..|fs| - 1];
  }

  lemma FrontStep(p: Parser, line: Line)
    requires AtFront(p) && !Blank(line) && SectionWord(line) == ""
    ensures Step(p, line) == WithFront(p, FrontendLine(LastFront(p), line))
  {}

  lemma {:induction false} QuietRun(p: Parser, lines: seq<Line>)
    requires AtFront(p) && forall i :: 0 <= i < |lines| ==> QuietFront(lines[i])
    ensures Run(p, lines) == p
    decreases |lines|
  {
    if lines != [] {
      var line := lines[0];
      assert QuietFront(line);
      if !Blank(line) {
        FrontStep(p, line);
        WithFrontFacts(p, LastFront(p), LastFront(p));
      }
      QuietRun(p, lines[1..]);
    }
  }

  lemma {:induction false} RulesRun(p: Parser, lines: seq<Line>) returns (rules: seq<string>)
    requires AtFront(p) && forall i :: 0 <= i < |lines| ==> AddsRules(lines[i])
    ensures Run(p, lines) == WithFront(p, LastFront(p).(rules := rules))
    decreases |lines|
  {
    WithFrontFacts(p, LastFront(p), LastFront(p));
    if lines == [] {
      rules := LastFront(p).rules;
    } else {
      var line := lines[0];
      assert AddsRules(line);
      if Blank(line) {
        rules := RulesRun(p, lines[1..]);
      } else {
        FrontStep(p, line);
        var f := FrontendLine(LastFront(p), line);
        WithFrontFacts(p, f, f);
        rules := RulesRun(WithFront(p, f), lines[1..]);
        WithFrontFacts(p, f, f.(rules := rules));
      }
    }
  }

  // ---- lines inside a backend ----

  ghost predicate QuietBack(line: Line) {
    Blank(line) || (SectionWord(line) == "" && forall b: Backend :: BackendLine(b, line) == b)
  }

  function BodyOf(b: Backend, lines: seq<Line>): Backend
    decreases |lines|
  {
    if lines == [] then b else BodyOf(if Blank(lines[0]) then b else BackendLine(b, lines[0]), lines[1..])
  }

  ghost predicate NoHeader(line: Line) {
    Blank(line) || SectionWord(line) == ""
  }

  predicate AtBack(p: Parser) {
    p.section == InBackend && p.cfg.backends != []
  }

  function WithBack(p: Parser, b: Backend): Parser
    requires p.cfg.backends != []
  {
    p.(cfg := p.cfg.(backends := p.cfg.backends[..|p.cfg.backends| - 1] + [b]))
  }

  function LastBack(p: Parser): Backend
    requires p.cfg.backends != []
  {
    p.cfg.backends[|p.cfg.backends| - 1]
  }

  lemma WithBackFacts(p: Parser, b: Backend, c: Backend)
    requires AtBack(p)
    ensures AtBack(WithBack(p, b)) && LastBack(WithBack(p, b)) == b
    ensures WithBack(WithBack(p, b), c) == WithBack(p, c)
    ensures WithBack(p, LastBack(p)) == p
  {
    var bs := p.cfg.backends;
    assert bs == bs[..|bs| - 1] + [bs[|bs| - 1]];
    assert (bs[..|bs| - 1] + [b])[..|bs| - 1] == bs[..|bs| - 1];
  }

  lemma BackStep(p: Parser, line: Line)
    requires AtBack(p) && !Blank(line) && SectionWord(line) == ""
    ensures Step(p, line) == WithBack(p, BackendLine(LastBack(p), line))
  {}

  lemma {:induction false} BackRun(p: Parser, lines: seq<Line>)
    requires AtBack(p) && AllNoHeader(lines)
    ensures Run(p, lines) == WithBack(p, BodyOf(LastBack(p), lines))
    decreases |lines|
  {
    WithBackFacts(p, LastBack(p), LastBack(p));
    if lines != [] {
      var line := lines[0];
      assert NoHeader(line);
      if Blank(line) {
        BackRun(p, lines[1..]);
      } else {
        BackStep(p, line);
        var b := BackendLine(LastBack(p), line);
        WithBackFacts(p, b, b);
        BackRun(WithBack(p, b), lines[1..]);
        WithBackFacts(p, b, BodyOf(b, lines[1..]));
      }
    }
  }

  lemma {:induction false} BodyName(b: Backend, lines: seq<Line>)
    ensures BodyOf(b, lines).name == b.name
    decreases |lines|
  {
    if lines != [] { BodyName(if Blank(lines[0]) then b else BackendLine(b, lines[0]), lines[1..]); }
  }

  lemma {:induction false} BodyAppend(b: Backend, x: seq<Line>, y: seq<Line>)
    ensures BodyOf(b, x + y) == BodyOf(BodyOf(b, x), y)
    decreases |x|
  {
    if x == [] {
      assert x + y == y;
    } else {
      BodyAppend(if Blank(x[0]) then b else BackendLine(b, x[0]), x[1..], y);
      assert (x + y)[1..] == x[1..] + y;
    }
  }

  lemma {:induction false} QuietBody(b: Backend, lines: seq<Line>)
    requires forall i :: 0 <= i < |lines| ==> QuietBack(lines[i])
    ensures BodyOf(b, lines) == b
    decreases |lines|
  {
    if lines != [] {
      assert QuietBack(lines[0]);
      QuietBody(b, lines[1..]);
    }
  }

  lemma OpenFront(p: Parser, name: string)
    ensures Step(p, ["frontend", name]) == Parser(InFrontend, p.cfg.(frontends := p.cfg.frontends + [Frontend(name, [], "http", "", [])]))
  {
    HeaderWord(name);
    var line := ["frontend", name];
    assert line[1..] == [name];
    assert !HasPrefix("frontend", "#") by { HeadDiffers("frontend", "#"); }
  }

  lemma OpenBack(p: Parser, name: string)
    ensures Step(p, ["backend", name]) == Parser(InBackend, p.cfg.(backends := p.cfg.backends + [Backend(name, "http", "roundrobin", [])]))
  {
    HeaderWord(name);
    var line := ["backend", name];
    assert line[1..] == [name];
    assert !HasPrefix("backend", "#") by { HeadDiffers("backend", "#"); }
    assert "backend" != "frontend";
  }

  // ---- a printed backend ----

  function ServersOf(targets: seq<Target>, i: nat): seq<Server> {
    if targets == [] then [] else [ServerOf(i, targets[0])] + ServersOf(targets[1..], i + 1)
  }

  lemma ServerLineBody(b: Backend, i: nat, t: Target)
    requires PlainTarget(t)
    ensures NoHeader(HR.ServerLine(i, t)) && !Blank(HR.ServerLine(i, t))
    ensures BackendLine(b, HR.ServerLine(i, t)) == b.(servers := b.servers + [ServerOf(i, t)])
  {
    var line := HR.ServerLine(i, t);
    assert line[0] == "server";
    NotASection("server");
    LowerHead(line);
    HeadDiffers("server", "#");
    HeadDiffers("server", "mode");
    HeadDiffers("server", "balance");
    ServerLineReadsBack(i, t);
  }

  lemma BodyStep(b: Backend, line: Line, rest: seq<Line>)
    requires !Blank(line)
    ensures BodyOf(b, [line] + rest) == BodyOf(BackendLine(b, line), rest)
  {
    assert ([line] + rest)[1..] == rest;
  }

  lemma ServersGrow(servers: seq<Server>, targets: seq<Target>, i: nat)
    requires targets != []
    ensures servers + [ServerOf(i, targets[0])] + ServersOf(targets[1..], i + 1) == servers + ServersOf(targets, i)
  {}

  lemma {:induction false} ServerLinesBody(b: Backend, targets: seq<Target>, i: nat)
    requires forall t :: t in targets ==> PlainTarget(t)
    ensures BodyOf(b, HR.ServerLines(targets, i)) == b.(servers := b.servers + ServersOf(targets, i))
    decreases |targets|
  {
    if targets == [] {
      assert b.servers + [] == b.servers;
    } else {
      ServerLineBody(b, i, targets[0]);
      BodyStep(b, HR.ServerLine(i, targets[0]), HR.ServerLines(targets[1..], i + 1));
      ServerLinesBody(b.(servers := b.servers + [ServerOf(i, targets[0])]), targets[1..], i + 1);
      ServersGrow(b.servers, targets, i);
    }
  }

  ghost predicate AllNoHeader(lines: seq<Line>) {
    forall i :: 0 <= i < |lines| ==> NoHeader(lines[i])
  }

  lemma AllNoHeaderAppend(x: seq<Line>, y: seq<Line>)
    requires AllNoHeader(x) && AllNoHeader(y)
    ensures AllNoHeader(x + y)
  {}

  lemma {:induction false} ServerLinesNoHeader(targets: seq<Target>, i: nat)
    ensures AllNoHeader(HR.ServerLines(targets, i))
    decreases |targets|
  {
    if targets != [] {
      NotASection("server");
      assert HR.ServerLine(i, targets[0])[0] == "server";
      ServerLinesNoHeader(targets[1..], i + 1);
      AllNoHeaderAppend([HR.ServerLine(i, targets[0])], HR.ServerLines(targets[1..], i + 1));
    }
  }

  /** A balance algorithm as validation accepts it: one lower-case word, or none. */
  predicate PlainBalance(balance: string) {
    NoUpper(balance)
  }

  function BalanceOf(m: Mapping): string {
    if m.balance == "" then "roundrobin" else m.balance
  }

  lemma BalanceLineBody(b: Backend, balance: string)
    requires NoUpper(balance)
    ensures NoHeader(["balance", balance]) && !Blank(["balance", balance])
    ensures BackendLine(b, ["balance", balance]) == b.(balance := balance)
  {
    var line := ["balance", balance];
    NotASection("balance");
    LowerHead(line);
    LowerFixed(balance);
    HeadDiffers("balance", "#");
    HeadDiffers("balance", "mode");
    assert LowerLine(line) == line && line[1..] == [balance];
  }

  lemma ModeLineBody(b: Backend)
    ensures NoHeader(["mode", "tcp"]) && !Blank(["mode", "tcp"])
    ensures BackendLine(b, ["mode", "tcp"]) == b.(mode := "tcp")
  {
    var line := ["mode", "tcp"];
    NotASection("mode");
    LowerHead(line);
    LowerFixed("tcp");
    HeadDiffers("mode", "#");
    assert LowerLine(line) == line && line[1..] == ["tcp"];
  }

  /** What follows the server lines of a backend, and its Host header line. */
  lemma QuietTails(m: Mapping)
    ensures QuietBack(HR.TUNNEL) && QuietFront(HR.TUNNEL) && AddsRules(HR.TUNNEL) && NoHeader(HR.TUNNEL)
    ensures QuietBack(["http-request", "set-header", "Host", m.hostHeader])
    ensures NoHeader(["http-request", "set-header", "Host", m.hostHeader])
  {
    PlainHeadQuiet(HR.TUNNEL);
    PlainHeadQuiet(["http-request", "set-header", "Host", m.hostHeader]);
  }

  /** The lines of a backend after its header. */
  function BackendBody(m: Mapping, targets: seq<Target>, tcpMode: bool): seq<Line> {
    BackendHead(m, tcpMode) + HR.ServerLines(targets, 0) + BackendTail(m)
  }

  function BackendHead(m: Mapping, tcpMode: bool): seq<Line> {
    (if tcpMode then [["mode", "tcp"]] else []) + [["balance", BalanceOf(m)]]
    + (if !tcpMode && m.hostHeader != "" then [["http-request", "set-header", "Host", m.hostHeader]] else [])
  }

  function BackendTail(m: Mapping): seq<Line> {
    (if m.webSocket then [HR.TUNNEL] else []) + [[]]
  }

  lemma BackendSplits(be: string, m: Mapping, targets: seq<Target>, tcpMode: bool)
    ensures HR.BackendLines(be, m, targets, tcpMode) == [["backend", be]] + BackendBody(m, targets, tcpMode)
  {
    var x: seq<Line> := [["backend", be]];
    assert HR.BackendLines(be, m, targets, tcpMode) == x + BackendBody(m, targets, tcpMode);
  }

  lemma BackendHeadBody(b: Backend, m: Mapping, tcpMode: bool)
    requires PlainBalance(m.balance)
    ensures BodyOf(b, BackendHead(m, tcpMode)) == b.(mode := if tcpMode then "tcp" else b.mode, balance := BalanceOf(m))
  {
    if tcpMode { TcpHeadBody(b, m); } else { HttpHeadBody(b, m); }
  }

  lemma BodyBalance(b: Backend, balance: string, rest: seq<Line>)
    requires NoUpper(balance)
    ensures BodyOf(b, [["balance", balance]] + rest) == BodyOf(b.(balance := balance), rest)
  {
    BalanceLineBody(b, balance);
    BodyStep(b, ["balance", balance], rest);
  }

  lemma BodyMode(b: Backend, rest: seq<Line>)
    ensures BodyOf(b, [["mode", "tcp"]] + rest) == BodyOf(b.(mode := "tcp"), rest)
  {
    ModeLineBody(b);
    BodyStep(b, ["mode", "tcp"], rest);
  }

  lemma TcpHeadBody(b: Backend, m: Mapping)
    requires PlainBalance(m.balance)
    ensures BodyOf(b, BackendHead(m, true)) == b.(mode := "tcp", balance := BalanceOf(m))
  {
    BodyMode(b, [["balance", BalanceOf(m)]] + []);
    BodyBalance(b.(mode := "tcp"), BalanceOf(m), []);
    HeadShape(m, true);
  }

  lemma HeadShape(m: Mapping, tcpMode: bool)
    ensures BackendHead(m, tcpMode) ==
      if tcpMode then [["mode", "tcp"]] + ([["balance", BalanceOf(m)]] + []) else [["balance", BalanceOf(m)]] + HostLine(m)
  {}

  function HostLine(m: Mapping): seq<Line> {
    if m.hostHeader != "" then [["http-request", "set-header", "Host", m.hostHeader]] else []
  }

  lemma HttpHeadBody(b: Backend, m: Mapping)
    requires PlainBalance(m.balance)
    ensures BodyOf(b, BackendHead(m, false)) == b.(balance := BalanceOf(m))
  {
    BodyBalance(b, BalanceOf(m), HostLine(m));
    HostLineQuiet(b.(balance := BalanceOf(m)), m);
    HeadShape(m, false);
  }

  lemma HostLineQuiet(b: Backend, m: Mapping)
    ensures BodyOf(b, HostLine(m)) == b
  {
    QuietTails(m);
    QuietBody(b, HostLine(m));
  }

  /** The backend a mapping's targets are printed as. */
  function BackendOf(be: string, m: Mapping, targets: seq<Target>, tcpMode: bool): Backend {
    Backend(be, if tcpMode then "tcp" else "http", BalanceOf(m), ServersOf(targets, 0))
  }

  lemma BackendBodyReadsBack(be: string, m: Mapping, targets: seq<Target>, tcpMode: bool)
    requires PlainBalance(m.balance) && forall t :: t in targets ==> PlainTarget(t)
    ensures BodyOf(Backend(be, "http", "roundrobin", []), BackendBody(m, targets, tcpMode)) == BackendOf(be, m, targets, tcpMode)
  {
    var b0 := Backend(be, "http", "roundrobin", []);
    BodyAppend(b0, BackendHead(m, tcpMode) + HR.ServerLines(targets, 0), BackendTail(m));
    BodyAppend(b0, BackendHead(m, tcpMode), HR.ServerLines(targets, 0));
    BackendHeadBody(b0, m, tcpMode);
    var b1 := b0.(mode := if tcpMode then "tcp" else "http", balance := BalanceOf(m));
    ServerLinesBody(b1, targets, 0);
    QuietTails(m);
    assert [] + ServersOf(targets, 0) == ServersOf(targets, 0);
    QuietBody(b1.(servers := b1.servers + ServersOf(targets, 0)), BackendTail(m));
  }

  lemma OneNoHeader(line: Line)
    requires NoHeader(line)
    ensures AllNoHeader([line])
  {}

  lemma BackendHeadNoHeader(m: Mapping, tcpMode: bool)
    ensures AllNoHeader(BackendHead(m, tcpMode))
  {
    HeadShape(m, tcpMode);
    ModeAndBalanceNoHeader(m);
    if tcpMode {
      AllNoHeaderAppend([["balance", BalanceOf(m)]], []);
      AllNoHeaderAppend([["mode", "tcp"]], [["balance", BalanceOf(m)]] + []);
    } else {
      HostLineNoHeader(m);
      AllNoHeaderAppend([["balance", BalanceOf(m)]], HostLine(m));
    }
  }

  lemma ModeAndBalanceNoHeader(m: Mapping)
    ensures AllNoHeader([["mode", "tcp"]]) && AllNoHeader([["balance", BalanceOf(m)]])
  {
    NotASection("mode");
    NotASection("balance");
    OneNoHeader(["mode", "tcp"]);
    OneNoHeader(["balance", BalanceOf(m)]);
  }

  lemma HostLineNoHeader(m: Mapping)
    ensures AllNoHeader(HostLine(m))
  {
    QuietTails(m);
  }

  lemma BackendBodyNoHeader(m: Mapping, targets: seq<Target>, tcpMode: bool)
    ensures AllNoHeader(BackendBody(m, targets, tcpMode))
  {
    QuietTails(m);
    BackendHeadNoHeader(m, tcpMode);
    ServerLinesNoHeader(targets, 0);
    AllNoHeaderAppend(BackendHead(m, tcpMode), HR.ServerLines(targets, 0));
    AllNoHeaderAppend(BackendHead(m, tcpMode) + HR.ServerLines(targets, 0), BackendTail(m));
  }

  /** A printed backend adds itself, from wherever the parser is. */
  lemma BackendBlock(p: Parser, be: string, m: Mapping, targets: seq<Target>, tcpMode: bool)
    requires PlainBalance(m.balance) && forall t :: t in targets ==> PlainTarget(t)
    ensures Run(p, HR.BackendLines(be, m, targets, tcpMode))
      == Parser(InBackend, p.cfg.(backends := p.cfg.backends + [BackendOf(be, m, targets, tcpMode)]))
  {
    BackendSplits(be, m, targets, tcpMode);
    BackendBodyNoHeader(m, targets, tcpMode);
    NamedBlock(p, be, BackendBody(m, targets, tcpMode));
    BackendBodyReadsBack(be, m, targets, tcpMode);
  }

  /** Any block that opens a backend adds one backend of that name. */
  lemma NamedBlock(p: Parser, be: string, body: seq<Line>)
    requires AllNoHeader(body)
    ensures Run(p, [["backend", be]] + body)
      == Parser(InBackend, p.cfg.(backends := p.cfg.backends + [BodyOf(Backend(be, "http", "roundrobin", []), body)]))
  {
    OpenBack(p, be);
    var lines: seq<Line> := [["backend", be]] + body;
    assert lines[1..] == body;
    var q := Step(p, ["backend", be]);
    BackRun(q, body);
    var bs := p.cfg.backends;
    assert (bs + [LastBack(q)])[..|bs|] == bs;
  }

  // ---- a printed frontend ----

  /** What printing and reading back a listener's address gives. */
  predicate PlainListener(m: Mapping) {
    NoBrackets(m.listenIP) && 0 <= m.listenPort <= MAX_INT64
  }

  lemma BindLineRead(f: Frontend, m: Mapping, extra: Line)
    requires PlainListener(m)
    ensures var line := ["bind", HR.BindToken(m)] + extra;
      SectionWord(line) == "" && !Blank(line)
      && FrontendLine(f, line) == f.(binds := f.binds + [BindOptions(BindAddress(HR.BindToken(m)), extra)])
  {
    var line := ["bind", HR.BindToken(m)] + extra;
    NotASection("bind");
    assert line[0] == "bind" && line[1..] == [HR.BindToken(m)] + extra && line[1..][1..] == extra;
    LowerHead(line);
    HeadDiffers("bind", "#");
  }

  lemma ModeLineFront(f: Frontend)
    ensures SectionWord(["mode", "tcp"]) == "" && !Blank(["mode", "tcp"])
    ensures FrontendLine(f, ["mode", "tcp"]) == f.(mode := "tcp")
  {
    var line := ["mode", "tcp"];
    NotASection("mode");
    LowerHead(line);
    LowerFixed("tcp");
    HeadDiffers("mode", "#");
    HeadDiffers("mode", "bind");
    assert LowerLine(line) == line && line[1..] == ["tcp"];
  }

  lemma DefaultLineFront(f: Frontend, be: string)
    requires NoUpper(be)
    ensures var line := ["default_backend", be];
      SectionWord(line) == "" && !Blank(line) && FrontendLine(f, line) == f.(defaultBackend := be)
  {
    var line := ["default_backend", be];
    NotASection("default_backend");
    KeywordCase();
    LowerHead(line);
    LowerFixed(be);
    HeadDiffers("default_backend", "#");
    HeadDiffers("default_backend", "bind");
    HeadDiffers("default_backend", "mode");
    assert LowerLine(line) == line && line[1..] == [be];
  }

  lemma BackendNameLower(m: Mapping)
    ensures NoUpper(HR.BackendName(m)) && |HR.BackendName(m)| > 0
  {
    assert NoUpper("be_pg");
  }

  /** TLS options of an https bind. */
  function TlsOptions(m: Mapping, p: Paths.Paths): Line
    requires m.sslCert.Some?
  {
    ["ssl", "crt", HR.PemPath(m, p)] + (if m.http2 then ["alpn", "h2,http/1.1"] else [])
  }

  lemma {:induction false} OptionsKeepAddress(b: Bind, extra: Line)
    ensures BindOptions(b, extra).ip == b.ip && BindOptions(b, extra).port == b.port
    ensures b.ssl ==> BindOptions(b, extra).ssl
    decreases |extra|
  {
    if extra != [] {
      OptionsKeepAddress(
        if extra[0] == "ssl" then b.(ssl := true)
        else if extra[0] == "crt" && |extra| > 1 then b.(crt := extra[1]) else b, extra[1..]);
    }
  }

  lemma TlsRead(b: Bind, m: Mapping, p: Paths.Paths)
    requires m.sslCert.Some?
    ensures BindOptions(b, TlsOptions(m, p)).ssl
    ensures BindOptions(b, TlsOptions(m, p)).ip == b.ip && BindOptions(b, TlsOptions(m, p)).port == b.port
  {
    var extra := TlsOptions(m, p);
    OptionsKeepAddress(b, extra);
    OptionsKeepAddress(b.(ssl := true), extra[1..]);
  }

  /** A frontend that listens where the mapping does, in the mapping's protocol. */
  ghost predicate ListensFor(f: Frontend, m: Mapping) {
    && f.name == HR.FrontendName(m)
    && |f.binds| == 1
    && NormalizeBindIP(f.binds[0].ip) == NormalIP(m.listenIP)
    && f.binds[0].port == m.listenPort
    && f.binds[0].ssl == (m.protocol == Https)
    && f.mode == (if m.protocol == Tcp then "tcp" else "http")
  }

  function WithNewFront(p: Parser, f: Frontend): Parser {
    Parser(InFrontend, p.cfg.(frontends := p.cfg.frontends + [f]))
  }

  lemma NewFrontStep(p: Parser, f: Frontend, line: Line)
    requires !Blank(line) && SectionWord(line) == ""
    ensures Step(WithNewFront(p, f), line) == WithNewFront(p, FrontendLine(f, line))
  {
    var fs := p.cfg.frontends;
    assert (fs + [f])[..|fs|] == fs;
  }

  lemma Run1(p: Parser, a: Line)
    ensures Run(p, [a]) == Step(p, a)
  {
    var one: seq<Line> := [a];
    assert one[1..] == [];
  }

  lemma HttpHeadShape(m: Mapping, paths: Paths.Paths)
    requires IsHttp(m) && (m.protocol == Https ==> m.sslCert.Some?)
    ensures HR.FrontendHead(m, paths) ==
      [["frontend", HR.FrontendName(m)]] + [["bind", HR.BindToken(m)] + (if m.protocol == Https then TlsOptions(m, paths) else [])]
  {
    if m.protocol == Https {
      var alpn: Line := if m.http2 then ["alpn", "h2,http/1.1"] else [];
      var x: Line := ["bind", HR.BindToken(m), "ssl", "crt", HR.PemPath(m, paths)] + alpn;
      var y: Line := ["bind", HR.BindToken(m)] + (["ssl", "crt", HR.PemPath(m, paths)] + alpn);
      assert x == y;
    } else {
      var x: Line := ["bind", HR.BindToken(m)];
      assert x + [] == x;
    }
  }

  lemma HeadHttp(p: Parser, m: Mapping, paths: Paths.Paths) returns (f: Frontend)
    requires PlainListener(m) && IsHttp(m) && (m.protocol == Https ==> m.sslCert.Some?)
    ensures ListensFor(f, m) && f.defaultBackend == "" && f.rules == []
    ensures Run(p, HR.FrontendHead(m, paths)) == WithNewFront(p, f)
  {
    var name := HR.FrontendName(m);
    var f0 := Frontend(name, [], "http", "", []);
    var extra: Line := if m.protocol == Https then TlsOptions(m, paths) else [];
    var open: Line := ["frontend", name];
    var bind: Line := ["bind", HR.BindToken(m)] + extra;
    HttpHeadShape(m, paths);
    RunAppend(p, [open], [bind]);
    Run1(p, open);
    OpenFront(p, name);
    Run1(WithNewFront(p, f0), bind);
    BindLineRead(f0, m, extra);
    NewFrontStep(p, f0, bind);
    BindReadsBack(m);
    var b := BindAddress(HR.BindToken(m));
    if m.protocol == Https { TlsRead(b, m, paths); }
    f := f0.(binds := f0.binds + [BindOptions(b, extra)]);
  }

  /** The first three lines of a tcp frontend. */
  function TcpOpening(m: Mapping): seq<Line> {
    [["frontend", HR.FrontendName(m)]] + [["mode", "tcp"]] + [["option", "tcplog"]]
  }

  lemma TcpOpens(p: Parser, m: Mapping)
    ensures Run(p, TcpOpening(m)) == WithNewFront(p, Frontend(HR.FrontendName(m), [], "tcp", "", []))
  {
    var f0 := Frontend(HR.FrontendName(m), [], "http", "", []);
    var open: Line, mode: Line, log: Line := ["frontend", HR.FrontendName(m)], ["mode", "tcp"], ["option", "tcplog"];
    RunAppend(p, [open] + [mode], [log]);
    RunAppend(p, [open], [mode]);
    Run1(p, open);
    OpenFront(p, HR.FrontendName(m));
    Run1(WithNewFront(p, f0), mode);
    ModeLineFront(f0);
    NewFrontStep(p, f0, mode);
    PlainHeadQuiet(log);
    QuietRun(WithNewFront(p, f0.(mode := "tcp")), [log]);
  }

  lemma HeadTcp(p: Parser, m: Mapping, paths: Paths.Paths) returns (f: Frontend)
    requires PlainListener(m) && m.protocol == Tcp
    ensures ListensFor(f, m) && f.defaultBackend == "" && f.rules == []
    ensures Run(p, HR.FrontendHead(m, paths)) == WithNewFront(p, f)
  {
    var f1 := Frontend(HR.FrontendName(m), [], "tcp", "", []);
    var bind: Line := ["bind", HR.BindToken(m)] + [];
    assert bind == ["bind", HR.BindToken(m)];
    assert HR.FrontendHead(m, paths) == TcpOpening(m) + [bind];
    RunAppend(p, TcpOpening(m), [bind]);
    TcpOpens(p, m);
    Run1(WithNewFront(p, f1), bind);
    BindLineRead(f1, m, []);
    NewFrontStep(p, f1, bind);
    BindReadsBack(m);
    f := f1.(binds := f1.binds + [BindAddress(HR.BindToken(m))]);
  }
}
