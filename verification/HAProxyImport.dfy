/** What the HAProxy import makes of blocks PortGuard does not print itself: listen sections,
    and frontends whose backends have names of any case. */
module HAProxyImport {
  import opened Text
  import opened Model
  import opened Import
  import opened HAProxyParser
  import opened HAProxyTokens
  import opened HAProxyBlocks
  import T = HAProxyRoundTrip
  import HR = HAProxyRender

  // ---- lines of a listen section ----

  predicate AtListen(p: Parser) {
    p.section == InListen && p.cfg.listens != []
  }

  function LastListen(p: Parser): Listen
    requires p.cfg.listens != []
  {
    p.cfg.listens[|p.cfg.listens| - 1]
  }

  function WithListen(p: Parser, l: Listen): Parser
    requires p.cfg.listens != []
  {
    p.(cfg := p.cfg.(listens := p.cfg.listens[..|p.cfg.listens| - 1] + [l]))
  }

  lemma WithListenFacts(p: Parser, l: Listen, k: Listen)
    requires AtListen(p)
    ensures AtListen(WithListen(p, l)) && LastListen(WithListen(p, l)) == l
    ensures WithListen(WithListen(p, l), k) == WithListen(p, k) && WithListen(p, LastListen(p)) == p
  {
    var ls := p.cfg.listens;
    assert ls == ls[..|ls| - 1] + [ls[|ls| - 1]];
    assert (ls[..|ls| - 1] + [l])[..|ls| - 1] == ls[..|ls| - 1];
  }

  lemma OpenListen(p: Parser, name: string)
    ensures Step(p, ["listen", name]) == Parser(InListen, p.cfg.(listens := p.cfg.listens + [Listen(name, "tcp", [], [])]))
  {
    var line := ["listen", name];
    assert line[1..] == [name];
    HeadDiffers("listen", "#");
    HeadDiffers("listen", "global");
    HeadDiffers("listen", "defaults");
    HeadDiffers("listen", "frontend");
    HeadDiffers("listen", "backend");
    assert SectionWord(line) == "listen";
    assert "listen" != "frontend" && "listen" != "backend";
  }

  lemma ListenBind(l: Listen, m: Mapping, extra: Line)
    requires PlainListener(m)
    ensures var line := ["bind", HR.BindToken(m)] + extra;
      SectionWord(line) == "" && !Blank(line)
      && ListenLine(l, line) == l.(binds := l.binds + [BindOptions(BindAddress(HR.BindToken(m)), extra)])
  {
    var line := ["bind", HR.BindToken(m)] + extra;
    NotASection("bind");
    assert line[0] == "bind" && line[1..] == [HR.BindToken(m)] + extra && line[1..][1..] == extra;
    LowerHead(line);
    HeadDiffers("bind", "#");
  }

  lemma ListenMode(l: Listen, mode: string)
    ensures SectionWord(["mode", mode]) == "" && !Blank(["mode", mode])
    ensures ListenLine(l, ["mode", mode]) == l.(mode := Lower(mode))
  {
    var line := ["mode", mode];
    NotASection("mode");
    LowerHead(line);
    HeadDiffers("mode", "#");
    HeadDiffers("mode", "bind");
    assert LowerLine(line)[0] == "mode" && LowerLine(line)[1..] == [Lower(mode)];
  }

  lemma ListenServer(l: Listen, i: nat, t: Target)
    requires PlainTarget(t)
    ensures SectionWord(HR.ServerLine(i, t)) == "" && !Blank(HR.ServerLine(i, t))
    ensures ListenLine(l, HR.ServerLine(i, t)) == l.(servers := l.servers + [ServerOf(i, t)])
  {
    var line := HR.ServerLine(i, t);
    assert line[0] == "server";
    NotASection("server");
    LowerHead(line);
    HeadDiffers("server", "#");
    HeadDiffers("server", "mode");
    HeadDiffers("server", "bind");
    ServerLineReadsBack(i, t);
  }

  lemma ListenStep(p: Parser, line: Line, rest: seq<Line>)
    requires AtListen(p) && !Blank(line) && SectionWord(line) == ""
    ensures Run(p, [line] + rest) == Run(WithListen(p, ListenLine(LastListen(p), line)), rest)
  {
    assert ([line] + rest)[1..] == rest;
  }

  lemma {:induction false} ListenServers(p: Parser, targets: seq<Target>, i: nat)
    requires AtListen(p) && forall t :: t in targets ==> PlainTarget(t)
    ensures Run(p, HR.ServerLines(targets, i))
      == WithListen(p, LastListen(p).(servers := LastListen(p).servers + ServersOf(targets, i)))
    decreases |targets|
  {
    var l := LastListen(p);
    WithListenFacts(p, l, l);
    if targets == [] {
      assert l.servers + [] == l.servers;
    } else {
      var next := l.(servers := l.servers + [ServerOf(i, targets[0])]);
      ListenServer(l, i, targets[0]);
      ListenStep(p, HR.ServerLine(i, targets[0]), HR.ServerLines(targets[1..], i + 1));
      WithListenFacts(p, next, l.(servers := next.servers + ServersOf(targets[1..], i + 1)));
      ListenServers(WithListen(p, next), targets[1..], i + 1);
      ServersGrow(l.servers, targets, i);
    }
  }

  /** A listen section with one bind. */
  function ListenBlock(name: string, mode: string, m: Mapping, extra: Line): seq<Line> {
    [["listen", name]] + ([["mode", mode]] + ([["bind", HR.BindToken(m)] + extra] + HR.ServerLines(m.targets, 0)))
  }

  function ListenOf(name: string, mode: string, m: Mapping, extra: Line): Listen {
    Listen(name, Lower(mode), [BindOptions(BindAddress(HR.BindToken(m)), extra)], ServersOf(m.targets, 0))
  }

  lemma ListenTail(p: Parser, l: Listen, m: Mapping, extra: Line)
    requires AtListen(p) && LastListen(p) == l && l.binds == [] && l.servers == []
    requires PlainListener(m) && forall t :: t in m.targets ==> PlainTarget(t)
    ensures Run(p, [["bind", HR.BindToken(m)] + extra] + HR.ServerLines(m.targets, 0))
      == WithListen(p, l.(binds := [BindOptions(BindAddress(HR.BindToken(m)), extra)], servers := ServersOf(m.targets, 0)))
  {
    var bind := BindOptions(BindAddress(HR.BindToken(m)), extra);
    var bound := l.(binds := [bind]);
    ListenBind(l, m, extra);
    assert [] + [bind] == [bind];
    ListenStep(p, ["bind", HR.BindToken(m)] + extra, HR.ServerLines(m.targets, 0));
    WithListenFacts(p, bound, bound.(servers := ServersOf(m.targets, 0)));
    ListenServers(WithListen(p, bound), m.targets, 0);
    assert [] + ServersOf(m.targets, 0) == ServersOf(m.targets, 0);
  }

  lemma ListenRead(name: string, mode: string, m: Mapping, extra: Line)
    requires PlainListener(m) && forall t :: t in m.targets ==> PlainTarget(t)
    ensures Run(EMPTY, ListenBlock(name, mode, m, extra)).cfg == Cfg([], [], [ListenOf(name, mode, m, extra)])
  {
    var l0 := Listen(name, "tcp", [], []);
    var p0 := Parser(InListen, Cfg([], [], [l0]));
    var tail := [["bind", HR.BindToken(m)] + extra] + HR.ServerLines(m.targets, 0);
    OpenListen(EMPTY, name);
    assert [] + [l0] == [l0];
    assert ListenBlock(name, mode, m, extra)[1..] == [["mode", mode]] + tail;
    ListenMode(l0, mode);
    ListenStep(p0, ["mode", mode], tail);
    WithListenFacts(p0, l0.(mode := Lower(mode)), ListenOf(name, mode, m, extra));
    ListenTail(WithListen(p0, l0.(mode := Lower(mode))), l0.(mode := Lower(mode)), m, extra);
  }

  function ListenMapping(m: Mapping): Candidate {
    Candidate("", true, HAProxy, Tcp, NormalIP(m.listenIP), m.listenPort, [], "", T.NormalTargets(m.targets), "", "")
  }

  /** What a listen section becomes: a tcp mapping, whatever its mode, with the bind's
      address and port and every server; without servers, an issue. */
  lemma ListenImports(name: string, mode: string, m: Mapping, extra: Line, taken: set<string>)
    requires PlainListener(m) && forall t :: t in m.targets ==> PlainTarget(t)
    ensures var c := ToMappings(Run(EMPTY, ListenBlock(name, mode, m, extra)).cfg, taken);
      && (m.targets == [] ==> c == Converted([], [Issue("listen " + name)], taken))
      && (m.targets != [] ==> Anonymous(c.out) == [ListenMapping(m)] && c.issues == [] && FreshNames(taken, c))
  {
    var l, c0 := ListenOf(name, mode, m, extra), Converted([], [], taken);
    ListenRead(name, mode, m, extra);
    ToMappingsFresh(Cfg([], [], [l]), taken);
    OneListen(c0, l);
    ListenBecomes(name, mode, m, extra);
    ListenConverts(c0, name, ListenCandidate(l));
  }

  lemma ListenConverts(c: Converted, name: string, candidate: Option<Candidate>)
    requires c.out == [] && c.issues == [] && (candidate.Some? ==> candidate.value.name == "")
    ensures candidate.None? ==> Convert(c, "listen", name, candidate) == Converted([], [Issue("listen " + name)], c.taken)
    ensures candidate.Some? ==> Anonymous(Convert(c, "listen", name, candidate).out) == [candidate.value] && Convert(c, "listen", name, candidate).issues == []
  {
    match candidate
    case None =>
      assert "listen" + " " + name == "listen " + name;
      assert [] + [Issue("listen " + name)] == [Issue("listen " + name)];
    case Some(m) =>
      OneAnonymous(m.(name := UniqueName("imported-" + name, c.taken)));
  }

  lemma OneAnonymous(c: Candidate)
    ensures Anonymous([c]) == [c.(name := "")] && [] + [c] == [c]
  {
    assert [c][1..] == [];
  }

  lemma ListenBecomes(name: string, mode: string, m: Mapping, extra: Line)
    requires PlainListener(m) && forall t :: t in m.targets ==> PlainTarget(t)
    ensures ListenCandidate(ListenOf(name, mode, m, extra)) == if m.targets == [] then None else Some(ListenMapping(m))
  {
    BindReadsBack(m);
    OptionsKeepAddress(BindAddress(HR.BindToken(m)), extra);
    T.ServersToTargets(m.targets, 0);
    if m.targets != [] { assert ServersOf(m.targets, 0)[0] == ServerOf(0, m.targets[0]); }
  }

  // ---- addresses people write ----

  /** A bind by port alone, after a bare colon, with a bracketed address, or by address
      alone, which gets port 80. */
  lemma BindForms(ip: string, port: nat)
    requires port <= MAX_INT64
    ensures ParseBind(["bind"]) == Bind("*", 80, false, "")
    ensures BindAddress(Itoa(port)) == Bind("*", port, false, "") && BindAddress(":" + Itoa(port)) == Bind("*", port, false, "")
    ensures ip != "" && NoBrackets(ip) ==> BindAddress("[" + ip + "]" + ":" + Itoa(port)) == Bind(ip, port, false, "")
    ensures ip != "" && NoBrackets(ip) ==> BindAddress("[" + ip + "]") == Bind(ip, 80, false, "")
    ensures ip != "" && NoBrackets(ip) && ':' !in ip && ('.' in ip || ip == "*") ==> BindAddress(ip) == Bind(ip, 80, false, "")
  {
    AtoiDec(port);
    PortForms(port);
    if ip != "" && NoBrackets(ip) {
      BracketedAddress(ip, Itoa(port));
      BracketsAlone(ip);
      if ':' !in ip && ('.' in ip || ip == "*") { AddressAlone(ip); }
    }
  }

  lemma PortForms(port: nat)
    requires port <= MAX_INT64
    ensures BindAddress(Itoa(port)) == Bind("*", port, false, "") && BindAddress(":" + Itoa(port)) == Bind("*", port, false, "")
  {
    AtoiDec(port);
    assert ':' !in Itoa(port);
    PortAlone(Itoa(port), port);
    PortAfterColon(Itoa(port), port);
  }

  lemma PortAlone(digits: string, port: nat)
    requires digits != "" && AllDigits(digits) && Atoi(digits) == Some(port)
    ensures BindAddress(digits) == Bind("*", port, false, "")
  {
    assert IsDigit(digits[0]) && ':' !in digits;
    assert !HasPrefix(digits, "[");
  }

  lemma PortAfterColon(digits: string, port: nat)
    requires ':' !in digits && AtoiLossy(digits) == port
    ensures BindAddress(":" + digits) == Bind("*", port, false, "")
  {
    var addr := ":" + digits;
    LastIndexAt("", ':', digits);
    assert "" + [':'] + digits == addr;
    assert addr[0] == ':' && addr[1..] == digits;
    assert !HasPrefix(addr, "[");
  }

  lemma BracketsAlone(ip: string)
    requires ip != "" && NoBrackets(ip)
    ensures BindAddress("[" + ip + "]") == Bind(ip, 80, false, "")
  {
    var addr := "[" + ip + "]";
    IndexAt("[" + ip, ']', "");
    assert addr == "[" + ip + [']'] + "" && addr[|ip| + 2..] == "" && addr[0] == '[' && addr[..1] == "[";
    TrimOnce(ip);
  }

  lemma TrimOnce(ip: string)
    requires ip != "" && NoBrackets(ip)
    ensures TrimBrackets("[" + ip + "]") == ip
  {
    var addr := "[" + ip + "]";
    assert addr[0] == '[' && addr[1..] == ip + "]";
    assert (ip + "]")[0] == ip[0] && (ip + "]")[|ip|] == ']' && (ip + "]")[..|ip|] == ip;
    TrimNothing(ip);
  }

  lemma AddressAlone(ip: string)
    requires ip != "" && NoBrackets(ip) && ':' !in ip && ('.' in ip || ip == "*")
    ensures BindAddress(ip) == Bind(ip, 80, false, "")
  {
    NoNumber(ip);
    assert ip[0] != '[';
    assert !HasPrefix(ip, "[");
  }

  /** A section of another kind ends the one before, and what it says is ignored. */
  lemma OtherSections(p: Parser, word: string, line: Line)
    requires word in ["global", "defaults", "userlist", "peers", "mailers", "cache"] && SectionWord(line) == ""
    ensures Step(p, [word]) == Parser(OtherSection, p.cfg) && Step(Step(p, [word]), line) == Parser(OtherSection, p.cfg)
  {
    var i :| 0 <= i < 6 && word == ["global", "defaults", "userlist", "peers", "mailers", "cache"][i];
    HeadDiffers(word, "#");
    OwnKeyword(word);
    assert word != "frontend" && word != "backend" && word != "listen" by { HeadDiffers(word, "frontend"); HeadDiffers(word, "backend"); HeadDiffers(word, "listen"); }
  }

  lemma OwnKeyword(word: string)
    requires word in ["global", "defaults", "userlist", "peers", "mailers", "cache"]
    ensures FirstKeyword(word, KEYWORDS) == word
  {
    var at := if word == "global" then 0 else if word == "defaults" then 1 else if word == "userlist" then 5
              else if word == "peers" then 6 else if word == "mailers" then 7 else 8;
    assert KEYWORDS[at] == word;
    assert forall i :: 0 <= i < at ==> KEYWORDS[i][0] != word[0];
    FirstIs(word, KEYWORDS, at);
  }

  lemma {:induction false} FirstIs(word: string, words: seq<string>, at: nat)
    requires at < |words| && words[at] == word && word != ""
    requires forall i :: 0 <= i < at ==> words[i] != "" && words[i][0] != word[0]
    ensures FirstKeyword(word, words) == word
  {
    if at > 0 {
      HeadDiffers(word, words[0]);
      FirstIs(word, words[1..], at - 1);
    }
  }

  /** A server line needs a name and an address, and no more. */
  lemma BareServer(name: string, addr: string)
    ensures ParseServer(["server", name]) == None && ParseServer(["server", name, addr]) == Some(ServerAddress(name, addr))
  {
    assert ["server", name][1..] == [name] && ["server", name, addr][1..] == [name, addr] && [name, addr][2..] == [];
  }

  /** A server without a port gets port 80; one with a port that is no number keeps its
      whole text as the address. */
  lemma ServerForms(name: string, host: string, port: string)
    requires NoBrackets(host) && ':' !in host
    ensures ServerAddress(name, host) == Server(name, host, 80, 0, false, false)
    ensures ':' !in port && Atoi(port) == None ==> ServerAddress(name, host + ":" + port) == Server(name, host + ":" + port, 80, 0, false, false)
  {
    CountAbsent(host, ':');
    TrimNothing(host);
    if ':' !in port && Atoi(port) == None {
      OneColon(host, port);
      assert (host + ":" + port)[|host| + 1..] == port;
    }
  }

  // ---- names of any case ----

  /** A frontend with one bind and its backend, as anybody may write them. */
  function PairBlock(name: string, be: string, m: Mapping): seq<Line> {
    [["frontend", name]] + ([["bind", HR.BindToken(m)]] + ([["default_backend", be]] + ([["backend", be]] + HR.ServerLines(m.targets, 0))))
  }

  lemma DefaultLine(f: Frontend, be: string)
    ensures var line := ["default_backend", be];
      SectionWord(line) == "" && !Blank(line) && FrontendLine(f, line) == f.(defaultBackend := Lower(be))
  {
    var line := ["default_backend", be];
    NotASection("default_backend");
    KeywordCase();
    LowerHead(line);
    HeadDiffers("default_backend", "#");
    HeadDiffers("default_backend", "bind");
    HeadDiffers("default_backend", "mode");
    assert LowerLine(line)[0] == "default_backend" && LowerLine(line)[1..] == [Lower(be)];
  }

  lemma OneStep(p: Parser, line: Line, rest: seq<Line>)
    ensures Run(p, [line] + rest) == Run(Step(p, line), rest)
  {
    assert ([line] + rest)[1..] == rest;
  }

  /** A frontend and its bind. */
  lemma FrontHead(name: string, m: Mapping, rest: seq<Line>)
    requires PlainListener(m)
    ensures Run(EMPTY, [["frontend", name]] + ([["bind", HR.BindToken(m)]] + rest))
      == Run(Parser(InFrontend, Cfg([Frontend(name, [BindAddress(HR.BindToken(m))], "http", "", [])], [], [])), rest)
  {
    var f0 := Frontend(name, [], "http", "", []);
    OpenFront(EMPTY, name);
    assert [] + [f0] == [f0];
    OneStep(EMPTY, ["frontend", name], [["bind", HR.BindToken(m)]] + rest);
    BindLineRead(f0, m, []);
    assert ["bind", HR.BindToken(m)] + [] == ["bind", HR.BindToken(m)];
    assert [] + [BindAddress(HR.BindToken(m))] == [BindAddress(HR.BindToken(m))];
    OneFront(f0, ["bind", HR.BindToken(m)]);
    OneStep(Parser(InFrontend, Cfg([f0], [], [])), ["bind", HR.BindToken(m)], rest);
  }

  /** The frontend's three lines. */
  lemma PairFront(name: string, be: string, m: Mapping, rest: seq<Line>)
    requires PlainListener(m)
    ensures Run(EMPTY, [["frontend", name]] + ([["bind", HR.BindToken(m)]] + ([["default_backend", be]] + rest)))
      == Run(Parser(InFrontend, Cfg([Frontend(name, [BindAddress(HR.BindToken(m))], "http", Lower(be), [])], [], [])), rest)
  {
    var f := Frontend(name, [BindAddress(HR.BindToken(m))], "http", "", []);
    FrontHead(name, m, [["default_backend", be]] + rest);
    DefaultLine(f, be);
    OneFront(f, ["default_backend", be]);
    OneStep(Parser(InFrontend, Cfg([f], [], [])), ["default_backend", be], rest);
  }

  lemma OneFront(f: Frontend, line: Line)
    requires SectionWord(line) == "" && !Blank(line)
    ensures Step(Parser(InFrontend, Cfg([f], [], [])), line) == Parser(InFrontend, Cfg([FrontendLine(f, line)], [], []))
  {
    assert [f][..0] == [] && [] + [FrontendLine(f, line)] == [FrontendLine(f, line)];
  }

  lemma PairBack(f: Frontend, be: string, m: Mapping)
    requires forall t :: t in m.targets ==> PlainTarget(t)
    ensures Run(Parser(InFrontend, Cfg([f], [], [])), [["backend", be]] + HR.ServerLines(m.targets, 0)).cfg
      == Cfg([f], [Backend(be, "http", "roundrobin", ServersOf(m.targets, 0))], [])
  {
    var b := Backend(be, "http", "roundrobin", []);
    var q := Parser(InBackend, Cfg([f], [b], []));
    OpenBack(Parser(InFrontend, Cfg([f], [], [])), be);
    assert [] + [b] == [b];
    OneStep(Parser(InFrontend, Cfg([f], [], [])), ["backend", be], HR.ServerLines(m.targets, 0));
    ServerLinesNoHeader(m.targets, 0);
    BackRun(q, HR.ServerLines(m.targets, 0));
    ServerLinesBody(b, m.targets, 0);
    assert [] + ServersOf(m.targets, 0) == ServersOf(m.targets, 0);
    assert [b][..0] == [] && forall x: Backend :: [] + [x] == [x];
  }

  /** A frontend comes back exactly when the name of its backend has no capital letter:
      the name after default_backend is read in lower case, the one after backend as it is. */
  lemma CapitalsAreLostIff(name: string, be: string, m: Mapping, taken: set<string>)
    requires PlainListener(m) && m.targets != [] && (forall t :: t in m.targets ==> PlainTarget(t)) && be != ""
    ensures var c := ToMappings(Run(EMPTY, PairBlock(name, be, m)).cfg, taken);
      && (|c.out| == 1 <==> NoUpper(be)) && (|c.out| == 0 <==> !NoUpper(be)) && (|c.issues| == 1 <==> !NoUpper(be))
  {
    var f := Frontend(name, [BindAddress(HR.BindToken(m))], "http", Lower(be), []);
    var b := Backend(be, "http", "roundrobin", ServersOf(m.targets, 0));
    PairFront(name, be, m, [["backend", be]] + HR.ServerLines(m.targets, 0));
    PairBack(f, be, m);
    assert [f][1..] == [] && [b][1..] == [];
    assert ServersOf(m.targets, 0) != [];
    LowerIff(be);
    assert FindBackend([b], Lower(be)) == if NoUpper(be) then Some(b) else FindBackend([], Lower(be));
    PairConverts(f, b, taken);
  }

  /** The same with a use_backend rule in place of the default. */
  function RuleBlock(name: string, be: string, cond: Line, m: Mapping): seq<Line> {
    [["frontend", name]] + ([["bind", HR.BindToken(m)]] + ([["use_backend", be] + cond] + ([["backend", be]] + HR.ServerLines(m.targets, 0))))
  }

  lemma UseLine(f: Frontend, be: string, cond: Line)
    ensures var line := ["use_backend", be] + cond;
      SectionWord(line) == "" && !Blank(line) && FrontendLine(f, line) == f.(rules := f.rules + [be])
  {
    var line := ["use_backend", be] + cond;
    assert line[0] == "use_backend" && line[1..] == [be] + cond;
    NotASection("use_backend");
    KeywordCase();
    LowerHead(line);
    HeadDiffers("use_backend", "#");
    HeadDiffers("use_backend", "bind");
    HeadDiffers("use_backend", "mode");
    HeadDiffers("use_backend", "default_backend");
    HeadDiffers("use_backend", "acl");
  }

  lemma RuleFront(name: string, be: string, cond: Line, m: Mapping, rest: seq<Line>)
    requires PlainListener(m)
    ensures Run(EMPTY, [["frontend", name]] + ([["bind", HR.BindToken(m)]] + ([["use_backend", be] + cond] + rest)))
      == Run(Parser(InFrontend, Cfg([Frontend(name, [BindAddress(HR.BindToken(m))], "http", "", [be])], [], [])), rest)
  {
    var f := Frontend(name, [BindAddress(HR.BindToken(m))], "http", "", []);
    var line := ["use_backend", be] + cond;
    FrontHead(name, m, [line] + rest);
    UseLine(f, be, cond);
    assert [] + [be] == [be];
    OneFront(f, line);
    OneStep(Parser(InFrontend, Cfg([f], [], [])), line, rest);
  }

  /** Without a default backend, a frontend leads to that of its first rule, whose name is
      read as it is. */
  lemma FirstRuleLeads(name: string, be: string, cond: Line, m: Mapping, taken: set<string>)
    requires PlainListener(m) && m.targets != [] && (forall t :: t in m.targets ==> PlainTarget(t))
    ensures var c := ToMappings(Run(EMPTY, RuleBlock(name, be, cond, m)).cfg, taken);
      && c.issues == []
      && c.out == [Candidate(UniqueName("imported-" + name, taken), true, HAProxy, Http, NormalIP(m.listenIP), m.listenPort, [], "",
                             T.NormalTargets(m.targets), "roundrobin", "")]
  {
    var f := Frontend(name, [BindAddress(HR.BindToken(m))], "http", "", [be]);
    var b := Backend(be, "http", "roundrobin", ServersOf(m.targets, 0));
    RuleFront(name, be, cond, m, [["backend", be]] + HR.ServerLines(m.targets, 0));
    PairBack(f, be, m);
    PairConverts(f, b, taken);
    RuleConverts(f, b, m);
    assert forall x: Candidate :: [] + [x] == [x];
  }

  lemma RuleConverts(f: Frontend, b: Backend, m: Mapping)
    requires PlainListener(m) && m.targets != [] && (forall t :: t in m.targets ==> PlainTarget(t))
    requires f.binds == [BindAddress(HR.BindToken(m))] && f.defaultBackend == "" && f.rules == [b.name] && f.mode == "http"
    requires b.servers == ServersOf(m.targets, 0)
    ensures FrontendCandidate(f, [b])
      == Some(Candidate("", true, HAProxy, Http, NormalIP(m.listenIP), m.listenPort, [], "", T.NormalTargets(m.targets), b.balance, ""))
  {
    BindReadsBack(m);
    T.ServersToTargets(m.targets, 0);
    assert ServersOf(m.targets, 0)[0] == ServerOf(0, m.targets[0]);
    assert FindBackend([b], b.name) == Some(b);
  }

  lemma OneFrontend(c: Converted, f: Frontend, bs: seq<Backend>)
    ensures ConvertFrontends(c, [f], bs) == Convert(c, "frontend", f.name, FrontendCandidate(f, bs))
  {
    var next := Convert(c, "frontend", f.name, FrontendCandidate(f, bs));
    assert [f][1..] == [] && ConvertFrontends(next, [], bs) == next;
  }

  lemma OneListen(c: Converted, l: Listen)
    ensures ConvertListens(c, [l]) == Convert(c, "listen", l.name, ListenCandidate(l))
  {
    var next := Convert(c, "listen", l.name, ListenCandidate(l));
    assert [l][1..] == [] && ConvertListens(next, []) == next;
  }

  lemma PairConverts(f: Frontend, b: Backend, taken: set<string>)
    ensures ToMappings(Cfg([f], [b], []), taken) == Convert(Converted([], [], taken), "frontend", f.name, FrontendCandidate(f, [b]))
  {
    OneFrontend(Converted([], [], taken), f, [b]);
  }

  lemma LowerIff(s: string)
    ensures Lower(s) == s <==> NoUpper(s)
  {
    if NoUpper(s) { LowerFixed(s); }
    if Lower(s) == s {
      forall i | 0 <= i < |s| ensures !('A' <= s[i] <= 'Z') { assert LowerChar(s[i]) == s[i]; }
    }
  }
}
