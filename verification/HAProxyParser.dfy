/** Reading a haproxy.cfg back (internal/proxy/parser.go). A configuration is a sequence
    of lines, a line the sequence of its whitespace-separated tokens. What the parser
    stores for display only (raw lines, ACLs, global and defaults directives) is left
    out; everything the conversion to mappings looks at is here. */
module HAProxyParser {
  import opened Text
  import opened Model
  import opened Import

  type Line = seq<string>

  datatype Bind = Bind(ip: string, port: int, ssl: bool, crt: string)

  datatype Server = Server(name: string, address: string, port: int, weight: int, backup: bool, check: bool)

  datatype Frontend = Frontend(name: string, binds: seq<Bind>, mode: string, defaultBackend: string, rules: seq<string>)

  datatype Backend = Backend(name: string, mode: string, balance: string, servers: seq<Server>)

  datatype Listen = Listen(name: string, mode: string, binds: seq<Bind>, servers: seq<Server>)

  datatype Cfg = Cfg(frontends: seq<Frontend>, backends: seq<Backend>, listens: seq<Listen>)

  datatype Section = NoSection | InFrontend | InBackend | InListen | OtherSection

  datatype Parser = Parser(section: Section, cfg: Cfg)

  const EMPTY: Parser := Parser(NoSection, Cfg([], [], []))

  // ---- single lines ----

  /** The section keywords, in the order of the program's regular expression. */
  const KEYWORDS: seq<string> :=
    ["global", "defaults", "frontend", "backend", "listen", "userlist", "peers", "mailers", "cache"]

  function FirstKeyword(token: string, words: seq<string>): string {
    if words == [] then "" else if HasPrefix(token, words[0]) then words[0] else FirstKeyword(token, words[1..])
  }

  /** The keyword a line opens a section with, "" if it does not. */
  function SectionWord(line: Line): string {
    if line == [] then "" else FirstKeyword(line[0], KEYWORDS)
  }

  /** `strings.TrimPrefix` of a keyword on a whole line, then `strings.Fields`. */
  function StripKeyword(line: Line, word: string): Line {
    if line == [] || !HasPrefix(line[0], word) then line
    else if line[0] == word then line[1..]
    else [line[0][|word|..]] + line[1..]
  }

  function FirstToken(line: Line): string {
    if line == [] then "" else line[0]
  }

  function LowerLine(line: Line): (r: Line)
    ensures |r| == |line|
  {
    seq(|line|, i requires 0 <= i < |line| => Lower(line[i]))
  }

  predicate StartsWith(line: Line, word: string) {
    line != [] && HasPrefix(line[0], word)
  }

  /** The address part of a bind line. */
  function BindAddress(addr: string): Bind {
    if HasPrefix(addr, "[") then
      var i := Index(addr, ']');
      if i > 1 && HasPrefix(addr[i + 1..], ":") && addr[i + 2..] != [] && AllDigits(addr[i + 2..])
      then Bind(addr[1..i], AtoiLossy(addr[i + 2..]), false, "")
      else Bind(TrimBrackets(addr), 80, false, "")
    else
      var i := LastIndex(addr, ':');
      if i >= 0 then Bind(if i > 0 then addr[..i] else "*", AtoiLossy(addr[i + 1..]), false, "")
      else match Atoi(addr)
        case Some(p) => Bind("*", p, false, "")
        case None => Bind(addr, 80, false, "")
  }

  /** The options after the address: `ssl` and `crt <file>`. */
  function BindOptions(b: Bind, extra: Line): Bind
    decreases |extra|
  {
    if extra == [] then b
    else if extra[0] == "ssl" then BindOptions(b.(ssl := true), extra[1..])
    else if extra[0] == "crt" && |extra| > 1 then BindOptions(b.(crt := extra[1]), extra[1..])
    else BindOptions(b, extra[1..])
  }

  /** `ParseBindLine`. */
  function ParseBind(line: Line): Bind {
    var fields := StripKeyword(line, "bind");
    if fields == [] then Bind("*", 80, false, "")
    else BindOptions(BindAddress(fields[0]), fields[1..])
  }

  /** The address part of a server line: one colon splits it, more than one does not. */
  function ServerAddress(name: string, addr: string): Server {
    if Count(addr, ':') == 1 && Index(addr, ':') >= 0 then
      var i := Index(addr, ':');
      match Atoi(addr[i + 1..])
      case Some(p) => Server(name, TrimBrackets(addr[..i]), p, 0, false, false)
      case None => Server(name, addr, 80, 0, false, false)
    else Server(name, TrimBrackets(addr), 80, 0, false, false)
  }

  function ServerOptions(s: Server, options: Line): Server
    decreases |options|
  {
    if options == [] then s
    else if options[0] == "check" then ServerOptions(s.(check := true), options[1..])
    else if options[0] == "backup" then ServerOptions(s.(backup := true), options[1..])
    else if options[0] == "weight" && |options| > 1 then ServerOptions(s.(weight := AtoiLossy(options[1])), options[2..])
    else ServerOptions(s, options[1..])
  }

  /** `ParseServerLine`: an error when there is no address. */
  function ParseServer(line: Line): Option<Server> {
    var fields := StripKeyword(line, "server");
    if |fields| < 2 then None else Some(ServerOptions(ServerAddress(fields[0], fields[1]), fields[2..]))
  }

  /** `ParseUseBackendLine`: the backend name. */
  function ParseUse(line: Line): Option<string> {
    var fields := StripKeyword(line, "use_backend");
    if fields == [] then None else Some(fields[0])
  }

  // ---- the state machine ----

  function FrontendLine(f: Frontend, line: Line): Frontend {
    var low := LowerLine(line);
    if StartsWith(low, "bind") then f.(binds := f.binds + [ParseBind(line)])
    else if StartsWith(low, "mode") then f.(mode := FirstToken(StripKeyword(low, "mode")))
    else if StartsWith(low, "default_backend") then f.(defaultBackend := FirstToken(StripKeyword(low, "default_backend")))
    else if StartsWith(low, "acl") then f
    else if StartsWith(low, "use_backend") then
      match ParseUse(line)
      case Some(name) => f.(rules := f.rules + [name])
      case None => f
    else f
  }

  function BackendLine(b: Backend, line: Line): Backend {
    var low := LowerLine(line);
    if StartsWith(low, "mode") then b.(mode := FirstToken(StripKeyword(low, "mode")))
    else if StartsWith(low, "balance") then b.(balance := FirstToken(StripKeyword(low, "balance")))
    else if StartsWith(low, "server") then
      match ParseServer(line)
      case Some(s) => b.(servers := b.servers + [s])
      case None => b
    else b
  }

  function ListenLine(l: Listen, line: Line): Listen {
    var low := LowerLine(line);
    if StartsWith(low, "bind") then l.(binds := l.binds + [ParseBind(line)])
    else if StartsWith(low, "mode") then l.(mode := FirstToken(StripKeyword(low, "mode")))
    else if StartsWith(low, "server") then
      match ParseServer(line)
      case Some(s) => l.(servers := l.servers + [s])
      case None => l
    else l
  }

  function OpenSection(cfg: Cfg, word: string, name: string): Parser {
    if word == "frontend" then
      Parser(InFrontend, cfg.(frontends := cfg.frontends + [Frontend(name, [], "http", "", [])]))
    else if word == "backend" then
      Parser(InBackend, cfg.(backends := cfg.backends + [Backend(name, "http", "roundrobin", [])]))
    else if word == "listen" then
      Parser(InListen, cfg.(listens := cfg.listens + [Listen(name, "tcp", [], [])]))
    else Parser(OtherSection, cfg)
  }

  /** A directive goes to the section that was opened last. */
  function Directive(p: Parser, line: Line): Parser {
    var cfg := p.cfg;
    if p.section == InFrontend && cfg.frontends != [] then
      var k := |cfg.frontends| - 1;
      p.(cfg := cfg.(frontends := cfg.frontends[..k] + [FrontendLine(cfg.frontends[k], line)]))
    else if p.section == InBackend && cfg.backends != [] then
      var k := |cfg.backends| - 1;
      p.(cfg := cfg.(backends := cfg.backends[..k] + [BackendLine(cfg.backends[k], line)]))
    else if p.section == InListen && cfg.listens != [] then
      var k := |cfg.listens| - 1;
      p.(cfg := cfg.(listens := cfg.listens[..k] + [ListenLine(cfg.listens[k], line)]))
    else p
  }

  predicate Blank(line: Line) {
    line == [] || HasPrefix(line[0], "#")
  }

  function Step(p: Parser, line: Line): Parser {
    if Blank(line) then p
    else
      var word := SectionWord(line);
      if word != "" then OpenSection(p.cfg, word, FirstToken(StripKeyword(line, word)))
      else Directive(p, line)
  }

  function Run(p: Parser, lines: seq<Line>): Parser
    decreases |lines|
  {
    if lines == [] then p else Run(Step(p, lines[0]), lines[1..])
  }

  lemma {:induction false} RunAppend(p: Parser, x: seq<Line>, y: seq<Line>)
    ensures Run(p, x + y) == Run(Run(p, x), y)
    decreases |x|
  {
    if x == [] {
      assert x + y == y;
    } else {
      RunAppend(Step(p, x[0]), x[1..], y);
      assert (x + y)[1..] == x[1..] + y;
    }
  }

  /** `ParseHAProxyConfig`. */
  method ParseHAProxyConfig(lines: seq<Line>) returns (cfg: Cfg)
    ensures cfg == Run(EMPTY, lines).cfg
  {
    cfg := Cfg([], [], []);
    var cur := NoSection;
    assert lines[0..] == lines;
    for i := 0 to |lines|
      invariant Run(EMPTY, lines) == Run(Parser(cur, cfg), lines[i..])
    {
      assert lines[i..][1..] == lines[i + 1..] && lines[i..][0] == lines[i];
      var line := lines[i];
      if Blank(line) {
        continue;
      }
      var word := SectionWord(line);
      if word != "" {
        var next := OpenSection(cfg, word, FirstToken(StripKeyword(line, word)));
        cur, cfg := next.section, next.cfg;
        continue;
      }
      if cur == InFrontend && cfg.frontends != [] {
        var k := |cfg.frontends| - 1;
        cfg := cfg.(frontends := cfg.frontends[..k] + [FrontendLine(cfg.frontends[k], line)]);
      } else if cur == InBackend && cfg.backends != [] {
        var k := |cfg.backends| - 1;
        cfg := cfg.(backends := cfg.backends[..k] + [BackendLine(cfg.backends[k], line)]);
      } else if cur == InListen && cfg.listens != [] {
        var k := |cfg.listens| - 1;
        cfg := cfg.(listens := cfg.listens[..k] + [ListenLine(cfg.listens[k], line)]);
      }
    }
  }

  // ---- conversion to mappings ----

  /** `normalizeBindIP`. */
  function NormalizeBindIP(ip: string): string {
    if ip == "*" || ip == "" then "0.0.0.0" else ip
  }

  /** `serverLinesToTargets`. */
  function TargetsOf(servers: seq<Server>): (targets: seq<Target>)
    ensures |targets| == |servers|
  {
    if servers == [] then []
    else
      var s := servers[0];
      [Target(s.address, s.port, if s.weight > 0 && s.weight != 1 then s.weight else 0, s.backup)] + TargetsOf(servers[1..])
  }

  function FindBackend(backends: seq<Backend>, name: string): Option<Backend> {
    if backends == [] then None
    else if backends[0].name == name then Some(backends[0])
    else FindBackend(backends[1..], name)
  }

  function BackendName(f: Frontend): string {
    if f.defaultBackend == "" && f.rules != [] then f.rules[0] else f.defaultBackend
  }

  /** The candidate a frontend converts to, or nothing. */
  function FrontendCandidate(f: Frontend, backends: seq<Backend>): Option<Candidate> {
    if |f.binds| != 1 || (f.defaultBackend == "" && f.rules == []) then None
    else match FindBackend(backends, BackendName(f))
      case None => None
      case Some(b) =>
        if b.servers == [] then None
        else
          var protocol := if f.binds[0].ssl then Https else if f.mode == "tcp" then Tcp else Http;
          Some(Candidate("", true, HAProxy, protocol, NormalizeBindIP(f.binds[0].ip), f.binds[0].port, [], "",
                         TargetsOf(b.servers), b.balance, ""))
  }

  function ListenCandidate(l: Listen): Option<Candidate> {
    if |l.binds| != 1 || l.servers == [] then None
    else Some(Candidate("", true, HAProxy, Tcp, NormalizeBindIP(l.binds[0].ip), l.binds[0].port, [], "",
                        TargetsOf(l.servers), "", ""))
  }

  /** One more section: a candidate under a fresh name, or an issue. */
  function Convert(c: Converted, section: string, name: string, candidate: Option<Candidate>): Converted {
    match candidate
    case Some(m) => AddCandidate(c, "imported-" + name, m)
    case None => c.(issues := c.issues + [Issue(section + " " + name)])
  }

  function ConvertFrontends(c: Converted, fs: seq<Frontend>, backends: seq<Backend>): Converted
    decreases |fs|
  {
    if fs == [] then c
    else ConvertFrontends(Convert(c, "frontend", fs[0].name, FrontendCandidate(fs[0], backends)), fs[1..], backends)
  }

  function ConvertListens(c: Converted, ls: seq<Listen>): Converted
    decreases |ls|
  {
    if ls == [] then c
    else ConvertListens(Convert(c, "listen", ls[0].name, ListenCandidate(ls[0])), ls[1..])
  }

  /** `HAProxyCfgToMappings`. */
  function ToMappings(cfg: Cfg, taken: set<string>): Converted {
    ConvertListens(ConvertFrontends(Converted([], [], taken), cfg.frontends, cfg.backends), cfg.listens)
  }

  lemma ConvertFresh(before: set<string>, c: Converted, section: string, name: string, candidate: Option<Candidate>)
    requires FreshNames(before, c)
    ensures FreshNames(before, Convert(c, section, name, candidate))
  {
    if candidate.Some? { AddCandidateFresh(before, c, "imported-" + name, candidate.value); }
  }

  lemma {:induction false} ConvertFrontendsFresh(before: set<string>, c: Converted, fs: seq<Frontend>, backends: seq<Backend>)
    requires FreshNames(before, c)
    ensures FreshNames(before, ConvertFrontends(c, fs, backends))
    decreases |fs|
  {
    if fs != [] {
      ConvertFresh(before, c, "frontend", fs[0].name, FrontendCandidate(fs[0], backends));
      ConvertFrontendsFresh(before, Convert(c, "frontend", fs[0].name, FrontendCandidate(fs[0], backends)), fs[1..], backends);
    }
  }

  lemma {:induction false} ConvertListensFresh(before: set<string>, c: Converted, ls: seq<Listen>)
    requires FreshNames(before, c)
    ensures FreshNames(before, ConvertListens(c, ls))
    decreases |ls|
  {
    if ls != [] {
      ConvertFresh(before, c, "listen", ls[0].name, ListenCandidate(ls[0]));
      ConvertListensFresh(before, Convert(c, "listen", ls[0].name, ListenCandidate(ls[0])), ls[1..]);
    }
  }

  /** Imported names are pairwise different and not taken. */
  lemma ToMappingsFresh(cfg: Cfg, taken: set<string>)
    ensures FreshNames(taken, ToMappings(cfg, taken))
  {
    var c := Converted([], [], taken);
    ConvertFrontendsFresh(taken, c, cfg.frontends, cfg.backends);
    ConvertListensFresh(taken, ConvertFrontends(c, cfg.frontends, cfg.backends), cfg.listens);
  }

  method HAProxyCfgToMappings(cfg: Cfg, taken: set<string>) returns (c: Converted)
    ensures c == ToMappings(cfg, taken)
  {
    c := Converted([], [], taken);
    assert cfg.frontends[0..] == cfg.frontends;
    for i := 0 to |cfg.frontends|
      invariant ToMappings(cfg, taken) == ConvertListens(ConvertFrontends(c, cfg.frontends[i..], cfg.backends), cfg.listens)
    {
      assert cfg.frontends[i..][1..] == cfg.frontends[i + 1..];
      c := ConvertOne(c, "frontend", cfg.frontends[i].name, FrontendCandidate(cfg.frontends[i], cfg.backends));
    }
    assert cfg.listens[0..] == cfg.listens;
    for i := 0 to |cfg.listens|
      invariant ToMappings(cfg, taken) == ConvertListens(c, cfg.listens[i..])
    {
      assert cfg.listens[i..][1..] == cfg.listens[i + 1..];
      c := ConvertOne(c, "listen", cfg.listens[i].name, ListenCandidate(cfg.listens[i]));
    }
  }

  method ConvertOne(c: Converted, section: string, name: string, candidate: Option<Candidate>) returns (r: Converted)
    ensures r == Convert(c, section, name, candidate)
  {
    match candidate
    case None =>
      r := c.(issues := c.issues + [Issue(section + " " + name)]);
    case Some(m) =>
      var unused := UniqueMappingName("imported-" + name, c.taken);
      r := Converted(c.out + [m.(name := unused)], c.issues, c.taken + {unused});
  }
}
