/** Reading nginx configuration back (internal/proxy/nginxparser.go): a line-driven state
    machine over upstream, stream, server and location blocks. */
module NginxParser {
  import opened Text
  import opened Model
  import opened Import
  import opened NginxRender

  datatype Location = Location(path: string, proxyPass: string, returns404: bool, isRegex: bool)

  datatype Server = Server(port: int, ssl: bool, names: seq<string>, locations: seq<Location>, redirect: string, isDefault: bool)

  const NEW_SERVER := Server(0, false, [], [], "", false)

  datatype Sites = Sites(http: seq<Server>, stream: seq<Server>, upstreams: map<string, seq<string>>)

  /** `upstream` is "" outside upstream blocks; `server` is the open server block. */
  datatype Parser = Parser(upstream: string, inStream: bool, depth: int, server: Option<Server>, inLocation: bool, sites: Sites)

  const START := Parser("", false, 0, None, false, Sites([], [], map[]))

  predicate OpensBlock(line: NLine) {
    !line.semi && line.fields != [] && HasSuffix(line.fields[|line.fields| - 1], "{")
  }

  predicate Skipped(line: NLine) {
    line.fields == [] || HasPrefix(line.fields[0], "#")
  }

  /** The words of a location line between the keyword and the brace. */
  function LocationWords(fields: seq<string>): seq<string>
    requires fields != []
  {
    var last := fields[|fields| - 1];
    if |fields| == 1 then []
    else if last == "{" then fields[1..|fields| - 1]
    else fields[1..|fields| - 1] + [TrimSuffix(last, "{")]
  }

  function NewLocation(fields: seq<string>): Location
    requires fields != []
  {
    var path := Join(LocationWords(fields), " ");
    Location(TrimPrefix(TrimPrefix(path, "~*"), "~"), "", false, HasPrefix(path, "~"))
  }

  /** The port of a listen address: after the last colon, or the whole, or 80. */
  function ListenPort(addr: string): int {
    var i := LastIndex(addr, ':');
    var digits := if i >= 0 then addr[i + 1..] else addr;
    match Atoi(digits)
    case Some(p) => p
    case None => 80
  }

  function WithoutUnderscore(names: seq<string>): seq<string> {
    if names == [] then []
    else if names[0] == "_" then WithoutUnderscore(names[1..])
    else [names[0]] + WithoutUnderscore(names[1..])
  }

  /** A directive inside a server block. */
  function ServerDirective(s: Server, f: seq<string>, inStream: bool): Server
    requires f != []
  {
    if f[0] == "listen" && |f| >= 2 then
      s.(port := ListenPort(f[1]), ssl := s.ssl || "ssl" in f, isDefault := s.isDefault || "default_server" in f)
    else if f[0] == "server_name" then s.(names := s.names + WithoutUnderscore(f[1..]))
    else if f[0] == "return" && |f| >= 3 && f[1] == "301" then s.(redirect := Join(f[2..], " "))
    else if f[0] == "proxy_pass" && |f| >= 2 && inStream then
      s.(redirect := "", locations := s.locations + [Location("/", f[1], false, false)])
    else s
  }

  /** A directive inside the last location of a server block. */
  function LocationDirective(l: Location, f: seq<string>): Location
    requires f != []
  {
    if f[0] == "proxy_pass" && |f| >= 2 then l.(proxyPass := f[1])
    else if f[0] == "return" && |f| >= 2 && f[1] == "404" then l.(returns404 := true)
    else l
  }

  function InLastLocation(s: Server, f: seq<string>): Server
    requires f != []
  {
    if s.locations == [] then s
    else
      var k := |s.locations| - 1;
      s.(locations := s.locations[..k] + [LocationDirective(s.locations[k], f)])
  }

  /** `isPortGuardManaged`: some server name contains "portguard". */
  predicate Contains(s: string, word: string)
  {
    HasPrefix(s, word) || (s != [] && Contains(s[1..], word))
  }

  predicate Managed(s: Server) {
    exists i :: 0 <= i < |s.names| && Contains(s.names[i], "portguard")
  }

  /** A closed server block is kept when it listens and is not managed. */
  function CloseServer(p: Parser, s: Server): Parser {
    var keep := s.port > 0 && !Managed(s);
    var sites :=
      if !keep then p.sites
      else if p.inStream then p.sites.(stream := p.sites.stream + [s])
      else p.sites.(http := p.sites.http + [s]);
    p.(server := None, sites := sites, depth := if p.inStream && p.depth > 0 then p.depth - 1 else p.depth)
  }

  function AddUpstreamServer(ups: map<string, seq<string>>, name: string, addr: string): map<string, seq<string>> {
    ups[name := (if name in ups then ups[name] else []) + [addr]]
  }

  /** A line inside an upstream block. */
  function UpstreamLine(p: Parser, line: NLine): Parser {
    if line == CLOSE then p.(upstream := "")
    else if |line.fields| >= 2 && line.fields[0] == "server"
    then p.(sites := p.sites.(upstreams := AddUpstreamServer(p.sites.upstreams, p.upstream, line.fields[1])))
    else p
  }

  /** A line outside upstream blocks. */
  function BlockLine(p: Parser, line: NLine): Parser
    requires line.fields != []
  {
    var f := line.fields;
    if f == ["stream", "{"] then p.(inStream := true, depth := 0)
    else if p.inStream && f == ["}"] && p.depth == 0 then p.(inStream := false)
    else if p.server == None && f[0] == "server" && OpensBlock(line) then
      p.(server := Some(NEW_SERVER), depth := if p.inStream then p.depth + 1 else p.depth)
    else if p.server.Some? && !p.inLocation && f[0] == "location" && OpensBlock(line) then
      p.(server := Some(p.server.value.(locations := p.server.value.locations + [NewLocation(f)])), inLocation := true)
    else if f == ["}"] then
      if p.inLocation then p.(inLocation := false)
      else if p.server.Some? then CloseServer(p, p.server.value)
      else p
    else if p.inLocation && p.server.Some? then p.(server := Some(InLastLocation(p.server.value, f)))
    else if p.server.Some? then p.(server := Some(ServerDirective(p.server.value, f, p.inStream)))
    else p
  }

  function Step(p: Parser, line: NLine): Parser {
    if Skipped(line) then p
    else if p.upstream == "" && |line.fields| >= 2 && line.fields[0] == "upstream" && OpensBlock(line)
    then p.(upstream := line.fields[1])
    else if p.upstream != "" then UpstreamLine(p, line)
    else BlockLine(p, line)
  }

  function Run(p: Parser, lines: seq<NLine>): Parser
    decreases |lines|
  {
    if lines == [] then p else Run(Step(p, lines[0]), lines[1..])
  }

  lemma {:induction false} RunAppend(p: Parser, x: seq<NLine>, y: seq<NLine>)
    ensures Run(p, x + y) == Run(Run(p, x), y)
    decreases |x|
  {
    if x == [] {
      assert x + y == y;
    } else {
      RunAppend(Step(p, x[0]), x[1..], y);
      assert (x + y)[1..] == x[1..] + y;
    }
  }

  /** `ParseNginxConfig`: the local variables of the loop are the fields of the state. */
  method ParseNginxConfig(lines: seq<NLine>) returns (sites: Sites)
    ensures sites == Run(START, lines).sites
  {
    sites := Sites([], [], map[]);
    var upstream, inStream, depth, inLocation := "", false, 0, false;
    var server: Option<Server> := None;
    assert lines[0..] == lines;
    for i := 0 to |lines|
      invariant Run(START, lines) == Run(Parser(upstream, inStream, depth, server, inLocation, sites), lines[i..])
    {
      assert lines[i..][1..] == lines[i + 1..] && lines[i..][0] == lines[i];
      var line := lines[i];
      if Skipped(line) {
        continue;
      }
      if upstream == "" && |line.fields| >= 2 && line.fields[0] == "upstream" && OpensBlock(line) {
        upstream := line.fields[1];
        continue;
      }
      var p := Parser(upstream, inStream, depth, server, inLocation, sites);
      if upstream != "" {
        if line == CLOSE {
          upstream := "";
        } else if |line.fields| >= 2 && line.fields[0] == "server" {
          sites := sites.(upstreams := AddUpstreamServer(sites.upstreams, upstream, line.fields[1]));
        }
        continue;
      }
      var next := BlockLine(p, line);
      inStream, depth, server, inLocation, sites := next.inStream, next.depth, next.server, next.inLocation, next.sites;
    }
  }

  // ---- conversion ----

  /** `parseHostPort`. */
  function ParseHostPort(text: string): Option<Target> {
    var s := TrimSuffix(text, ";");
    var i := LastIndex(s, ':');
    if i <= 0 || i == |s| - 1 then None
    else match Atoi(s[i + 1..])
      case None => None
      case Some(port) => Some(Target(TrimBrackets(s[..i]), port, 0, false))
  }

  function ParseHosts(hosts: seq<string>): seq<Target> {
    if hosts == [] then []
    else (match ParseHostPort(hosts[0]) case Some(t) => [t] case None => []) + ParseHosts(hosts[1..])
  }

  /** The upstream name or host:port of a proxy_pass. */
  function PassName(pass: string): string {
    var rest := TrimPrefix(TrimPrefix(pass, "http://"), "https://");
    var i := Index(rest, '/');
    if i >= 0 then rest[..i] else rest
  }

  /** `resolveProxyPass`. */
  function Resolve(pass: string, ups: map<string, seq<string>>): seq<Target> {
    var name := PassName(pass);
    if name in ups then ParseHosts(ups[name])
    else match ParseHostPort(name)
      case Some(t) => [t]
      case None => []
  }

  /** Where a location proxies to; nowhere without a proxy_pass that resolves. */
  function LeadsTo(l: Location, ups: map<string, seq<string>>): seq<Target> {
    if l.proxyPass == "" then [] else Resolve(l.proxyPass, ups)
  }

  /** The first location that proxies somewhere known. */
  function FirstProxy(ls: seq<Location>, ups: map<string, seq<string>>): Option<(Location, seq<Target>)> {
    if ls == [] then None
    else if LeadsTo(ls[0], ups) != [] then Some((ls[0], LeadsTo(ls[0], ups)))
    else FirstProxy(ls[1..], ups)
  }

  function HttpCandidate(s: Server, ups: map<string, seq<string>>): Candidate {
    var first := FirstProxy(s.locations, ups);
    Candidate("", false, Nginx, if s.ssl then Https else Http, "0.0.0.0", s.port, s.names, s.redirect,
              if first.Some? then first.value.1 else [], "",
              if first.Some? && first.value.0.path != "/" && !first.value.0.isRegex then first.value.0.path else "")
  }

  predicate HttpUnclear(s: Server, ups: map<string, seq<string>>) {
    s.redirect == "" && FirstProxy(s.locations, ups).None?
  }

  function StreamCandidate(s: Server, ups: map<string, seq<string>>): Candidate {
    Candidate("", false, Nginx, Tcp, "0.0.0.0", s.port, [], "",
              if s.locations != [] then Resolve(s.locations[0].proxyPass, ups) else [], "", "")
  }

  /** An empty default server is only reported. */
  predicate CatchAll(s: Server) {
    s.isDefault && s.names == [] && s.locations == []
  }

  /** A candidate, and a report when it is incomplete. */
  function Take(c: Converted, base: string, candidate: Candidate, unclear: bool, section: string): Converted {
    AddCandidate(if unclear then c.(issues := c.issues + [Issue(section)]) else c, base, candidate)
  }

  function TakeHttp(c: Converted, s: Server, ups: map<string, seq<string>>): Converted {
    if CatchAll(s) then c.(issues := c.issues + [Issue("http default server")])
    else Take(c, "imported-nginx-" + Dec(s.port), HttpCandidate(s, ups), HttpUnclear(s, ups),
              "http :" + Dec(s.port) + " (" + Join(s.names, ",") + ")")
  }

  function TakeStream(c: Converted, s: Server, ups: map<string, seq<string>>): Converted {
    Take(c, "imported-stream-" + Dec(s.port), StreamCandidate(s, ups), StreamCandidate(s, ups).targets == [], "stream :" + Dec(s.port))
  }

  function TakeAllHttp(c: Converted, ss: seq<Server>, ups: map<string, seq<string>>): Converted
    decreases |ss|
  {
    if ss == [] then c else TakeAllHttp(TakeHttp(c, ss[0], ups), ss[1..], ups)
  }

  function TakeAllStream(c: Converted, ss: seq<Server>, ups: map<string, seq<string>>): Converted
    decreases |ss|
  {
    if ss == [] then c else TakeAllStream(TakeStream(c, ss[0], ups), ss[1..], ups)
  }

  /** `NginxSitesToMappings`. */
  function ToMappings(sites: Sites, taken: set<string>): Converted {
    TakeAllStream(TakeAllHttp(Converted([], [], taken), sites.http, sites.upstreams), sites.stream, sites.upstreams)
  }

  lemma TakeFresh(before: set<string>, c: Converted, base: string, candidate: Candidate, unclear: bool, section: string)
    requires FreshNames(before, c)
    ensures FreshNames(before, Take(c, base, candidate, unclear, section))
  {
    AddCandidateFresh(before, if unclear then c.(issues := c.issues + [Issue(section)]) else c, base, candidate);
  }

  lemma {:induction false} TakeAllHttpFresh(before: set<string>, c: Converted, ss: seq<Server>, ups: map<string, seq<string>>)
    requires FreshNames(before, c)
    ensures FreshNames(before, TakeAllHttp(c, ss, ups))
    decreases |ss|
  {
    if ss != [] {
      var s := ss[0];
      TakeFresh(before, c, "imported-nginx-" + Dec(s.port), HttpCandidate(s, ups), HttpUnclear(s, ups),
                "http :" + Dec(s.port) + " (" + Join(s.names, ",") + ")");
      TakeAllHttpFresh(before, TakeHttp(c, s, ups), ss[1..], ups);
    }
  }

  lemma {:induction false} TakeAllStreamFresh(before: set<string>, c: Converted, ss: seq<Server>, ups: map<string, seq<string>>)
    requires FreshNames(before, c)
    ensures FreshNames(before, TakeAllStream(c, ss, ups))
    decreases |ss|
  {
    if ss != [] {
      var s := ss[0];
      TakeFresh(before, c, "imported-stream-" + Dec(s.port), StreamCandidate(s, ups), StreamCandidate(s, ups).targets == [], "stream :" + Dec(s.port));
      TakeAllStreamFresh(before, TakeStream(c, s, ups), ss[1..], ups);
    }
  }

  /** Imported names are pairwise different and not taken. */
  lemma ToMappingsFresh(sites: Sites, taken: set<string>)
    ensures FreshNames(taken, ToMappings(sites, taken))
  {
    var c := Converted([], [], taken);
    TakeAllHttpFresh(taken, c, sites.http, sites.upstreams);
    TakeAllStreamFresh(taken, TakeAllHttp(c, sites.http, sites.upstreams), sites.stream, sites.upstreams);
  }

  /** The loop over a server's locations. */
  method FindProxy(ls: seq<Location>, ups: map<string, seq<string>>) returns (found: Option<(Location, seq<Target>)>)
    ensures found == FirstProxy(ls, ups)
  {
    found := None;
    assert ls[0..] == ls;
    for i := 0 to |ls|
      invariant found.None? ==> FirstProxy(ls, ups) == FirstProxy(ls[i..], ups)
      invariant found.Some? ==> FirstProxy(ls, ups) == found
    {
      assert ls[i..][1..] == ls[i + 1..];
      if ls[i].proxyPass == "" {
        continue;
      }
      var targets := Resolve(ls[i].proxyPass, ups);
      if targets != [] && found.None? {
        found := Some((ls[i], targets));
      }
    }
  }

  method NginxSitesToMappings(sites: Sites, taken: set<string>) returns (c: Converted)
    ensures c == ToMappings(sites, taken)
  {
    c := Converted([], [], taken);
    var ups := sites.upstreams;
    assert sites.http[0..] == sites.http;
    for i := 0 to |sites.http|
      invariant ToMappings(sites, taken) == TakeAllStream(TakeAllHttp(c, sites.http[i..], ups), sites.stream, ups)
    {
      assert sites.http[i..][1..] == sites.http[i + 1..];
      c := TakeHttp(c, sites.http[i], ups);
    }
    assert sites.stream[0..] == sites.stream;
    for i := 0 to |sites.stream|
      invariant ToMappings(sites, taken) == TakeAllStream(c, sites.stream[i..], ups)
    {
      assert sites.stream[i..][1..] == sites.stream[i + 1..];
      c := TakeStream(c, sites.stream[i], ups);
    }
  }
}
