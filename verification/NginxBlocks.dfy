/** The nginx parser followed block by block over printed configuration. */
module NginxBlocks {
  import opened Text
  import opened Model
  import opened NginxRender
  import opened NginxParser

  // ---- tokens ----

  predicate NoBrackets(s: string) {
    '[' !in s && ']' !in s
  }

  /** A host that can be told apart from its port and from a path. */
  predicate PlainHost(h: string) {
    h != "" && NoBrackets(h) && '/' !in h
  }

  predicate PlainTarget(t: Target) {
    PlainHost(t.host) && 0 <= t.port <= MAX_INT64
  }

  lemma DecDigits(n: int)
    requires n >= 0
    ensures AllDigits(Dec(n)) && |Dec(n)| > 0 && ':' !in Dec(n) && ';' !in Dec(n) && '/' !in Dec(n)
  {}

  lemma PortAfterColon(left: string, port: int)
    requires 0 <= port <= MAX_INT64
    ensures ListenPort(left + ":" + Dec(port)) == port
  {
    DecDigits(port);
    AtoiDec(port);
    LastIndexAt(left, ':', Dec(port));
    assert (left + ":" + Dec(port))[|left| + 1..] == Dec(port);
  }

  lemma BracketPort(ip: string, port: int)
    requires 0 <= port <= MAX_INT64
    ensures ListenPort("[" + ip + "]:" + Dec(port)) == port
  {
    PortAfterColon("[" + ip + "]", port);
    BracketConcat(ip, Dec(port));
  }

  lemma BracketConcat(ip: string, digits: string)
    ensures "[" + ip + "]" + ":" + digits == "[" + ip + "]:" + digits
  {
    assert "]" + ":" == "]:";
    assert "[" + ip + "]" + ":" == "[" + ip + ("]" + ":");
  }

  /** Every printed listen address reads back as its port. */
  lemma ListenReadsBack(ip: string, port: int)
    requires 0 <= port <= MAX_INT64
    ensures ListenPort(ListenAddr(ip, port)) == port
  {
    if ip == "::" || ip == "" {
      PortAfterColon(ANY_IPV6, port);
    } else if ':' in ip {
      BracketPort(ip, port);
    } else {
      PortAfterColon(ip, port);
    }
  }

  lemma TrimNothing(s: string)
    requires NoBrackets(s)
    ensures TrimBrackets(s) == s
  {}

  /** A printed target reads back as host and port; IPv6 hosts included. */
  lemma HostPortReadsBack(t: Target)
    requires PlainTarget(t)
    ensures ParseHostPort(HostPort(t)) == Some(Target(t.host, t.port, 0, false))
  {
    var s := HostPort(t);
    DecDigits(t.port);
    AtoiDec(t.port);
    LastIndexAt(t.host, ':', Dec(t.port));
    assert s[|s| - 1] == Dec(t.port)[|Dec(t.port)| - 1];
    NoSemicolon(s);
    assert s[..|t.host|] == t.host && s[|t.host| + 1..] == Dec(t.port);
    TrimNothing(t.host);
  }

  lemma NoPort(name: string)
    requires ':' !in name
    ensures ParseHostPort(name) == None
  {
    var s := TrimSuffix(name, ";");
    assert ':' !in s;
  }

  lemma BadPort(host: string, rest: string)
    requires ':' !in rest && rest != "" && rest[|rest| - 1] != ';' && Atoi(rest) == None
    ensures ParseHostPort(host + ":" + rest) == None
  {
    var s := host + ":" + rest;
    LastIndexAt(host, ':', rest);
    assert s[|s| - 1] == rest[|rest| - 1];
    NoSemicolon(s);
    assert s[|host| + 1..] == rest;
  }

  lemma NoSemicolon(s: string)
    requires s != "" && s[|s| - 1] != ';'
    ensures TrimSuffix(s, ";") == s
  {
    assert s[|s| - 1..] == [s[|s| - 1]];
  }

  lemma VariableIsNoNumber()
    ensures ':' !in PORT_VARIABLE && Atoi(PORT_VARIABLE) == None
  {
    var v := PORT_VARIABLE;
    assert !IsDigit(v[0]);
    assert !AllDigits(v);
  }

  /** A location of a path route proxies to a variable port, which is not a target. */
  lemma VariablePort(host: string)
    ensures ParseHostPort(host + ":" + PORT_VARIABLE) == None
  {
    VariableIsNoNumber();
    BadPort(host, PORT_VARIABLE);
  }

  lemma PrefixChars(s: string, p: string, k: nat)
    requires k < |p|
    ensures HasPrefix(s, p) ==> p[k] in s
  {
    if HasPrefix(s, p) { assert s[..|p|][k] == s[k]; }
  }

  lemma NoScheme(name: string)
    requires '/' !in name
    ensures !HasPrefix(name, "http://") && !HasPrefix(name, "https://")
  {
    PrefixChars(name, "http://", 5);
    PrefixChars(name, "https://", 6);
  }

  lemma SchemeGone(name: string)
    requires '/' !in name
    ensures PassName("http://" + name) == name
  {
    var pass := "http://" + name;
    assert pass[..7] == "http://" && pass[7..] == name;
    NoScheme(name);
  }

  lemma PlainPassName(name: string)
    requires '/' !in name
    ensures PassName(name) == name
  {
    NoScheme(name);
  }

  // ---- upstream blocks ----

  function HostPorts(targets: seq<Target>): (r: seq<string>)
    ensures |r| == |targets|
  {
    if targets == [] then [] else [HostPort(targets[0])] + HostPorts(targets[1..])
  }

  predicate AtTop(p: Parser) {
    p.upstream == "" && p.server == None && !p.inLocation
  }

  function WithUpstreams(p: Parser, ups: map<string, seq<string>>): Parser {
    p.(sites := p.sites.(upstreams := ups))
  }

  /** The group an upstream block adds; none without servers. */
  function AddGroup(ups: map<string, seq<string>>, name: string, targets: seq<Target>): map<string, seq<string>> {
    if targets == [] then ups else ups[name := (if name in ups then ups[name] else []) + HostPorts(targets)]
  }

  lemma UpstreamServerStep(p: Parser, name: string, t: Target, withBackup: bool)
    requires p.upstream == name != ""
    ensures Step(p, UpstreamServer(t, withBackup)) == WithUpstreams(p, AddUpstreamServer(p.sites.upstreams, name, HostPort(t)))
  {
    var line := UpstreamServer(t, withBackup);
    assert line.fields[0] == "server" && line.fields[1] == HostPort(t);
    assert "server"[0] == 's';
    assert !HasPrefix("server", "#");
  }

  lemma AddGroupStep(ups: map<string, seq<string>>, name: string, targets: seq<Target>)
    requires targets != []
    ensures AddGroup(AddUpstreamServer(ups, name, HostPort(targets[0])), name, targets[1..]) == AddGroup(ups, name, targets)
  {
    var before := if name in ups then ups[name] else [];
    if |targets| > 1 {
      assert before + [HostPort(targets[0])] + HostPorts(targets[1..]) == before + HostPorts(targets);
    } else {
      assert HostPorts(targets) == [HostPort(targets[0])];
    }
  }

  lemma {:induction false} UpstreamServersRun(p: Parser, name: string, targets: seq<Target>, withBackup: bool)
    requires p.upstream == name != ""
    ensures Run(p, UpstreamServers(targets, withBackup)) == WithUpstreams(p, AddGroup(p.sites.upstreams, name, targets))
    decreases |targets|
  {
    if targets != [] {
      UpstreamServerStep(p, name, targets[0], withBackup);
      var q := WithUpstreams(p, AddUpstreamServer(p.sites.upstreams, name, HostPort(targets[0])));
      UpstreamServersRun(q, name, targets[1..], withBackup);
      AddGroupStep(p.sites.upstreams, name, targets);
      assert UpstreamServers(targets, withBackup)[1..] == UpstreamServers(targets[1..], withBackup);
    }
  }

  predicate BalanceLines(lines: seq<NLine>) {
    lines == [] || lines == [D(["least_conn"])] || lines == [D(["ip_hash"])] || lines == [D(["random"])]
  }

  lemma Run1(p: Parser, line: NLine)
    ensures Run(p, [line]) == Step(p, line)
  {
    var one := [line];
    assert one[1..] == [];
  }

  lemma BalanceRun(p: Parser, lines: seq<NLine>)
    requires p.upstream != "" && BalanceLines(lines)
    ensures Run(p, lines) == p
  {
    if lines != [] {
      Run1(p, lines[0]);
      assert |lines[0].fields| == 1;
    }
  }

  lemma OpenUpstream(p: Parser, name: string)
    requires p.upstream == "" && name != ""
    ensures Step(p, Open(["upstream", name])) == p.(upstream := name)
  {
    var line := Open(["upstream", name]);
    assert line.fields == ["upstream", name, "{"];
    assert HasSuffix("{", "{");
    assert "upstream"[0] == 'u';
    assert !HasPrefix("upstream", "#");
  }

  lemma CloseUpstream(p: Parser)
    requires p.upstream != ""
    ensures Step(p, CLOSE) == p.(upstream := "")
  {
    assert "}"[0] == '}';
    assert !HasPrefix("}", "#");
  }

  /** An upstream block records its servers and leaves the parser where it was, be that
      inside a server block. */
  lemma UpstreamRun(p: Parser, name: string, balance: seq<NLine>, targets: seq<Target>, withBackup: bool)
    requires p.upstream == "" && name != "" && BalanceLines(balance)
    ensures Run(p, UpstreamBlock(name, balance, targets, withBackup)) == WithUpstreams(p, AddGroup(p.sites.upstreams, name, targets))
  {
    var open: seq<NLine> := [Open(["upstream", name])];
    var servers := UpstreamServers(targets, withBackup);
    RunAppend(p, open + balance + servers, [CLOSE]);
    RunAppend(p, open + balance, servers);
    RunAppend(p, open, balance);
    Run1(p, Open(["upstream", name]));
    OpenUpstream(p, name);
    var q := p.(upstream := name);
    BalanceRun(q, balance);
    UpstreamServersRun(q, name, targets, withBackup);
    var r := WithUpstreams(q, AddGroup(p.sites.upstreams, name, targets));
    Run1(r, CLOSE);
    CloseUpstream(r);
  }

  // ---- inside a server block ----

  predicate InServer(p: Parser) {
    p.upstream == "" && p.server.Some? && !p.inLocation
  }

  function WithServer(p: Parser, s: Server): Parser {
    p.(server := Some(s))
  }

  /** A directive with a plain first word. */
  predicate Plain(line: NLine) {
    line.semi && line.fields != [] && !HasPrefix(line.fields[0], "#") && line.fields[0] != "}" && line.fields[0] != "stream"
  }

  lemma ServerStep(p: Parser, line: NLine)
    requires InServer(p) && Plain(line)
    ensures Step(p, line) == WithServer(p, ServerDirective(p.server.value, line.fields, p.inStream))
  {}

  /** Words a server block's parser passes over. */
  predicate Ignored(word: string) {
    word != "listen" && word != "server_name" && word != "return" && word != "proxy_pass"
  }

  lemma {:induction false} IgnoredRun(p: Parser, lines: seq<NLine>)
    requires InServer(p)
    requires forall i :: 0 <= i < |lines| ==> Plain(lines[i]) && Ignored(lines[i].fields[0])
    ensures Run(p, lines) == p
    decreases |lines|
  {
    if lines != [] {
      assert Plain(lines[0]) && Ignored(lines[0].fields[0]);
      ServerStep(p, lines[0]);
      IgnoredRun(p, lines[1..]);
    }
  }

  lemma OneDirective(p: Parser, line: NLine)
    requires InServer(p) && Plain(line)
    ensures Run(p, [line]) == WithServer(p, ServerDirective(p.server.value, line.fields, p.inStream))
  {
    Run1(p, line);
    ServerStep(p, line);
  }

  // ---- locations ----

  /** What the lines of a location block make of it. */
  function LocationBody(l: Location, lines: seq<NLine>): Location
    requires forall i :: 0 <= i < |lines| ==> lines[i].fields != []
    decreases |lines|
  {
    if lines == [] then l else LocationBody(LocationDirective(l, lines[0].fields), lines[1..])
  }

  /** A line that stays inside a location block. */
  predicate Inner(line: NLine) {
    line.fields != [] && !HasPrefix(line.fields[0], "#") && line.fields != ["}"] && line.fields[0] != "stream" && line.fields[0] != "upstream"
  }

  predicate AllInner(lines: seq<NLine>) {
    forall i :: 0 <= i < |lines| ==> Inner(lines[i])
  }

  predicate InLoc(p: Parser) {
    p.upstream == "" && p.server.Some? && p.inLocation && p.server.value.locations != []
  }

  function WithLast(s: Server, l: Location): Server
    requires s.locations != []
  {
    s.(locations := s.locations[..|s.locations| - 1] + [l])
  }

  function Last(s: Server): Location
    requires s.locations != []
  {
    s.locations[|s.locations| - 1]
  }

  lemma WithLastFacts(s: Server, l: Location, k: Location)
    requires s.locations != []
    ensures WithLast(s, l).locations != [] && Last(WithLast(s, l)) == l
    ensures WithLast(WithLast(s, l), k) == WithLast(s, k)
    ensures WithLast(s, Last(s)) == s
  {
    var ls := s.locations;
    assert ls == ls[..|ls| - 1] + [ls[|ls| - 1]];
    assert (ls[..|ls| - 1] + [l])[..|ls| - 1] == ls[..|ls| - 1];
  }

  lemma InnerStep(p: Parser, line: NLine)
    requires InLoc(p) && Inner(line)
    ensures Step(p, line) == WithServer(p, WithLast(p.server.value, LocationDirective(Last(p.server.value), line.fields)))
  {}

  lemma {:induction false} InnerRun(p: Parser, lines: seq<NLine>)
    requires InLoc(p) && AllInner(lines)
    ensures Run(p, lines) == WithServer(p, WithLast(p.server.value, LocationBody(Last(p.server.value), lines)))
    decreases |lines|
  {
    var s := p.server.value;
    WithLastFacts(s, Last(s), Last(s));
    if lines != [] {
      assert Inner(lines[0]);
      var l := LocationDirective(Last(s), lines[0].fields);
      InnerStep(p, lines[0]);
      WithLastFacts(s, l, l);
      InnerRun(WithServer(p, WithLast(s, l)), lines[1..]);
      WithLastFacts(s, l, LocationBody(l, lines[1..]));
    }
  }

  function WithLocation(p: Parser, l: Location): Parser
    requires p.server.Some?
  {
    WithServer(p, p.server.value.(locations := p.server.value.locations + [l]))
  }

  lemma OpenLocation(p: Parser, words: seq<string>)
    requires InServer(p)
    ensures Step(p, Open(["location"] + words)) == WithLocation(p, NewLocation(["location"] + words + ["{"])).(inLocation := true)
  {
    var line := Open(["location"] + words);
    assert line.fields == ["location"] + words + ["{"] && line.fields[0] == "location";
    LocationLine(p, line);
  }

  lemma LocationLine(p: Parser, line: NLine)
    requires InServer(p) && |line.fields| >= 2 && !line.semi
    requires line.fields[0] == "location" && line.fields[|line.fields| - 1] == "{"
    ensures Step(p, line) == WithLocation(p, NewLocation(line.fields)).(inLocation := true)
  {
    assert HasSuffix("{", "{");
    assert "location"[0] == 'l';
    assert !HasPrefix("location", "#");
  }

  lemma CloseLocation(p: Parser)
    requires InLoc(p) && !(p.inStream && p.depth == 0)
    ensures Step(p, CLOSE) == p.(inLocation := false)
  {
    assert "}"[0] == '}';
    assert !HasPrefix("}", "#");
  }

  /** A location block adds one location, whatever came before. */
  lemma LocationRun(p: Parser, words: seq<string>, body: seq<NLine>)
    requires InServer(p) && AllInner(body) && !p.inStream
    ensures Run(p, [Open(["location"] + words)] + body + [CLOSE])
      == WithLocation(p, LocationBody(NewLocation(["location"] + words + ["{"]), body))
  {
    var l := NewLocation(["location"] + words + ["{"]);
    var s := p.server.value;
    RunAppend(p, [Open(["location"] + words)] + body, [CLOSE]);
    RunAppend(p, [Open(["location"] + words)], body);
    Run1(p, Open(["location"] + words));
    OpenLocation(p, words);
    var q := WithLocation(p, l).(inLocation := true);
    InnerRun(q, body);
    assert (s.locations + [l])[..|s.locations|] == s.locations;
    var r := WithServer(q, WithLast(q.server.value, LocationBody(l, body)));
    Run1(r, CLOSE);
    CloseLocation(r);
  }
}
