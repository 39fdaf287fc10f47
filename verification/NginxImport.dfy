/** What the nginx import makes of server blocks that PortGuard does not print itself:
    addresses of any form, location modifiers, paths behind the target, redirects and
    catch-alls. */
module NginxImport {
  import opened Text
  import opened Model
  import opened Import
  import opened NginxRender
  import opened NginxParser
  import opened NginxBlocks
  import S = NginxServers

  // ---- what people write ----

  /** Where a server listens: a port, an address with one, or an address alone. */
  datatype Addr = Bare(port: nat) | At(ip: string, port: nat) | Alone(ip: string)

  function AddrText(a: Addr): string {
    match a
    case Bare(port) => Itoa(port)
    case At(ip, port) => ip + ":" + Itoa(port)
    case Alone(ip) => ip
  }

  function AddrPort(a: Addr): nat {
    match a
    case Bare(port) => port
    case At(_, port) => port
    case Alone(_) => 80
  }

  predicate PlainAddr(a: Addr) {
    match a
    case Bare(port) => 0 < port <= MAX_INT64
    case At(ip, port) => 0 < port <= MAX_INT64
    case Alone(ip) => ':' !in ip && ('.' in ip || ip == "*")
  }

  /** A location: by prefix, by a regular expression, or with another modifier. */
  datatype Place = Prefix(path: string) | Regex(tilde: string, spaced: bool, pattern: string) | Marked(mark: string, path: string)

  function Words(place: Place): seq<string> {
    match place
    case Prefix(path) => [path]
    case Regex(tilde, spaced, pattern) => if spaced then [tilde, pattern] else [tilde + pattern]
    case Marked(mark, path) => [mark, path]
  }

  predicate PlainPlace(place: Place) {
    match place
    case Prefix(path) => path != "" && path[0] == '/'
    case Regex(tilde, _, pattern) => (tilde == "~" || tilde == "~*") && pattern != "" && pattern[0] != '~' && pattern[0] != '*'
    case Marked(mark, path) => mark == "=" || mark == "^~"
  }

  /** What is read of it. */
  function PlaceRead(place: Place): Location {
    match place
    case Prefix(path) => Location(path, "", false, false)
    case Regex(_, spaced, pattern) => Location(if spaced then " " + pattern else pattern, "", false, true)
    case Marked(mark, path) => Location(mark + (" " + path), "", false, false)
  }

  /** The path prefix of the mapping it becomes. */
  function PrefixOf(place: Place): string {
    match place
    case Prefix(path) => if path == "/" then "" else path
    case Regex(_, _, _) => ""
    case Marked(mark, path) => mark + (" " + path)
  }

  /** Names as they are, or the catch-all name alone. */
  predicate PlainNames(names: seq<string>) {
    "_" !in names || names == ["_"]
  }

  function NamesRead(names: seq<string>): seq<string> {
    if names == ["_"] then [] else names
  }

  /** One of the names says "portguard" somewhere. */
  ghost predicate SaysPortGuard(names: seq<string>) {
    exists i, k :: 0 <= i < |names| && 0 <= k && SaysAt(names[i], k)
  }

  predicate SaysAt(name: string, k: nat) {
    k + 9 <= |name| && name[k..k + 9] == "portguard"
  }

  // ---- tokens ----

  lemma ListenRead(a: Addr)
    requires PlainAddr(a)
    ensures ListenPort(AddrText(a)) == AddrPort(a) && AddrText(a) != "ssl" && AddrText(a) != "default_server"
  {
    match a
    case Bare(port) =>
      BareRead(port);
    case At(ip, port) =>
      PortAfterColon(ip, port);
      assert (ip + ":" + Itoa(port))[|ip|] == ':';
      ColonIsNoFlag(ip + ":" + Itoa(port));
    case Alone(ip) =>
      AloneRead(ip);
  }

  lemma BareRead(port: nat)
    requires port <= MAX_INT64
    ensures ListenPort(Itoa(port)) == port && Itoa(port) != "ssl" && Itoa(port) != "default_server"
  {
    AtoiItoa(port);
    assert ':' !in Itoa(port);
    assert IsDigit(Itoa(port)[0]);
  }

  lemma ColonIsNoFlag(text: string)
    requires ':' in text
    ensures text != "ssl" && text != "default_server"
  {}

  lemma AloneRead(ip: string)
    requires ':' !in ip && ('.' in ip || ip == "*")
    ensures ListenPort(ip) == 80 && ip != "ssl" && ip != "default_server"
  {
    NoNumber(ip);
  }

  lemma PlaceIsRead(place: Place)
    requires PlainPlace(place)
    ensures NewLocation(["location"] + Words(place) + ["{"]) == PlaceRead(place)
  {
    var f := ["location"] + Words(place) + ["{"];
    assert f[1..|f| - 1] == Words(place);
    match place
    case Prefix(path) =>
      S.PathLocation(path);
    case Regex(tilde, spaced, pattern) =>
      RegexRead(tilde, if spaced then " " + pattern else pattern);
      JoinTwo(tilde, pattern);
    case Marked(mark, path) =>
      JoinTwo(mark, path);
      MarkIsNoRegex(mark + (" " + path), mark);
  }

  /** A brace may be glued to the path. */
  lemma GluedBrace(path: string)
    requires path != "" && path != "{"
    ensures NewLocation(["location", path + "{"]) == NewLocation(["location", path, "{"])
    ensures OpensBlock(NLine(["location", path + "{"], false))
  {
    var f := ["location", path + "{"];
    assert (path + "{")[|path|..] == "{" && (path + "{")[..|path|] == path;
    assert f[1..1] == [] && LocationWords(f) == [path];
    assert ["location", path, "{"][1..2] == [path];
  }

  lemma JoinTwo(x: string, y: string)
    ensures Join([x, y], " ") == x + (" " + y)
  {
    assert [x, y][1..] == [y];
    assert Join([y], " ") == y;
    assert x + " " + y == x + (" " + y);
  }

  lemma MarkIsNoRegex(path: string, mark: string)
    requires mark == "=" || mark == "^~"
    requires HasPrefix(path, mark)
    ensures !HasPrefix(path, "~") && !HasPrefix(path, "~*")
  {
    assert path[0] == mark[0];
  }

  lemma RegexRead(tilde: string, rest: string)
    requires (tilde == "~" || tilde == "~*") && rest != "" && rest[0] != '~' && rest[0] != '*'
    ensures HasPrefix(tilde + rest, "~") && TrimPrefix(TrimPrefix(tilde + rest, "~*"), "~") == rest
  {
    var path := tilde + rest;
    assert path[|tilde|..] == rest && path[|tilde|] == rest[0];
    if tilde == "~" {
      assert path[..2][1] != "~*"[1];
      assert !HasPrefix(path, "~*");
      assert path[..1] == "~";
    } else {
      assert path[..2] == "~*" && path[..1] == "~";
      assert !HasPrefix(rest, "~");
    }
  }

  lemma {:induction false} NamesAreRead(names: seq<string>)
    requires "_" !in names
    ensures WithoutUnderscore(names) == names
  {
    if names != [] { NamesAreRead(names[1..]); }
  }

  lemma NamesReadBack(names: seq<string>)
    requires PlainNames(names)
    ensures WithoutUnderscore(names) == NamesRead(names)
  {
    if names == ["_"] { assert names[1..] == []; } else { NamesAreRead(names); }
  }

  lemma {:induction false} ContainsIff(s: string)
    ensures Contains(s, "portguard") <==> exists k: nat :: SaysAt(s, k)
  {
    if HasPrefix(s, "portguard") {
      assert SaysAt(s, 0);
    } else if s != [] {
      ContainsIff(s[1..]);
      forall k: nat | SaysAt(s[1..], k) ensures SaysAt(s, k + 1) { assert s[1..][k..k + 9] == s[k + 1..k + 1 + 9]; }
      forall k: nat | SaysAt(s, k) ensures k > 0 && SaysAt(s[1..], k - 1) { LaterSays(s, k); }
    }
  }

  lemma LaterSays(s: string, k: nat)
    requires SaysAt(s, k) && !HasPrefix(s, "portguard")
    ensures k > 0 && SaysAt(s[1..], k - 1)
  {
    if k > 0 { assert s[1..][k - 1..k - 1 + 9] == s[k..k + 9]; }
  }

  lemma ManagedIff(s: Server, names: seq<string>)
    requires PlainNames(names) && s.names == NamesRead(names)
    ensures Managed(s) <==> SaysPortGuard(names)
  {
    forall i | 0 <= i < |names| ensures Contains(names[i], "portguard") <==> exists k: nat :: SaysAt(names[i], k) { ContainsIff(names[i]); }
    if Managed(s) {
      var i :| 0 <= i < |s.names| && Contains(s.names[i], "portguard");
      var k: nat :| SaysAt(names[i], k);
    }
    if SaysPortGuard(names) {
      var i, k :| 0 <= i < |names| && 0 <= k && SaysAt(names[i], k);
      assert Contains(s.names[i], "portguard");
    }
  }

  // ---- server blocks ----

  /** A server block: where it listens, its names, and the rest. */
  function Block(a: Addr, options: seq<string>, names: seq<string>, rest: seq<NLine>): seq<NLine> {
    [Open(["server"])] + (([D(["listen", AddrText(a)] + options)] + [D(["server_name"] + names)]) + rest) + [CLOSE]
  }

  function Listened(a: Addr, options: seq<string>): Server {
    Server(AddrPort(a), "ssl" in options, [], [], "", "default_server" in options)
  }

  function Headed(a: Addr, options: seq<string>, names: seq<string>): Server {
    Listened(a, options).(names := NamesRead(names))
  }

  lemma ListenDirective(s: Server, a: Addr, options: seq<string>, inStream: bool)
    requires PlainAddr(a) && s == NEW_SERVER
    ensures ServerDirective(s, ["listen", AddrText(a)] + options, inStream) == Listened(a, options)
  {
    var f := ["listen", AddrText(a)] + options;
    ListenRead(a);
    assert f[0] == "listen" && f[1] == AddrText(a);
    assert "ssl" !in ["listen", AddrText(a)] && "default_server" !in ["listen", AddrText(a)];
  }

  lemma NameDirective(s: Server, names: seq<string>)
    requires PlainNames(names) && s.names == []
    ensures ServerDirective(s, ["server_name"] + names, false) == s.(names := NamesRead(names))
  {
    var f := ["server_name"] + names;
    assert f[1..] == names && f[0] == "server_name";
    NamesReadBack(names);
    assert [] + NamesRead(names) == NamesRead(names);
  }

  lemma HeadRun(a: Addr, options: seq<string>, names: seq<string>)
    requires PlainAddr(a) && PlainNames(names)
    ensures Run(WithServer(START, NEW_SERVER), [D(["listen", AddrText(a)] + options)] + [D(["server_name"] + names)])
      == WithServer(START, Headed(a, options, names))
  {
    var p := WithServer(START, NEW_SERVER);
    RunAppend(p, [D(["listen", AddrText(a)] + options)], [D(["server_name"] + names)]);
    S.ListenStep(p, AddrText(a), options);
    ListenDirective(NEW_SERVER, a, options, false);
    NameIsPlain(names);
    OneDirective(WithServer(START, Listened(a, options)), D(["server_name"] + names));
    NameDirective(Listened(a, options), names);
  }

  lemma NameIsPlain(names: seq<string>)
    ensures Plain(D(["server_name"] + names))
  {
    assert D(["server_name"] + names).fields[0] == "server_name" && "server_name"[0] == 's';
    assert !HasPrefix("server_name", "#");
  }

  lemma BlockRun(a: Addr, options: seq<string>, names: seq<string>, rest: seq<NLine>, s: Server)
    requires PlainAddr(a) && PlainNames(names)
    requires Run(WithServer(START, Headed(a, options, names)), rest) == WithServer(START, s)
    requires s.port == AddrPort(a) && s.names == NamesRead(names)
    ensures Run(START, Block(a, options, names, rest)).sites == Sites(if SaysPortGuard(names) then [] else [s], [], map[])
  {
    var head := [D(["listen", AddrText(a)] + options)] + [D(["server_name"] + names)];
    RunAppend(START, [Open(["server"])] + (head + rest), [CLOSE]);
    RunAppend(START, [Open(["server"])], head + rest);
    Run1(START, Open(["server"]));
    S.OpenServer(START);
    var p := WithServer(START, NEW_SERVER);
    RunAppend(p, head, rest);
    HeadRun(a, options, names);
    var q := WithServer(START, s);
    Run1(q, CLOSE);
    S.CloseServerStep(q);
    ManagedIff(s, names);
    assert [] + [s] == [s];
  }

  lemma OneHttp(s: Server, taken: set<string>)
    ensures ToMappings(Sites([s], [], map[]), taken) == TakeHttp(Converted([], [], taken), s, map[])
    ensures ToMappings(Sites([], [], map[]), taken) == Converted([], [], taken)
  {
    var next := TakeHttp(Converted([], [], taken), s, map[]);
    assert [s][1..] == [] && TakeAllHttp(next, [], map[]) == next;
  }

  // ---- proxies ----

  predicate PlainPass(scheme: string, host: string, port: nat, tail: string) {
    && (scheme == "http://" || scheme == "https://") && PlainHost(host) && port <= MAX_INT64
    && (tail == "" || tail[0] == '/')
  }

  function PassText(scheme: string, host: string, port: nat, tail: string): string {
    scheme + (host + ":" + Itoa(port) + tail)
  }

  lemma SchemesGone(scheme: string, rest: string)
    requires (scheme == "http://" || scheme == "https://") && !HasPrefix(rest, "https://")
    ensures TrimPrefix(TrimPrefix(scheme + rest, "http://"), "https://") == rest
  {
    var pass := scheme + rest;
    assert pass[..|scheme|] == scheme && pass[|scheme|..] == rest;
    if scheme == "https://" { assert pass[..7][4] != "http://"[4]; }
  }

  lemma PassRead(scheme: string, host: string, port: nat, tail: string)
    requires PlainPass(scheme, host, port, tail)
    ensures PassName(PassText(scheme, host, port, tail)) == host + ":" + Itoa(port)
  {
    var name := host + ":" + Itoa(port);
    assert '/' !in Itoa(port) && '/' !in name;
    assert name[|name| - 1] == Itoa(port)[|Itoa(port)| - 1] && name[|host|] == ':';
    NoHead(name, tail);
    SchemesGone(scheme, name + tail);
    UpToSlash(name, tail);
  }

  lemma TakeLeft(x: string, y: string)
    ensures (x + y)[..|x|] == x
  {}

  lemma UpToSlash(name: string, tail: string)
    requires '/' !in name && (tail == "" || tail[0] == '/')
    ensures var i := Index(name + tail, '/'); (if i >= 0 then (name + tail)[..i] else name + tail) == name
  {
    if tail != "" {
      IndexAt(name, '/', tail[1..]);
      HeadTail(tail);
      Joined(name, ['/'], tail[1..]);
      TakeLeft(name, tail);
    } else {
      assert name + tail == name;
    }
  }

  /** A host and what follows do not look like a scheme. */
  lemma NoHead(name: string, tail: string)
    requires '/' !in name && ':' in name && (tail == "" || tail[0] == '/') && IsDigit(name[|name| - 1])
    ensures !HasPrefix(name + tail, "https://")
  {
    var rest := name + tail;
    if |rest| >= 8 {
      if |name| > 6 {
        assert rest[..8][6] == name[6] && "https://"[6] == '/';
      } else {
        assert rest[..8][|name| - 1] == name[|name| - 1];
      }
    }
  }

  lemma PassResolves(scheme: string, host: string, port: nat, tail: string)
    requires PlainPass(scheme, host, port, tail)
    ensures Resolve(PassText(scheme, host, port, tail), map[]) == [Target(host, port, 0, false)]
  {
    PassRead(scheme, host, port, tail);
    var t := Target(host, port, 0, false);
    assert HostPort(t) == host + ":" + Itoa(port);
    HostPortReadsBack(t);
  }

  function ProxyRest(place: Place, pass: string): seq<NLine> {
    [Open(["location"] + Words(place))] + [D(["proxy_pass", pass])] + [CLOSE]
  }

  lemma ProxyRun(p: Parser, place: Place, pass: string)
    requires InServer(p) && !p.inStream && PlainPlace(place)
    ensures Run(p, ProxyRest(place, pass)) == WithLocation(p, PlaceRead(place).(proxyPass := pass))
  {
    PlaceIsRead(place);
    S.PassIsInner(pass);
    LocationRun(p, Words(place), [D(["proxy_pass", pass])]);
  }

  /** A reverse proxy as people write it becomes one disabled mapping with its port, its
      names, its one target and, for a prefix or a modified location, that path; unless a
      name says "portguard". */
  lemma SiteImports(a: Addr, options: seq<string>, names: seq<string>, place: Place, scheme: string, host: string, port: nat, tail: string, taken: set<string>)
    requires PlainAddr(a) && PlainNames(names) && PlainPlace(place) && PlainPass(scheme, host, port, tail)
    ensures var c := ToMappings(Run(START, Block(a, options, names, ProxyRest(place, PassText(scheme, host, port, tail)))).sites, taken);
      && c.issues == []
      && (SaysPortGuard(names) ==> c.out == [])
      && (!SaysPortGuard(names) ==>
            c.out == [Candidate(UniqueName("imported-nginx-" + Itoa(AddrPort(a)), taken), false, Nginx, if "ssl" in options then Https else Http,
                                "0.0.0.0", AddrPort(a), NamesRead(names), "", [Target(host, port, 0, false)], "", PrefixOf(place))])
  {
    var pass := PassText(scheme, host, port, tail);
    var head := Headed(a, options, names);
    var l := PlaceRead(place).(proxyPass := pass);
    ProxyRun(WithServer(START, head), place, pass);
    assert [] + [l] == [l];
    var s := head.(locations := [l]);
    BlockRun(a, options, names, ProxyRest(place, pass), s);
    OneHttp(s, taken);
    PassResolves(scheme, host, port, tail);
    ProxyTaken(s, l, place, [Target(host, port, 0, false)], taken);
  }

  lemma ProxyTaken(s: Server, l: Location, place: Place, targets: seq<Target>, taken: set<string>)
    requires PlainPlace(place) && l == PlaceRead(place).(proxyPass := l.proxyPass) && l.proxyPass != ""
    requires s.locations == [l] && Resolve(l.proxyPass, map[]) == targets && targets != [] && s.redirect == "" && s.port >= 0
    ensures var c := TakeHttp(Converted([], [], taken), s, map[]);
      && c.issues == []
      && c.out == [Candidate(UniqueName("imported-nginx-" + Itoa(s.port), taken), false, Nginx, if s.ssl then Https else Http,
                             "0.0.0.0", s.port, s.names, "", targets, "", PrefixOf(place))]
  {
    OneProxy(s, l, targets);
    PrefixIsRead(place);
    assert forall x: Candidate :: [] + [x] == [x];
  }

  lemma PrefixIsRead(place: Place)
    requires PlainPlace(place)
    ensures var l := PlaceRead(place); (if l.path != "/" && !l.isRegex then l.path else "") == PrefixOf(place)
  {
    if place.Marked? { assert |place.mark + (" " + place.path)| >= 2; }
  }

  lemma OneProxy(s: Server, l: Location, targets: seq<Target>)
    requires s.locations == [l] && LeadsTo(l, map[]) == targets && targets != []
    ensures FirstProxy(s.locations, map[]) == Some((l, targets)) && !CatchAll(s) && !HttpUnclear(s, map[])
  {}

  /** A target needs a host and a port. */
  lemma NoHostNoPort(text: string)
    requires ':' !in text
    ensures ParseHostPort(text) == None && ParseHostPort(":" + text) == None && ParseHostPort(text + ":") == None
  {
    NoPort(text);
    PortlessIsNone(text);
    HostlessIsNone(text);
  }

  lemma PortlessIsNone(host: string)
    requires ':' !in host
    ensures ParseHostPort(host + ":") == None
  {
    var s := host + ":";
    LastIndexAt(host, ':', "");
    assert host + [':'] + "" == s && s[|s| - 1] == ':';
    NoSemicolon(s);
  }

  lemma ColonFirst(text: string)
    requires ':' !in text
    ensures LastIndex(":" + text, ':') == 0
  {
    LastIndexAt("", ':', text);
    assert "" + [':'] + text == ":" + text;
  }

  lemma HostlessIsNone(text: string)
    requires ':' !in text
    ensures ParseHostPort(":" + text) == None
  {
    if text != "" && HasSuffix(":" + text, ";") {
      var init := text[..|text| - 1];
      assert TrimSuffix(":" + text, ";") == ":" + init;
      ColonFirst(init);
    } else {
      ColonFirst(text);
      if text == "" { assert !HasSuffix(":", ";") by { assert ":"[0] != ";"[0]; } }
    }
  }

  /** An upstream block with its brace glued to the name is recorded under a name that ends
      in the brace, so what proxies to it leads nowhere. */
  lemma GluedUpstreamIsLost(name: string, addr: string)
    requires name != "" && ':' !in name && '/' !in name
    ensures var ups := Run(START, [NLine(["upstream", name + "{"], false)] + ([D(["server", addr])] + [CLOSE])).sites.upstreams;
      ups == map[name + "{" := [addr]] && Resolve("http://" + name, ups) == []
  {
    var opening, server := NLine(["upstream", name + "{"], false), D(["server", addr]);
    RunAppend(START, [opening], [server] + [CLOSE]);
    RunAppend(Run(START, [opening]), [server], [CLOSE]);
    Run1(START, opening);
    assert (name + "{")[|name|..] == "{";
    assert "upstream"[0] == 'u' && !HasPrefix("upstream", "#");
    var p := START.(upstream := name + "{");
    Run1(p, server);
    assert "server"[0] == 's' && !HasPrefix("server", "#");
    assert [] + [addr] == [addr];
    var q := WithUpstreams(p, map[name + "{" := [addr]]);
    Run1(q, CLOSE);
    CloseUpstream(q);
    SchemeGone(name);
    NoPort(name);
    assert |name + "{"| == |name| + 1;
  }

  // ---- redirects ----

  /** A server that redirects becomes a mapping that does, with nothing to report. */
  lemma RedirectImports(a: Addr, options: seq<string>, names: seq<string>, words: seq<string>, taken: set<string>)
    requires PlainAddr(a) && PlainNames(names) && !SaysPortGuard(names) && Join(words, " ") != ""
    requires "default_server" !in options || NamesRead(names) != []
    ensures var c := ToMappings(Run(START, Block(a, options, names, [D(["return", "301"] + words)])).sites, taken);
      && c.issues == []
      && c.out == [Candidate(UniqueName("imported-nginx-" + Itoa(AddrPort(a)), taken), false, Nginx, if "ssl" in options then Https else Http,
                             "0.0.0.0", AddrPort(a), NamesRead(names), Join(words, " "), [], "", "")]
  {
    var head := Headed(a, options, names);
    var line := D(["return", "301"] + words);
    ReturnIsPlain(line);
    assert line.fields[2..] == words && words != [];
    OneDirective(WithServer(START, head), line);
    var s := head.(redirect := Join(words, " "));
    BlockRun(a, options, names, [line], s);
    OneHttp(s, taken);
    assert FirstProxy(s.locations, map[]) == None;
    assert forall x: Candidate :: [] + [x] == [x];
  }

  lemma ReturnIsPlain(line: NLine)
    requires line.semi && line.fields != [] && line.fields[0] == "return"
    ensures Plain(line)
  {
    assert "return"[0] == 'r';
    assert !HasPrefix("return", "#");
  }

  // ---- servers that do nothing ----

  /** A server without a location is left out exactly when it is the default server and
      has no name; otherwise it becomes a mapping without targets. Either way it is
      reported. */
  lemma EmptyIsSkippedIff(a: Addr, options: seq<string>, names: seq<string>, taken: set<string>)
    requires PlainAddr(a) && PlainNames(names) && !SaysPortGuard(names)
    ensures var c := ToMappings(Run(START, Block(a, options, names, [])).sites, taken);
      var unnamed := "default_server" in options && NamesRead(names) == [];
      && (c.out == [] <==> unnamed) && (|c.out| == 1 <==> !unnamed)
      && c.issues == [if unnamed then Issue("http default server")
                      else Issue("http :" + Itoa(AddrPort(a)) + " (" + Join(NamesRead(names), ",") + ")")]
      && forall i :: 0 <= i < |c.out| ==> c.out[i].targets == [] && c.out[i].redirectTo == "" && !c.out[i].enabled
  {
    var s := Headed(a, options, names);
    BlockRun(a, options, names, [], s);
    OneHttp(s, taken);
    assert FirstProxy(s.locations, map[]) == None;
    assert forall x: Issue :: [] + [x] == [x];
    assert forall x: Candidate :: [] + [x] == [x];
  }

  // ---- streams ----

  function StreamBlock(a: Addr, options: seq<string>, pass: string): seq<NLine> {
    [Open(["stream"])]
    + ([Open(["server"])] + ([D(["listen", AddrText(a)] + options)] + [D(["proxy_pass", pass])]) + [CLOSE])
    + [CLOSE]
  }

  const IN_STREAM := START.(inStream := true)

  lemma StreamOpens()
    ensures Step(START, Open(["stream"])) == IN_STREAM
    ensures Step(IN_STREAM, CLOSE).sites == IN_STREAM.sites
  {
    var line := Open(["stream"]);
    assert line.fields == ["stream", "{"];
    assert "stream"[0] == 's' && "}"[0] == '}';
    assert !HasPrefix("stream", "#") && !HasPrefix("}", "#");
  }

  lemma StreamBody(a: Addr, options: seq<string>, pass: string)
    requires PlainAddr(a)
    ensures var p := IN_STREAM.(server := Some(NEW_SERVER), depth := 1);
      Run(p, [D(["listen", AddrText(a)] + options)] + [D(["proxy_pass", pass])])
      == WithServer(p, Listened(a, options).(locations := [Location("/", pass, false, false)]))
  {
    var p := IN_STREAM.(server := Some(NEW_SERVER), depth := 1);
    RunAppend(p, [D(["listen", AddrText(a)] + options)], [D(["proxy_pass", pass])]);
    S.ListenStep(p, AddrText(a), options);
    ListenDirective(NEW_SERVER, a, options, true);
    var line := D(["proxy_pass", pass]);
    assert "proxy_pass"[0] == 'p';
    assert !HasPrefix("proxy_pass", "#");
    assert Plain(line);
    OneDirective(WithServer(p, Listened(a, options)), line);
    assert [] + [Location("/", pass, false, false)] == [Location("/", pass, false, false)];
  }

  lemma StreamRun(a: Addr, options: seq<string>, pass: string)
    requires PlainAddr(a)
    ensures Run(START, StreamBlock(a, options, pass)).sites
      == Sites([], [Listened(a, options).(locations := [Location("/", pass, false, false)])], map[])
  {
    var body := [D(["listen", AddrText(a)] + options)] + [D(["proxy_pass", pass])];
    RunAppend(START, [Open(["stream"])] + ([Open(["server"])] + body + [CLOSE]), [CLOSE]);
    RunAppend(START, [Open(["stream"])], [Open(["server"])] + body + [CLOSE]);
    Run1(START, Open(["stream"]));
    StreamOpens();
    StreamServerRun(a, options, pass, body);
    var s := Listened(a, options).(locations := [Location("/", pass, false, false)]);
    var q := IN_STREAM.(sites := Sites([], [s], map[]));
    Run1(q, CLOSE);
    assert Step(q, CLOSE) == q.(inStream := false) by { assert "}"[0] == '}'; assert !HasPrefix("}", "#"); }
  }

  lemma StreamServerRun(a: Addr, options: seq<string>, pass: string, body: seq<NLine>)
    requires PlainAddr(a) && body == [D(["listen", AddrText(a)] + options)] + [D(["proxy_pass", pass])]
    ensures Run(IN_STREAM, [Open(["server"])] + body + [CLOSE])
      == IN_STREAM.(sites := Sites([], [Listened(a, options).(locations := [Location("/", pass, false, false)])], map[]))
  {
    RunAppend(IN_STREAM, [Open(["server"])] + body, [CLOSE]);
    RunAppend(IN_STREAM, [Open(["server"])], body);
    Run1(IN_STREAM, Open(["server"]));
    S.OpenServer(IN_STREAM);
    StreamBody(a, options, pass);
    StreamCloses(Listened(a, options).(locations := [Location("/", pass, false, false)]));
  }

  lemma StreamCloses(s: Server)
    requires s.names == [] && s.port > 0
    ensures Run(WithServer(IN_STREAM.(depth := 1), s), [CLOSE]) == IN_STREAM.(sites := Sites([], [s], map[]))
  {
    var q := WithServer(IN_STREAM.(depth := 1), s);
    Run1(q, CLOSE);
    S.CloseServerStep(q);
    assert [] + [s] == [s];
  }

  /** A stream server becomes one disabled tcp mapping with its port and its target. */
  lemma StreamImports(a: Addr, options: seq<string>, host: string, port: nat, taken: set<string>)
    requires PlainAddr(a) && PlainHost(host) && port <= MAX_INT64
    ensures var c := ToMappings(Run(START, StreamBlock(a, options, host + ":" + Itoa(port))).sites, taken);
      && c.issues == []
      && c.out == [Candidate(UniqueName("imported-stream-" + Itoa(AddrPort(a)), taken), false, Nginx, Tcp,
                             "0.0.0.0", AddrPort(a), [], "", [Target(host, port, 0, false)], "", "")]
  {
    var pass := host + ":" + Itoa(port);
    StreamRun(a, options, pass);
    var s := Listened(a, options).(locations := [Location("/", pass, false, false)]);
    OneStream(s, taken);
    StreamResolves(host, port);
    StreamTaken(s, pass, [Target(host, port, 0, false)], taken);
  }

  lemma StreamResolves(host: string, port: nat)
    requires PlainHost(host) && port <= MAX_INT64
    ensures Resolve(host + ":" + Itoa(port), map[]) == [Target(host, port, 0, false)]
  {
    assert '/' !in Itoa(port);
    PlainPassName(host + ":" + Itoa(port));
    var t := Target(host, port, 0, false);
    assert HostPort(t) == host + ":" + Itoa(port);
    HostPortReadsBack(t);
  }

  lemma StreamTaken(s: Server, pass: string, targets: seq<Target>, taken: set<string>)
    requires s.locations == [Location("/", pass, false, false)] && s.port >= 0 && Resolve(pass, map[]) == targets && targets != []
    ensures var c := TakeStream(Converted([], [], taken), s, map[]);
      && c.issues == []
      && c.out == [Candidate(UniqueName("imported-stream-" + Itoa(s.port), taken), false, Nginx, Tcp, "0.0.0.0", s.port, [], "", targets, "", "")]
  {
    assert forall x: Candidate :: [] + [x] == [x];
  }

  lemma OneStream(s: Server, taken: set<string>)
    ensures ToMappings(Sites([], [s], map[]), taken) == TakeStream(Converted([], [], taken), s, map[])
  {
    var next := TakeStream(Converted([], [], taken), s, map[]);
    assert [s][1..] == [] && TakeAllStream(next, [], map[]) == next;
  }
}
