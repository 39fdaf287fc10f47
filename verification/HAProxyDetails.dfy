/** Details of a printed haproxy.cfg that an import does not read back: TLS, headers,
    timeouts, and the port a path route leads to. */
module HAProxyDetails {
  import opened Text
  import opened Model
  import opened HAProxyRender
  import opened HAProxyReading
  import opened HAProxyRoutes
  import B = HAProxyBackends
  import P = Paths

  // ---- listening ----

  /** An https frontend binds with the mapping's certificate, and offers HTTP/2 as asked;
      a tcp frontend says so; an http frontend only binds. */
  lemma HeadSays(m: Mapping, p: P.Paths)
    requires m.protocol == Https ==> m.sslCert.Some?
    ensures FrontendHead(m, p)[0] == ["frontend", "fe_pg" + Itoa(m.id)]
    ensures m.protocol == Tcp ==> FrontendHead(m, p)[1..] == [["mode", "tcp"], ["option", "tcplog"], ["bind", BindToken(m)]]
    ensures m.protocol == Https && !m.http2 ==> FrontendHead(m, p)[1..] == [["bind", BindToken(m), "ssl", "crt", PemPath(m, p)]]
    ensures m.protocol == Https && m.http2 ==>
      FrontendHead(m, p)[1..] == [["bind", BindToken(m), "ssl", "crt", PemPath(m, p), "alpn", "h2,http/1.1"]]
    ensures m.protocol == Http ==> FrontendHead(m, p)[1..] == [["bind", BindToken(m)]]
  {
    if m.protocol == Https {
      var short := ["bind", BindToken(m), "ssl", "crt", PemPath(m, p)];
      assert short + [] == short;
      assert short + ["alpn", "h2,http/1.1"] == ["bind", BindToken(m), "ssl", "crt", PemPath(m, p), "alpn", "h2,http/1.1"];
    }
  }

  /** A mapping is printed exactly when it is enabled and HAProxy's. */
  lemma PrintedIff(m: Mapping, p: P.Paths)
    requires m.protocol != Udp && (m.protocol == Https ==> m.sslCert.Some?)
    ensures MainLines([m], p) != [] <==> m.enabled && m.engine == HAProxy
  {
    assert [m][1..] == [];
  }

  lemma TrimPlain(s: string)
    requires s != "" && s[0] != '/' && s[|s| - 1] != '/'
    ensures P.TrimRightSlash(P.TrimLeftSlash(s)) == s
  {}

  /** The certificate file is the mapping's, in the configured directory. */
  lemma PemSays(m: Mapping, p: P.Paths, dir: string)
    requires m.sslCert.Some? && dir != "" && dir[0] != '/' && dir[|dir| - 1] != '/' && p.certsDir == "/" + dir
    ensures PemPath(m, p) == "/" + dir + "/" + Itoa(m.sslCert.value) + ".pem"
  {
    var file := Itoa(m.sslCert.value) + ".pem";
    assert IsDigit(file[0]) && file[|file| - 1] == 'm';
    TrimPlain(file);
    assert P.TrimLeftSlash("/" + dir) == P.TrimLeftSlash(dir) by { assert ("/" + dir)[1..] == dir; }
    TrimPlain(dir);
    assert "/" + dir + "/" + file == "/" + dir + "/" + Itoa(m.sslCert.value) + ".pem";
  }

  // ---- backends ----

  ghost predicate Says(lines: seq<Line>, words: Line) {
    exists i :: 0 <= i < |lines| && lines[i] == words
  }

  lemma SaysParts(x: seq<Line>, y: seq<Line>, words: Line)
    ensures Says(x + y, words) <==> Says(x, words) || Says(y, words)
  {
    var all := x + y;
    assert forall i :: 0 <= i < |x| ==> all[i] == x[i];
    assert forall i :: 0 <= i < |y| ==> all[|x| + i] == y[i];
  }

  lemma {:induction false} ServersSayNo(targets: seq<Target>, i: nat, words: Line)
    requires words != [] && words[0] != "server"
    ensures !Says(ServerLines(targets, i), words)
  {
    if targets != [] {
      ServersSayNo(targets[1..], i + 1, words);
      assert ServerLine(i, targets[0])[0] == "server";
      SaysParts([ServerLine(i, targets[0])], ServerLines(targets[1..], i + 1), words);
    }
  }

  /** A backend keeps tunnels open exactly for websockets, and sets a host header exactly
      over http when the mapping has one. */
  lemma BackendSays(be: string, m: Mapping, targets: seq<Target>, tcpMode: bool)
    ensures Says(BackendLines(be, m, targets, tcpMode), ["timeout", "tunnel", "3600s"]) <==> m.webSocket
    ensures m.hostHeader != "" ==>
      (Says(BackendLines(be, m, targets, tcpMode), ["http-request", "set-header", "Host", m.hostHeader]) <==> !tcpMode)
    ensures Says(BackendLines(be, m, targets, tcpMode), ["mode", "tcp"]) <==> tcpMode
  {
    SettingsSay(m, targets, tcpMode, ["timeout", "tunnel", "3600s"]);
    SettingsSay(m, targets, tcpMode, ["http-request", "set-header", "Host", m.hostHeader]);
    SettingsSay(m, targets, tcpMode, ["mode", "tcp"]);
    B.BackendShape(be, m, targets, tcpMode);
    SaysParts([["backend", be]], B.Settings(m, targets, tcpMode), ["timeout", "tunnel", "3600s"]);
    SaysParts([["backend", be]], B.Settings(m, targets, tcpMode), ["http-request", "set-header", "Host", m.hostHeader]);
    SaysParts([["backend", be]], B.Settings(m, targets, tcpMode), ["mode", "tcp"]);
    assert "backend"[0] == 'b' && "timeout"[0] == 't' && "http-request"[0] == 'h' && "mode"[0] == 'm';
  }

  predicate Asked(m: Mapping, tcpMode: bool, words: Line) {
    || (tcpMode && words == ["mode", "tcp"])
    || (!tcpMode && m.hostHeader != "" && words == ["http-request", "set-header", "Host", m.hostHeader])
    || (m.webSocket && words == TUNNEL)
  }

  lemma SettingsSay(m: Mapping, targets: seq<Target>, tcpMode: bool, words: Line)
    requires words != [] && words[0] != "server" && words[0] != "balance"
    ensures Says(B.Settings(m, targets, tcpMode), words) <==> Asked(m, tcpMode, words)
  {
    var mode: seq<Line> := if tcpMode then [["mode", "tcp"]] else [];
    var balance: seq<Line> := [["balance", if m.balance == "" then "roundrobin" else m.balance]];
    var host: seq<Line> := if !tcpMode && m.hostHeader != "" then [["http-request", "set-header", "Host", m.hostHeader]] else [];
    var servers := ServerLines(targets, 0);
    var tunnel: seq<Line> := if m.webSocket then [TUNNEL] else [];
    ServersSayNo(targets, 0, words);
    SaysParts(mode, balance, words);
    SaysParts(mode + balance, host, words);
    SaysParts(mode + balance + host, servers, words);
    SaysParts(mode + balance + host + servers, tunnel, words);
    SaysParts(mode + balance + host + servers + tunnel, [[]], words);
  }

  // ---- the port of a path route ----

  const CONVERTER := "path,regsub(^"

  /** The literal of `path,regsub(^literal([0-9]+)(/.*)?$,\1)`. */
  function ConverterLiteral(word: string): string {
    if HasPrefix(word, CONVERTER) && Index(word[|CONVERTER|..], '(') >= 0
    then word[|CONVERTER|..][..Index(word[|CONVERTER|..], '(')] else ""
  }

  /** What the substitution leaves of a path below the literal: its digits. */
  function PortIn(path: string, literal: string): string {
    if HasPrefix(path, literal) then path[|literal|..][..DigitsAt(path[|literal|..])] else path
  }

  function DigitsAt(s: string): (n: nat)
    ensures n <= |s|
  {
    if s == [] || !IsDigit(s[0]) then 0 else 1 + DigitsAt(s[1..])
  }

  lemma {:induction false} DigitsEnd(d: string, rest: string)
    requires AllDigits(d) && (rest == "" || !IsDigit(rest[0]))
    ensures DigitsAt(d + rest) == |d|
  {
    if d == "" {
      assert d + rest == rest;
    } else {
      assert (d + rest)[0] == d[0] && (d + rest)[1..] == d[1..] + rest;
      DigitsEnd(d[1..], rest);
    }
  }

  lemma PortOfPath(path: string, head: string, d: string)
    requires AllDigits(d) && AtOrBelow(path, head + d)
    ensures PortIn(path, head) == d
  {
    var rest := path[|head + d|..];
    assert path == head + d + rest;
    assert path[..|head|] == head && path[|head|..] == d + rest;
    if rest != "" { assert rest[0] == path[|head + d|] == '/'; }
    DigitsEnd(d, rest);
  }

  function SetVar(pr: PathRoute): Line {
    ["http-request", "set-var(txn.pgport)", "path,regsub(^/" + pr.prefix + "/([0-9]+)(/.*)?$,\\1)", "if", "{", "path_reg", PathPattern(pr), "}"]
  }

  lemma {:induction false} DynPortsAt(prs: seq<PathRoute>, i: nat)
    requires i < |prs|
    ensures |DynPorts(prs)| == |prs| && DynPorts(prs)[i] == SetVar(prs[i])
  {
    if i > 0 { DynPortsAt(prs[1..], i - 1); } else if |prs| > 1 { DynPortsAt(prs[1..], 0); }
  }

  lemma LiteralOfSetVar(pr: PathRoute)
    requires '(' !in pr.prefix
    ensures ConverterLiteral(SetVar(pr)[2]) == RouteHead(pr)
  {
    var word, tail := SetVar(pr)[2], "[0-9]+)(/.*)?$,\\1)";
    assert word == CONVERTER + (RouteHead(pr) + ['('] + tail);
    assert word[..|CONVERTER|] == CONVERTER && word[|CONVERTER|..] == RouteHead(pr) + ['('] + tail;
    IndexAt(RouteHead(pr), '(', tail);
    assert (RouteHead(pr) + ['('] + tail)[..|RouteHead(pr)|] == RouteHead(pr);
  }

  lemma HeadsDiffer(x: PathRoute, y: PathRoute, path: string)
    requires '/' !in x.prefix && '/' !in y.prefix && HasPrefix(path, RouteHead(x)) && HasPrefix(path, RouteHead(y))
    ensures x.prefix == y.prefix
  {
    var rest := path[1..];
    assert path[..|RouteHead(x)|] == RouteHead(x) && path[..|RouteHead(y)|] == RouteHead(y);
    assert rest == x.prefix + ['/'] + path[|RouteHead(x)|..];
    assert rest == y.prefix + ['/'] + path[|RouteHead(y)|..];
    IndexAt(x.prefix, '/', path[|RouteHead(x)|..]);
    IndexAt(y.prefix, '/', path[|RouteHead(y)|..]);
    assert rest[..|x.prefix|] == x.prefix && rest[..|y.prefix|] == y.prefix;
  }

  /** The line that sets the port for one path route. */
  predicate SetsPort(line: Line) {
    |line| == 8 && line[0] == "http-request" && line[1] == "set-var(txn.pgport)" && line[3..6] == ["if", "{", "path_reg"] && line[7] == "}"
  }

  /** In the dynamic backend, a path that the `i`th path route takes with port `d` meets the
      condition of that route's own line and of no other, and the line extracts `d`. */
  lemma DynPortIsPaths(m: Mapping, i: nat, j: nat, d: string, path: string)
    requires i < |m.pathRoutes| && j < |m.pathRoutes| && ValidPathRoutes(m.pathRoutes)
    requires forall j, k :: 0 <= j < k < |m.pathRoutes| ==> m.pathRoutes[j].prefix != m.pathRoutes[k].prefix
    requires PortOf(m.pathRoutes[i], d) && AtOrBelow(path, RouteHead(m.pathRoutes[i]) + d)
    ensures |DynPorts(m.pathRoutes)| == |m.pathRoutes| && SetsPort(DynPorts(m.pathRoutes)[j])
    ensures PatternTakes(DynPorts(m.pathRoutes)[j][6], path) <==> j == i
    ensures j == i ==> PortIn(path, ConverterLiteral(DynPorts(m.pathRoutes)[j][2])) == d
  {
    DynPortsAt(m.pathRoutes, j);
    OneTakes(m.pathRoutes, i, j, d, path);
    SetVarSays(m.pathRoutes[j]);
    if j == i {
      PlainPrefix(m.pathRoutes, i);
      LiteralOfSetVar(m.pathRoutes[i]);
      DigitsOfPort(m.pathRoutes[i], d);
      PortOfPath(path, RouteHead(m.pathRoutes[i]), d);
    }
  }

  lemma SetVarSays(pr: PathRoute)
    ensures SetsPort(SetVar(pr)) && SetVar(pr)[6] == PathPattern(pr)
  {}

  predicate PrefixPlain(prs: seq<PathRoute>, j: nat)
    requires j < |prs|
  {
    '(' !in prs[j].prefix && '/' !in prs[j].prefix
  }

  lemma PlainPrefix(prs: seq<PathRoute>, j: nat)
    requires j < |prs| && ValidPathRoutes(prs)
    ensures PrefixPlain(prs, j)
  {
    var pr := prs[j];
    forall c | c in pr.prefix ensures c != '(' && c != '/' {
      var i :| 0 <= i < |pr.prefix| && pr.prefix[i] == c;
      assert PrefixChar(pr.prefix[i]);
    }
  }

  lemma DigitsOfPort(pr: PathRoute, d: string)
    requires PortOf(pr, d)
    ensures AllDigits(d)
  {
    if !AnyPort(pr) { PortsPlain(pr.minPort, pr.maxPort); }
  }

  lemma OneTakes(prs: seq<PathRoute>, i: nat, j: nat, d: string, path: string)
    requires i < |prs| && j < |prs| && ValidPathRoutes(prs)
    requires forall j, k :: 0 <= j < k < |prs| ==> prs[j].prefix != prs[k].prefix
    requires PortOf(prs[i], d) && AtOrBelow(path, RouteHead(prs[i]) + d)
    ensures PatternTakes(PathPattern(prs[j]), path) <==> j == i
  {
    OneValid(prs, prs[j]);
    PatternIsRoute(prs[j], path);
    if RouteTakes(prs[j], path) {
      var e :| PortOf(prs[j], e) && AtOrBelow(path, RouteHead(prs[j]) + e);
      PlainPrefix(prs, i);
      PlainPrefix(prs, j);
      HeadOf(path, RouteHead(prs[i]), d);
      HeadOf(path, RouteHead(prs[j]), e);
      HeadsDiffer(prs[i], prs[j], path);
    }
  }

  lemma HeadOf(path: string, head: string, d: string)
    requires AtOrBelow(path, head + d)
    ensures HasPrefix(path, head)
  {
    assert path[..|head|] == path[..|head + d|][..|head|] == (head + d)[..|head|];
  }

  /** It then goes to that port of the mapping's first target, or of this host. */
  lemma DynServerSays(m: Mapping)
    ensures var host := if m.targets != [] && m.targets[0].host != "" then m.targets[0].host else "127.0.0.1";
      && Says(DynBackend(m), ["http-request", "set-dst-port", "var(txn.pgport)"]) && Says(DynBackend(m), ["server", "dynamic", host + ":1"])
  {
    var n := |DynPorts(m.pathRoutes)|;
    assert DynBackend(m)[3 + n] == ["http-request", "set-dst-port", "var(txn.pgport)"];
    assert DynBackend(m)[4 + n] == ["server", "dynamic", DynHost(m) + ":1"];
  }
}
