/** Details of a printed nginx configuration that an import does not read back: weights and
    balancing, TLS, headers, where path routes lead, and the files the main one includes. */
module NginxDetails {
  import opened Text
  import opened Model
  import opened NginxRender
  import opened NginxBlocks
  import P = Paths
  import R = Routes
  import HR = HAProxyRender

  /** The directive is there, with exactly these words. */
  predicate Says(lines: seq<NLine>, words: seq<string>) {
    exists i :: 0 <= i < |lines| && lines[i] == NLine(words, true)
  }

  // ---- servers of a group ----

  const WEIGHT := "weight="

  /** The weight a server line gives; nginx takes 1 without one. */
  function WeightOf(fields: seq<string>): int {
    if fields == [] then 1
    else if HasPrefix(fields[0], WEIGHT) then AtoiLossy(fields[0][|WEIGHT|..])
    else WeightOf(fields[1..])
  }

  predicate BackupOf(fields: seq<string>) {
    "backup" in fields
  }

  /** A weight of less than one counts as one. */
  function MeantWeight(t: Target): int {
    if t.weight > 0 then t.weight else 1
  }

  lemma WeightRead(t: Target, rest: seq<string>)
    requires t.weight <= MAX_INT64 && WeightOf(rest) == 1
    ensures WeightOf(WeightToken(t) + rest) == MeantWeight(t)
  {
    if t.weight > 0 && t.weight != 1 {
      var token := "weight=" + Dec(t.weight);
      assert WeightToken(t) + rest == [token] + rest && token[..|WEIGHT|] == WEIGHT && token[|WEIGHT|..] == Dec(t.weight);
      AtoiDec(t.weight);
    } else {
      assert WeightToken(t) + rest == rest;
    }
  }

  /** A printed server of a group has the target's address, weight and, over http, its
      backup mark. */
  lemma ServerSays(t: Target, withBackup: bool)
    requires t.weight <= MAX_INT64
    ensures var line := UpstreamServer(t, withBackup);
      && line.semi && |line.fields| >= 2 && line.fields[0] == "server" && line.fields[1] == t.host + ":" + Dec(t.port)
      && WeightOf(line.fields[2..]) == MeantWeight(t) && (BackupOf(line.fields[2..]) <==> withBackup && t.backup)
  {
    var mark: seq<string> := if withBackup && t.backup then ["backup"] else [];
    var line := UpstreamServer(t, withBackup);
    assert line.fields[2..] == WeightToken(t) + mark;
    BackupIsNoWeight();
    WeightRead(t, mark);
    WeightIsNoBackup(t);
  }

  lemma WeightIsNoBackup(t: Target)
    ensures "backup" !in WeightToken(t)
  {
    if t.weight > 0 && t.weight != 1 {
      var token := "weight=" + Dec(t.weight);
      assert token[0] == 'w' && "backup"[0] == 'b';
      assert WeightToken(t) == [token];
    }
  }

  lemma BackupIsNoWeight()
    ensures WeightOf(["backup"]) == 1 && WeightOf([]) == 1
  {
    assert ["backup"][1..] == [];
    assert |WEIGHT| == 7 && |"backup"| == 6;
  }

  lemma {:induction false} ServersAt(targets: seq<Target>, withBackup: bool)
    ensures |UpstreamServers(targets, withBackup)| == |targets|
    ensures forall i :: 0 <= i < |targets| ==> UpstreamServers(targets, withBackup)[i] == UpstreamServer(targets[i], withBackup)
  {
    if targets != [] { ServersAt(targets[1..], withBackup); }
  }

  // ---- balancing ----

  /** How an http group balances: as chosen, nothing for round robin, and without a choice
      by client for websockets and by load otherwise. */
  lemma HttpBalanceSays(m: Mapping)
    ensures m.balance == "round_robin" ==> HttpBalance(m) == []
    ensures m.balance in {"least_conn", "ip_hash", "random"} ==> HttpBalance(m) == [NLine([m.balance], true)]
    ensures m.balance == "" ==> HttpBalance(m) == [NLine([if m.webSocket then "ip_hash" else "least_conn"], true)]
  {
    assert |"least_conn"| == 10 && |"ip_hash"| == 7 && |"random"| == 6 && |"round_robin"| == 11;
  }

  lemma StreamBalanceSays(m: Mapping)
    ensures m.balance in {"least_conn", "random"} ==> StreamBalance(m) == [NLine([m.balance], true)]
    ensures m.balance !in {"least_conn", "random"} ==> StreamBalance(m) == []
  {
    assert |"least_conn"| == 10 && |"random"| == 6;
  }

  // ---- listening ----

  /** The addresses the listen lines name. */
  function ListenAddrs(lines: seq<NLine>): seq<string> {
    if lines == [] then []
    else if |lines[0].fields| >= 2 && lines[0].fields[0] == "listen" then [lines[0].fields[1]] + ListenAddrs(lines[1..])
    else ListenAddrs(lines[1..])
  }

  lemma ListenLinesAre(m: Mapping)
    ensures ListenAddrs(ListenLines(m)) ==
      if m.listenIP == "" || m.listenIP == "0.0.0.0" || m.listenIP == "::"
      then [ListenAddr(m.listenIP, m.listenPort), "[::]:" + Dec(m.listenPort)] else [ListenAddr(m.listenIP, m.listenPort)]
  {
    var x := D(["listen", ListenAddr(m.listenIP, m.listenPort)] + TlsTokens(m));
    var y := D(["listen", WildcardAddr(m.listenPort)] + TlsTokens(m));
    assert x.fields[0] == "listen" && y.fields[0] == "listen";
    assert x.fields[1] == ListenAddr(m.listenIP, m.listenPort) && y.fields[1] == "[::]:" + Dec(m.listenPort);
    assert [x, y][1..] == [y] && [x][1..] == [] && [y][1..] == [];
    assert ListenAddrs([y]) == [y.fields[1]] && ListenAddrs([x]) == [x.fields[1]];
    assert ListenAddrs([x, y]) == [x.fields[1]] + ListenAddrs([y]);
    assert ListenLines(m) == if Wildcard(m.listenIP) then [x, y] else [x];
  }

  ghost predicate NoneTwice(names: seq<string>) {
    forall i, j :: 0 <= i < j < |names| ==> names[i] != names[j]
  }

  /** A printed server names an address twice, which nginx refuses, exactly when it listens
      on the IPv6 wildcard or on no address. */
  lemma ListensTwiceIff(m: Mapping)
    ensures NoneTwice(ListenAddrs(ListenLines(m))) <==> m.listenIP != "" && m.listenIP != "::"
  {
    ListenLinesAre(m);
    var addrs := ListenAddrs(ListenLines(m));
    if m.listenIP == "" || m.listenIP == "::" {
      assert addrs[0] == addrs[1];
    } else if m.listenIP == "0.0.0.0" {
      assert addrs[0][0] == '0' && addrs[1][0] == '[';
    }
  }

  /** The options of every listen line: TLS for https, and HTTP/2 only with it. */
  lemma ListenOptions(m: Mapping, i: nat)
    requires i < |ListenLines(m)|
    ensures var fields := ListenLines(m)[i].fields;
      && |fields| >= 2 && fields[0] == "listen"
      && ("ssl" in fields[2..] <==> m.protocol == Https) && ("http2" in fields[2..] <==> m.protocol == Https && m.http2)
  {
    var fields := ListenLines(m)[i].fields;
    assert fields[2..] == TlsTokens(m);
    assert "ssl" != "http2";
  }

  /** A stream server listens for udp exactly for udp mappings. */
  lemma StreamListens(m: Mapping)
    ensures var fields := StreamListenLine(m).fields;
      fields[..2] == ["listen", ListenAddr(m.listenIP, m.listenPort)] && ("udp" in fields[2..] <==> m.protocol == Udp)
  {
    var fields := StreamListenLine(m).fields;
    assert fields[2..] == if m.protocol == Udp then ["udp"] else [];
  }

  // ---- certificates ----

  /** The certificate and the key are those of the mapping's certificate. */
  lemma CertificateSays(m: Mapping, p: P.Paths)
    requires m.protocol == Https && m.sslCert.Some?
    ensures Says(CertLines(m, p), ["ssl_certificate", p.certsDir + "/" + Itoa(m.sslCert.value) + ".crt"])
    ensures Says(CertLines(m, p), ["ssl_certificate_key", p.certsDir + "/" + Itoa(m.sslCert.value) + ".key"])
  {
    assert CertLines(m, p)[0] == NLine(["ssl_certificate", p.certsDir + "/" + Itoa(m.sslCert.value) + ".crt"], true);
    assert CertLines(m, p)[1] == NLine(["ssl_certificate_key", p.certsDir + "/" + Itoa(m.sslCert.value) + ".key"], true);
  }

  /** A mapping is printed, as an http or a stream server, exactly when it is enabled and
      nginx's. */
  lemma PrintedIff(m: Mapping, p: P.Paths)
    requires m.protocol == Https ==> m.sslCert.Some?
    ensures HttpServers([m], p) != [] <==> m.enabled && m.engine == Nginx && (m.protocol == Http || m.protocol == Https)
    ensures StreamServers([m]) != [] <==> m.enabled && m.engine == Nginx && (m.protocol == Tcp || m.protocol == Udp)
  {
    assert [m][1..] == [];
  }

  // ---- headers ----

  /** A proxied request says its host, client and scheme, and can be upgraded exactly when
      the mapping is for websockets. */
  lemma HeadersSay(m: Mapping)
    ensures Says(HeaderLines(m), ["proxy_set_header", "Host", if m.hostHeader == "" then "$host" else m.hostHeader])
    ensures Says(HeaderLines(m), ["proxy_set_header", "X-Real-IP", "$remote_addr"])
    ensures Says(HeaderLines(m), ["proxy_set_header", "X-Forwarded-For", "$proxy_add_x_forwarded_for"])
    ensures Says(HeaderLines(m), ["proxy_set_header", "X-Forwarded-Proto", "$scheme"])
    ensures Says(HeaderLines(m), ["proxy_set_header", "Upgrade", "$http_upgrade"]) <==> m.webSocket
    ensures m.webSocket ==> Says(HeaderLines(m), ["proxy_set_header", "Connection", "\"upgrade\""])
    ensures m.webSocket ==> Says(HeaderLines(m), ["proxy_http_version", "1.1"]) && Says(HeaderLines(m), ["proxy_read_timeout", "3600s"])
  {
    var lines := HeaderLines(m);
    assert lines[0] == NLine(["proxy_set_header", "Host", if m.hostHeader == "" then "$host" else m.hostHeader], true);
    assert lines[1] == NLine(["proxy_set_header", "X-Real-IP", "$remote_addr"], true);
    assert lines[2] == NLine(["proxy_set_header", "X-Forwarded-For", "$proxy_add_x_forwarded_for"], true);
    assert lines[3] == NLine(["proxy_set_header", "X-Forwarded-Proto", "$scheme"], true);
    if m.webSocket {
      assert lines[4] == NLine(["proxy_http_version", "1.1"], true);
      assert lines[5] == NLine(["proxy_set_header", "Upgrade", "$http_upgrade"], true);
      assert lines[6] == NLine(["proxy_set_header", "Connection", "\"upgrade\""], true);
      assert lines[7] == NLine(["proxy_read_timeout", "3600s"], true);
    } else {
      NoUpgrade(lines);
    }
  }

  lemma NoUpgrade(lines: seq<NLine>)
    requires forall i :: 0 <= i < |lines| ==> |lines[i].fields| == 3 && |lines[i].fields[1]| != |"Upgrade"|
    ensures !Says(lines, ["proxy_set_header", "Upgrade", "$http_upgrade"])
  {
    forall i | 0 <= i < |lines| ensures lines[i] != NLine(["proxy_set_header", "Upgrade", "$http_upgrade"], true) {
      assert lines[i].fields[1] != "Upgrade";
    }
  }

  lemma {:induction false} ExtraHeadersSay(headers: seq<(string, string)>, i: nat)
    requires i < |headers|
    ensures |ExtraHeaderLines(headers)| == |headers|
    ensures ExtraHeaderLines(headers)[i] == NLine(["add_header", headers[i].0, headers[i].1, "always"], true)
  {
    if i > 0 { ExtraHeadersSay(headers[1..], i - 1); } else if |headers| > 1 { ExtraHeadersSay(headers[1..], 0); }
  }

  // ---- path routes ----

  /** `if ($http_upgrade = "") { return 404; }`. */
  predicate TurnsAwayPlain(line: NLine) {
    line.fields == ["if", "($http_upgrade", "=", "\"\")", "{", "return", "404;", "}"]
  }

  /** A path route leads to the port of its path, on the mapping's first target or else on
      this host; websocket routes first turn away what asks for no upgrade and pass the
      upgrade on, the others are not buffered. */
  lemma PathRouteLeads(m: Mapping, pr: PathRoute)
    ensures var host := if m.targets != [] && m.targets[0].host != "" then m.targets[0].host else "127.0.0.1";
      Says(PathRouteLocation(m, pr), ["proxy_pass", "http://" + (host + ":" + "$pgport")])
    ensures (exists i :: 0 <= i < |PathRouteLocation(m, pr)| && TurnsAwayPlain(PathRouteLocation(m, pr)[i])) <==> pr.transport != XHttp
    ensures Says(PathRouteLocation(m, pr), ["proxy_set_header", "X-Real-IP", "$remote_addr"])
    ensures Says(PathRouteLocation(m, pr), ["proxy_set_header", "X-Forwarded-For", "$proxy_add_x_forwarded_for"])
    ensures pr.transport != XHttp ==>
      Says(PathRouteLocation(m, pr), ["proxy_set_header", "Upgrade", "$http_upgrade"]) && Says(PathRouteLocation(m, pr), ["proxy_set_header", "Connection", "\"upgrade\""])
    ensures pr.transport == XHttp ==> Says(PathRouteLocation(m, pr), ["proxy_buffering", "off"]) && Says(PathRouteLocation(m, pr), ["proxy_request_buffering", "off"])
  {
    var lines := PathRouteLocation(m, pr);
    var pass := D(["proxy_pass", PathRoutePass(m)]);
    if pr.transport == XHttp {
      assert lines[5] == NLine(["proxy_set_header", "X-Real-IP", "$remote_addr"], true);
      assert lines[6] == NLine(["proxy_set_header", "X-Forwarded-For", "$proxy_add_x_forwarded_for"], true);
      assert lines[2] == pass && lines[8] == NLine(["proxy_buffering", "off"], true) && lines[9] == NLine(["proxy_request_buffering", "off"], true);
      NoGuard(lines, pass, Open(["location", "~", RoutePattern(pr)]));
    } else {
      assert TurnsAwayPlain(lines[2]) && lines[3] == pass;
      assert lines[8] == NLine(["proxy_set_header", "X-Real-IP", "$remote_addr"], true);
      assert lines[9] == NLine(["proxy_set_header", "X-Forwarded-For", "$proxy_add_x_forwarded_for"], true);
      assert lines[5] == NLine(["proxy_set_header", "Upgrade", "$http_upgrade"], true);
      assert lines[6] == NLine(["proxy_set_header", "Connection", "\"upgrade\""], true);
    }
  }

  lemma NoGuard(lines: seq<NLine>, pass: NLine, opening: NLine)
    requires lines == [COMMENT, opening, pass] + XHTTP_LINES + [CLOSE, BLANK] && |opening.fields| == 4 && |pass.fields| == 2
    ensures forall i :: 0 <= i < |lines| ==> !TurnsAwayPlain(lines[i])
  {
    assert forall i :: 0 <= i < |XHTTP_LINES| ==> |XHTTP_LINES[i].fields| <= 3;
  }

  // ---- files ----

  lemma TrimPlain(s: string)
    requires s != "" && s[0] != '/' && s[|s| - 1] != '/'
    ensures P.TrimRightSlash(P.TrimLeftSlash(s)) == s
  {}

  lemma JoinsBelow(dir: string, name: string)
    requires dir != "" && name != "" && name[|name| - 1] != '/'
    ensures P.PosixJoin(dir, "portguard") + "/" + name == P.PosixJoin(dir, "portguard/" + name)
  {
    var rest := "portguard/" + name;
    assert rest[0] == 'p' && rest[|rest| - 1] == name[|name| - 1];
    TrimPlain(rest);
    TrimPlain("portguard");
    var head := "/" + P.TrimRightSlash(P.TrimLeftSlash(dir)) + "/";
    assert head + "portguard" + "/" + name == head + rest;
  }

  /** The printed main file includes exactly the two other files, where they are written. */
  lemma IncludesAreLive(p: P.Paths)
    ensures Says(Main(p), ["include", P.LivePath(Nginx, p, "portguard/http.conf")])
    ensures Says(Main(p), ["include", P.LivePath(Nginx, p, "portguard/stream.conf")])
  {
    var base := P.PosixJoin(P.PosixDir(p.nginxConf), "portguard");
    BesideMain(p, base);
    RelsAre(p);
    MainIncludes(p, base);
  }

  lemma BesideMain(p: P.Paths, base: string)
    requires base == P.PosixJoin(P.PosixDir(p.nginxConf), "portguard")
    ensures base + "/http.conf" == P.PosixJoin(P.PosixDir(p.nginxConf), "portguard/" + "http.conf")
    ensures base + "/stream.conf" == P.PosixJoin(P.PosixDir(p.nginxConf), "portguard/" + "stream.conf")
  {
    JoinsBelow(P.PosixDir(p.nginxConf), "http.conf");
    JoinsBelow(P.PosixDir(p.nginxConf), "stream.conf");
    assert base + "/" + "http.conf" == base + "/http.conf" && base + "/" + "stream.conf" == base + "/stream.conf";
  }

  lemma RelsAre(p: P.Paths)
    ensures P.LivePath(Nginx, p, "portguard/http.conf") == P.PosixJoin(P.PosixDir(p.nginxConf), "portguard/" + "http.conf")
    ensures P.LivePath(Nginx, p, "portguard/stream.conf") == P.PosixJoin(P.PosixDir(p.nginxConf), "portguard/" + "stream.conf")
  {
    P.RelsDiffer();
    assert "portguard/" + "http.conf" == "portguard/http.conf" && "portguard/" + "stream.conf" == "portguard/stream.conf";
  }

  lemma MainIncludes(p: P.Paths, base: string)
    requires base == P.PosixJoin(P.PosixDir(p.nginxConf), "portguard")
    ensures Says(Main(p), ["include", base + "/http.conf"]) && Says(Main(p), ["include", base + "/stream.conf"])
  {
    var n := |MAIN_BODY|;
    assert Main(p)[n] == NLine(["include", base + "/http.conf"], true);
    assert Main(p)[n + 4] == NLine(["include", base + "/stream.conf"], true);
  }

  /** The decoy page is written where the printed fallback looks for it. */
  lemma DecoyIsServed(m: Mapping, p: P.Paths)
    requires m.decoy == "builtin" || m.decoy == "custom"
    ensures var root := "/var/lib/portguard/decoy";
      && Says(Fallback(m), ["root", root]) && Says(Fallback(m), ["index", "index.html"])
      && P.LivePath(Nginx, p, "decoy/index.html") == root + "/" + "index.html"
  {
    P.RelsDiffer();
    assert Fallback(m)[1] == NLine(["root", "/var/lib/portguard/decoy"], true);
    assert Fallback(m)[2] == NLine(["index", "index.html"], true);
  }

  /** The decoy page is written exactly when the fallback of some printed mapping looks for
      it. */
  lemma DecoyIsNeeded(ms: seq<Mapping>)
    ensures FirstDecoy(ms) != None <==> exists i :: 0 <= i < |ms| && HttpRendered(ms[i]) && LooksForDecoy(ms[i])
  {
    DecoyFound(ms);
    forall i | 0 <= i < |ms| ensures WantsDecoy(ms[i]) <==> HttpRendered(ms[i]) && LooksForDecoy(ms[i]) { FallbackRoot(ms[i]); }
  }

  /** It is the built-in page or the mapping's own, as the first of them says. */
  lemma {:induction false} DecoyIsOfFirst(ms: seq<Mapping>, i: nat)
    requires i < |ms| && HttpRendered(ms[i]) && LooksForDecoy(ms[i])
    requires forall j :: 0 <= j < i ==> !(HttpRendered(ms[j]) && LooksForDecoy(ms[j]))
    ensures ms[i].decoy == "builtin" ==> FirstDecoy(ms) == Some(BuiltinPage)
    ensures ms[i].decoy == "custom" ==> FirstDecoy(ms) == Some(CustomPage(ms[i].decoyHtml))
  {
    FallbackRoot(ms[0]);
    if i > 0 {
      assert forall j :: 0 <= j < i - 1 ==> ms[1..][j] == ms[j + 1];
      DecoyIsOfFirst(ms[1..], i - 1);
    }
  }

  ghost predicate LooksForDecoy(m: Mapping) {
    Says(Fallback(m), ["root", "/var/lib/portguard/decoy"])
  }

  lemma {:induction false} DecoyFound(ms: seq<Mapping>)
    ensures FirstDecoy(ms) != None <==> exists i :: 0 <= i < |ms| && WantsDecoy(ms[i])
  {
    if ms != [] {
      DecoyFound(ms[1..]);
      if exists i :: 0 <= i < |ms[1..]| && WantsDecoy(ms[1..][i]) {
        var i :| 0 <= i < |ms[1..]| && WantsDecoy(ms[1..][i]);
        assert WantsDecoy(ms[i + 1]);
      }
      if exists i :: 0 <= i < |ms| && WantsDecoy(ms[i]) {
        var i :| 0 <= i < |ms| && WantsDecoy(ms[i]);
        if i > 0 { assert WantsDecoy(ms[1..][i - 1]); }
      }
    }
  }

  lemma FallbackRoot(m: Mapping)
    ensures LooksForDecoy(m) <==> m.decoy == "builtin" || m.decoy == "custom"
  {
    var wanted := NLine(["root", "/var/lib/portguard/decoy"], true);
    if m.decoy == "builtin" || m.decoy == "custom" {
      assert Fallback(m)[1] == wanted;
    } else {
      assert "root"[0] == 'r' && |"root"| == 4 && |"return"| == 6;
      assert forall i :: 0 <= i < |Fallback(m)| ==> Fallback(m)[i] != wanted;
    }
  }

  lemma LastSlash(dir: string, name: string)
    requires '/' !in name && dir != ""
    ensures P.PosixDir(dir + "/" + name) == dir
  {
    LastIndexAt(dir, '/', name);
    assert dir + ['/'] + name == dir + "/" + name;
    assert (dir + "/" + name)[..|dir|] == dir;
  }

  /** The files go beside the configured nginx.conf; HAProxy has its own. */
  lemma FilesGo(dir: string, name: string, p: P.Paths)
    requires dir != "" && dir[0] != '/' && dir[|dir| - 1] != '/' && '/' !in name && p.nginxConf == "/" + dir + "/" + name
    ensures P.LivePath(Nginx, p, "nginx.conf") == p.nginxConf && P.LivePath(HAProxy, p, "haproxy.cfg") == p.haproxyConf
    ensures P.StagedRel(HAProxy, p, p.haproxyConf) == Some("haproxy.cfg")
    ensures P.LivePath(Nginx, p, "portguard/http.conf") == "/" + dir + "/" + "portguard/http.conf"
    ensures P.LivePath(Nginx, p, "portguard/stream.conf") == "/" + dir + "/" + "portguard/stream.conf"
  {
    LastSlash("/" + dir, name);
    assert P.TrimLeftSlash("/" + dir) == dir by { assert ("/" + dir)[1..] == dir; }
    assert P.TrimRightSlash(dir) == dir;
    TrimPlain("portguard/http.conf");
    TrimPlain("portguard/stream.conf");
    P.RelsDiffer();
  }
}
