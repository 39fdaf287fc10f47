/** Single tokens and lines survive printing and parsing: bind addresses, server lines,
    and which printed lines the parser passes over. */
module HAProxyTokens {
  import opened Text
  import opened Model
  import opened HAProxyParser
  import HR = HAProxyRender

  // ---- addresses ----

  predicate NoBrackets(s: string) {
    '[' !in s && ']' !in s
  }

  lemma {:induction false} TrimNothing(s: string)
    requires NoBrackets(s)
    ensures TrimBrackets(s) == s
  {}

  lemma DecDigits(n: int)
    requires n >= 0
    ensures AllDigits(Dec(n)) && |Dec(n)| > 0 && ':' !in Dec(n) && '[' !in Dec(n) && ']' !in Dec(n)
  {}

  /** The bind address all spellings of "every interface" come back as. */
  function NormalIP(ip: string): string {
    if ip == "" || ip == "0.0.0.0" || ip == "::" || ip == "*" then "0.0.0.0" else ip
  }

  lemma BracketParts(ip: string, digits: string)
    requires ']' !in ip
    ensures var addr, i := "[" + ip + "]" + ":" + digits, |ip| + 1;
      && addr != [] && addr[0] == '[' && Index(addr, ']') == i
      && addr[1..i] == ip && addr[i + 1..] == ":" + digits && addr[i + 2..] == digits
  {
    var left := "[" + ip;
    assert "[" + ip + "]" + ":" + digits == left + [']'] + (":" + digits);
    IndexAt(left, ']', ":" + digits);
  }

  lemma BracketsTaken(addr: string, ip: string, digits: string)
    requires ip != "" && digits != [] && AllDigits(digits) && addr != [] && addr[0] == '['
    requires var i := |ip| + 1; Index(addr, ']') == i && addr[1..i] == ip && addr[i + 1..] == ":" + digits && addr[i + 2..] == digits
    ensures BindAddress(addr) == Bind(ip, AtoiLossy(digits), false, "")
  {
    assert addr[..1] == "[";
    assert (":" + digits)[..1] == ":";
  }

  lemma BracketedAddress(ip: string, digits: string)
    requires ip != "" && ']' !in ip && digits != [] && AllDigits(digits)
    ensures BindAddress("[" + ip + "]" + ":" + digits) == Bind(ip, AtoiLossy(digits), false, "")
  {
    BracketParts(ip, digits);
    BracketsTaken("[" + ip + "]" + ":" + digits, ip, digits);
  }

  lemma PlainAddress(ip: string, digits: string)
    requires ip != "" && NoBrackets(ip) && ':' !in digits
    ensures BindAddress(ip + ":" + digits) == Bind(ip, AtoiLossy(digits), false, "")
  {
    var addr := ip + ":" + digits;
    LastIndexAt(ip, ':', digits);
    assert addr[0] == ip[0];
    assert addr[..|ip|] == ip && addr[|ip| + 1..] == digits;
  }

  /** A printed bind address reads back as the same address and port. */
  lemma BindReadsBack(m: Mapping)
    requires NoBrackets(m.listenIP) && 0 <= m.listenPort <= MAX_INT64
    ensures var b := BindAddress(HR.BindToken(m));
      !b.ssl && b.port == m.listenPort && NormalizeBindIP(b.ip) == NormalIP(m.listenIP)
  {
    DecDigits(m.listenPort);
    AtoiDec(m.listenPort);
    var ip := m.listenIP;
    if ip == "" || ip == "0.0.0.0" || ip == "::" {
      PlainAddress("*", Dec(m.listenPort));
    } else if ':' in ip {
      BracketedAddress(ip, Dec(m.listenPort));
    } else {
      PlainAddress(ip, Dec(m.listenPort));
    }
  }

  // ---- servers ----

  lemma OneColon(host: string, digits: string)
    requires ':' !in host && ':' !in digits
    ensures Count(host + ":" + digits, ':') == 1 && Index(host + ":" + digits, ':') == |host|
  {
    var s := host + ":" + digits;
    CountAppend(host + ":", digits, ':');
    CountAppend(host, ":", ':');
    CountAbsent(host, ':');
    CountAbsent(digits, ':');
    assert Count(":", ':') == 1;
    IndexAt(host, ':', digits);
  }

  lemma PlainServer(name: string, host: string, port: int)
    requires NoBrackets(host) && ':' !in host && 0 <= port <= MAX_INT64
    ensures ServerAddress(name, host + ":" + Dec(port)) == Server(name, host, port, 0, false, false)
  {
    DecDigits(port);
    AtoiDec(port);
    OneColon(host, Dec(port));
    TrimNothing(host);
    var addr := host + ":" + Dec(port);
    assert addr[..|host|] == host && addr[|host| + 1..] == Dec(port);
  }

  lemma ColonServer(name: string, host: string, port: int)
    requires NoBrackets(host) && ':' in host && 0 <= port
    ensures ServerAddress(name, host + ":" + Dec(port)).address != host
  {
    DecDigits(port);
    var addr := host + ":" + Dec(port);
    CountAppend(host + ":", Dec(port), ':');
    CountAppend(host, ":", ':');
    CountAbsent(host, ':');
    CountAbsent(Dec(port), ':');
    assert Count(":", ':') == 1;
    TrimNothing(addr);
    assert |addr| > |host|;
  }

  /** A printed server address reads back as host and port exactly when the host has no
      colon: IPv6 targets do not survive the HAProxy import. */
  lemma ServerReadsBackIff(name: string, host: string, port: int)
    requires NoBrackets(host) && 0 <= port <= MAX_INT64
    ensures var s := ServerAddress(name, host + ":" + Dec(port));
      (s.address == host && s.port == port) <==> ':' !in host
  {
    if ':' in host { ColonServer(name, host, port); } else { PlainServer(name, host, port); }
  }

  /** The weight an import keeps: 1 and nonsense both mean "not set". */
  function NormalWeight(w: int): int {
    if w > 0 && w != 1 then w else 0
  }

  predicate PlainTarget(t: Target) {
    NoBrackets(t.host) && ':' !in t.host && 0 <= t.port <= MAX_INT64 && t.weight <= MAX_INT64
  }

  function ServerOf(i: nat, t: Target): Server {
    Server("s" + Itoa(i), t.host, t.port, NormalWeight(t.weight), t.backup, true)
  }

  lemma OptionsReadBack(s: Server, t: Target)
    requires PlainTarget(t) && s.weight == 0 && !s.backup && !s.check
    ensures ServerOptions(s, (if t.weight > 0 && t.weight != 1 then ["weight", Dec(t.weight)] else [])
                             + (if t.backup then ["backup"] else []) + ["check"])
      == s.(weight := NormalWeight(t.weight), backup := t.backup, check := true)
  {
    var tail := (if t.backup then ["backup"] else []) + ["check"];
    BackupOption(s.(weight := NormalWeight(t.weight)), t.backup);
    if t.weight > 0 && t.weight != 1 {
      AtoiDec(t.weight);
      var all := ["weight", Dec(t.weight)] + (if t.backup then ["backup"] else []) + ["check"];
      assert all[2..] == tail && all[0] == "weight" && all[1] == Dec(t.weight);
      assert "weight" != "check" && "weight" != "backup";
    } else {
      assert [] + (if t.backup then ["backup"] else []) + ["check"] == tail;
    }
  }

  lemma BackupOption(s: Server, backup: bool)
    requires !s.backup && !s.check
    ensures ServerOptions(s, (if backup then ["backup"] else []) + ["check"]) == s.(backup := backup, check := true)
  {
    var tail: Line := ["check"];
    assert tail[1..] == [];
    assert ServerOptions(s.(backup := backup), tail) == s.(backup := backup, check := true);
    if backup {
      var all: Line := ["backup"] + ["check"];
      assert all[1..] == tail && "backup" != "check";
    } else {
      var none: Line := [];
      assert none + tail == tail;
    }
  }

  lemma ServerLineReadsBack(i: nat, t: Target)
    requires PlainTarget(t)
    ensures ParseServer(HR.ServerLine(i, t)) == Some(ServerOf(i, t))
  {
    var line := HR.ServerLine(i, t);
    var options := (if t.weight > 0 && t.weight != 1 then ["weight", Dec(t.weight)] else [])
      + (if t.backup then ["backup"] else []) + ["check"];
    assert line == ["server", "s" + Itoa(i), t.host + ":" + Dec(t.port)] + options;
    assert line[0] == "server";
    assert line[1..][0] == "s" + Itoa(i) && line[1..][1] == t.host + ":" + Dec(t.port) && line[1..][2..] == options;
    PlainServer("s" + Itoa(i), t.host, t.port);
    OptionsReadBack(ServerAddress("s" + Itoa(i), t.host + ":" + Dec(t.port)), t);
  }

  // ---- keywords ----

  lemma {:induction false} NoKeyword(token: string, words: seq<string>)
    requires forall i :: 0 <= i < |words| ==> !HasPrefix(token, words[i])
    ensures FirstKeyword(token, words) == ""
  {
    if words != [] { NoKeyword(token, words[1..]); }
  }

  predicate PlainHead(token: string) {
    token == "acl" || token == "http-request" || token == "tcp-request" || token == "option" || token == "timeout"
  }

  lemma NotASection(token: string)
    requires PlainHead(token) || token == "server" || token == "mode" || token == "bind" || token == "balance"
      || token == "default_backend" || token == "use_backend"
    ensures FirstKeyword(token, KEYWORDS) == ""
  {
    forall i | 0 <= i < |KEYWORDS| ensures !HasPrefix(token, KEYWORDS[i]) {
      var w := KEYWORDS[i];
      DifferentStart(token, w);
    }
    NoKeyword(token, KEYWORDS);
  }

  lemma PrefixDiffers(token: string, w: string, k: nat)
    requires k < |w| && k < |token| && token[k] != w[k]
    ensures !HasPrefix(token, w)
  {
    if |w| <= |token| { assert token[..|w|][k] == token[k]; }
  }

  lemma DifferentStart(token: string, w: string)
    requires PlainHead(token) || token == "server" || token == "mode" || token == "bind" || token == "balance"
      || token == "default_backend" || token == "use_backend"
    requires w in KEYWORDS
    ensures !HasPrefix(token, w)
  {
    var k := if token[0] != w[0] then 0
      else if token == "default_backend" then 7
      else if token == "use_backend" then 3
      else if token == "balance" then 2 else 1;
    PrefixDiffers(token, w, k);
  }

  lemma HeaderWord(name: string)
    ensures SectionWord(["frontend", name]) == "frontend"
    ensures SectionWord(["backend", name]) == "backend"
  {
    var k1, k2, k3 := KEYWORDS[1..], KEYWORDS[1..][1..], KEYWORDS[1..][1..][1..];
    assert k1[0] == "defaults" && k2[0] == "frontend" && k3[0] == "backend";
    assert "frontend"[0] == 'f' && "backend"[0] == 'b';
    assert FirstKeyword("frontend", k2) == "frontend";
    assert FirstKeyword("backend", k3) == "backend";
    assert FirstKeyword("backend", k2) == FirstKeyword("backend", k3);
    assert FirstKeyword("frontend", k1) == FirstKeyword("frontend", k2);
    assert FirstKeyword("backend", k1) == FirstKeyword("backend", k2);
  }
}
