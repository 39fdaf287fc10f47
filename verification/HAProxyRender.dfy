/** Printing mappings as haproxy.cfg (internal/proxy/haproxy.go), as lines of tokens.
    User-supplied texts are assumed to be plain tokens, so nothing is escaped. */
module HAProxyRender {
  import opened Text
  import opened Model
  import opened Paths
  import R = Routes

  type Line = seq<string>

  const GLOBAL_BODY: seq<Line> := [
    ["log", "/dev/log", "local0"],
    ["log", "/dev/log", "local1", "notice"],
    ["maxconn", "4096"],
    ["user", "haproxy"],
    ["group", "haproxy"],
    ["stats", "socket", "/run/haproxy/admin.sock", "mode", "660", "level", "admin"],
    ["ca-base", "/etc/ssl/certs"],
    ["crt-base", "/etc/ssl/private"],
    []]

  const DEFAULTS_BODY: seq<Line> := [
    ["log", "global"],
    ["mode", "http"],
    ["option", "httplog"],
    ["option", "dontlognull"],
    ["timeout", "connect", "5s"],
    ["timeout", "client", "30s"],
    ["timeout", "server", "30s"],
    ["option", "forwardfor"],
    ["retries", "2"],
    []]

  const PREAMBLE: seq<Line> :=
    [["#", "Generated", "by", "PortGuard"], ["global"]] + GLOBAL_BODY + [["defaults"]] + DEFAULTS_BODY

  const CLOSING: seq<Line> := [[], ["#", "---", "end", "of", "PortGuard", "mappings", "---"]]

  const TUNNEL: Line := ["timeout", "tunnel", "3600s"]

  // ---- order ----

  function InsertById(sorted: seq<Mapping>, m: Mapping): seq<Mapping> {
    if sorted == [] || m.id < sorted[0].id then [m] + sorted else [sorted[0]] + InsertById(sorted[1..], m)
  }

  /** The mappings in id order. */
  function SortById(ms: seq<Mapping>): seq<Mapping> {
    if ms == [] then [] else InsertById(SortById(ms[..|ms| - 1]), ms[|ms| - 1])
  }

  lemma {:induction false} InsertByIdPermutes(sorted: seq<Mapping>, m: Mapping)
    ensures multiset(InsertById(sorted, m)) == multiset(sorted) + multiset{m}
  {
    if sorted != [] && m.id >= sorted[0].id {
      InsertByIdPermutes(sorted[1..], m);
      assert sorted == [sorted[0]] + sorted[1..];
    }
  }

  /** Sorting loses and invents nothing. */
  lemma {:induction false} SortByIdPermutes(ms: seq<Mapping>)
    ensures multiset(SortById(ms)) == multiset(ms)
  {
    if ms != [] {
      SortByIdPermutes(ms[..|ms| - 1]);
      InsertByIdPermutes(SortById(ms[..|ms| - 1]), ms[|ms| - 1]);
      assert ms == ms[..|ms| - 1] + [ms[|ms| - 1]];
    }
  }

  ghost predicate AscendingIds(ms: seq<Mapping>) {
    forall i, j :: 0 <= i < j < |ms| ==> ms[i].id <= ms[j].id
  }

  lemma {:induction false} InsertByIdAscends(sorted: seq<Mapping>, m: Mapping)
    requires AscendingIds(sorted)
    ensures AscendingIds(InsertById(sorted, m))
    ensures forall x :: x in InsertById(sorted, m) ==> x == m || x in sorted
  {
    if sorted != [] && m.id >= sorted[0].id {
      InsertByIdAscends(sorted[1..], m);
      var rest := InsertById(sorted[1..], m);
      forall j | 0 <= j < |rest| ensures sorted[0].id <= rest[j].id { assert rest[j] in rest; }
    }
  }

  /** The order is by id. */
  lemma {:induction false} SortByIdAscends(ms: seq<Mapping>)
    ensures AscendingIds(SortById(ms))
  {
    if ms != [] {
      SortByIdAscends(ms[..|ms| - 1]);
      InsertByIdAscends(SortById(ms[..|ms| - 1]), ms[|ms| - 1]);
    }
  }

  lemma SortOne(m: Mapping)
    ensures SortById([m]) == [m]
  {
    assert [m][..0] == [] && SortById([]) == [];
  }

  lemma SortByIdMembers(ms: seq<Mapping>, m: Mapping)
    ensures m in SortById(ms) <==> m in ms
  {
    SortByIdPermutes(ms);
    assert m in SortById(ms) <==> m in multiset(SortById(ms));
  }

  lemma {:induction false} InsertKeepsDistinct(sorted: seq<Mapping>, m: Mapping)
    requires DistinctIds(sorted) && forall x :: x in sorted ==> x.id != m.id
    ensures DistinctIds(InsertById(sorted, m))
    ensures forall x :: x in InsertById(sorted, m) ==> x == m || x in sorted
  {
    if sorted != [] && m.id >= sorted[0].id {
      InsertKeepsDistinct(sorted[1..], m);
      var rest := InsertById(sorted[1..], m);
      forall j | 0 <= j < |rest| ensures rest[j].id != sorted[0].id { assert rest[j] in rest; }
    }
  }

  lemma {:induction false} SortKeepsDistinct(ms: seq<Mapping>)
    requires DistinctIds(ms)
    ensures DistinctIds(SortById(ms))
  {
    if ms != [] {
      var init, last := ms[..|ms| - 1], ms[|ms| - 1];
      SortKeepsDistinct(init);
      forall x | x in SortById(init) ensures x.id != last.id { SortByIdMembers(init, x); }
      InsertKeepsDistinct(SortById(init), last);
    }
  }

  // ---- one mapping ----

  function FrontendName(m: Mapping): string {
    "fe_pg" + Itoa(m.id)
  }

  function BackendName(m: Mapping): string {
    "be_pg" + Itoa(m.id)
  }

  /** `bindIP`. */
  function BindIP(ip: string): string {
    if ip == "" || ip == "0.0.0.0" || ip == "::" then "*"
    else if ':' in ip then "[" + ip + "]"
    else ip
  }

  function BindToken(m: Mapping): string {
    BindIP(m.listenIP) + ":" + Dec(m.listenPort)
  }

  function PemPath(m: Mapping, p: Paths): string
    requires m.sslCert.Some?
  {
    PosixJoin(p.certsDir, Itoa(m.sslCert.value) + ".pem")
  }

  function FrontendHead(m: Mapping, p: Paths): seq<Line>
    requires m.protocol == Https ==> m.sslCert.Some?
  {
    if m.protocol == Tcp then
      [["frontend", FrontendName(m)], ["mode", "tcp"], ["option", "tcplog"], ["bind", BindToken(m)]]
    else if m.protocol == Https then
      [["frontend", FrontendName(m)],
       ["bind", BindToken(m), "ssl", "crt", PemPath(m, p)] + (if m.http2 then ["alpn", "h2,http/1.1"] else [])]
    else [["frontend", FrontendName(m)], ["bind", BindToken(m)]]
  }

  /** One allow or deny line. */
  function AccessLine(r: AccessRule, tcpMode: bool): Line {
    var verb :=
      if tcpMode then ["tcp-request", "connection", if r.action == "allow" then "accept" else "reject"]
      else ["http-request", if r.action == "allow" then "allow" else "deny"];
    verb + ["if", "{", "src", r.value, "}"]
  }

  function AccessLinesOf(rules: seq<AccessRule>, tcpMode: bool): seq<Line> {
    if rules == [] then [] else [AccessLine(rules[0], tcpMode)] + AccessLinesOf(rules[1..], tcpMode)
  }

  predicate HasAllow(rules: seq<AccessRule>) {
    exists i :: 0 <= i < |rules| && rules[i].action == "allow"
  }

  function AccessLines(m: Mapping, tcpMode: bool): seq<Line> {
    AccessLinesOf(m.accessRules, tcpMode) +
    (if HasAllow(m.accessRules) then [if tcpMode then ["tcp-request", "connection", "reject"] else ["http-request", "deny"]] else [])
  }

  function DirectiveLine(d: R.HaDirective): Line {
    match d
    case Acl(name, prefix) => ["acl", name, "path_beg", prefix]
    case RedirectIf(url, acl) => ["http-request", "redirect", "location", url, "code", "301", "if", acl]
    case UseBackendIf(backend, acl) => ["use_backend", backend, "if", acl]
  }

  function DirectiveLines(ds: seq<R.HaDirective>): seq<Line> {
    if ds == [] then [] else [DirectiveLine(ds[0])] + DirectiveLines(ds[1..])
  }

  function Ports(lo: int, hi: int): seq<string>
    decreases hi - lo
  {
    if lo > hi then [] else [Dec(lo)] + Ports(lo + 1, hi)
  }

  /** `portPattern`. */
  function PortPattern(min: int, max: int): string {
    if min <= 0 || max <= 0 || min > max || max - min > 16 then "[0-9]+" else "(" + Join(Ports(min, max), "|") + ")"
  }

  function PathPattern(pr: PathRoute): string {
    "^/" + pr.prefix + "/" + PortPattern(pr.minPort, pr.maxPort) + "(/.*)?$"
  }

  predicate NeedsUpgrade(pr: PathRoute) {
    pr.transport != XHttp
  }

  function PathAcls(fe: string, prs: seq<PathRoute>): seq<Line> {
    if prs == [] then [] else [["acl", fe + "_" + prs[0].prefix, "path_reg", PathPattern(prs[0])]] + PathAcls(fe, prs[1..])
  }

  function UpgradeGuards(fe: string, prs: seq<PathRoute>): seq<Line> {
    if prs == [] then []
    else
      (if NeedsUpgrade(prs[0]) then [["http-request", "deny", "deny_status", "404", "if", fe + "_" + prs[0].prefix, "!" + fe + "_up"]] else [])
      + UpgradeGuards(fe, prs[1..])
  }

  function AnyOf(fe: string, prs: seq<PathRoute>): Line {
    if prs == [] then []
    else [fe + "_" + prs[0].prefix] + (if |prs| > 1 then ["||"] else []) + AnyOf(fe, prs[1..])
  }

  function NoneOf(fe: string, prs: seq<PathRoute>): Line {
    if prs == [] then [] else ["!" + fe + "_" + prs[0].prefix] + NoneOf(fe, prs[1..])
  }

  /** `renderHAPathRoutes`. */
  function PathRouteLines(m: Mapping): seq<Line> {
    var fe := FrontendName(m);
    if m.pathRoutes == [] then []
    else
      PathAcls(fe, m.pathRoutes)
      + (if exists i :: 0 <= i < |m.pathRoutes| && NeedsUpgrade(m.pathRoutes[i])
         then [["acl", fe + "_up", "req.hdr(Upgrade)", "-m", "found"]] + UpgradeGuards(fe, m.pathRoutes) else [])
      + [["use_backend", BackendName(m) + "_dyn", "if"] + AnyOf(fe, m.pathRoutes)]
      + (if m.targets == [] then [["http-request", "deny", "deny_status", "404", "if"] + NoneOf(fe, m.pathRoutes)] else [])
  }

  /** `renderHAPathACL`. */
  function PathPrefixLines(m: Mapping): seq<Line> {
    var fe := FrontendName(m);
    if m.pathPrefix == "" then []
    else [["acl", fe + "_path", "path_beg", m.pathPrefix],
          ["use_backend", BackendName(m), "if", fe + "_path"],
          ["http-request", "deny", "deny_status", "404", "if", "!" + fe + "_path"]]
  }

  /** What the frontend does with a request. */
  function RoutingLines(m: Mapping): seq<Line> {
    if m.protocol == Tcp then [["default_backend", BackendName(m)]]
    else if m.redirectTo != "" then [["http-request", "redirect", "location", m.redirectTo, "code", "301"]]
    else
      DirectiveLines(R.HaDirectives(FrontendName(m), BackendName(m), m.routes))
      + PathRouteLines(m) + PathPrefixLines(m)
      + [["default_backend", BackendName(m)]]
  }

  /** `backendLine`. */
  function ServerLine(i: nat, t: Target): Line {
    ["server", "s" + Itoa(i), t.host + ":" + Dec(t.port)]
    + (if t.weight > 0 && t.weight != 1 then ["weight", Dec(t.weight)] else [])
    + (if t.backup then ["backup"] else [])
    + ["check"]
  }

  function ServerLines(targets: seq<Target>, i: nat): seq<Line> {
    if targets == [] then [] else [ServerLine(i, targets[0])] + ServerLines(targets[1..], i + 1)
  }

  /** `renderHABackend`. */
  function BackendLines(be: string, m: Mapping, targets: seq<Target>, tcpMode: bool): seq<Line> {
    [["backend", be]]
    + (if tcpMode then [["mode", "tcp"]] else [])
    + [["balance", if m.balance == "" then "roundrobin" else m.balance]]
    + (if !tcpMode && m.hostHeader != "" then [["http-request", "set-header", "Host", m.hostHeader]] else [])
    + ServerLines(targets, 0)
    + (if m.webSocket then [TUNNEL] else [])
    + [[]]
  }

  /** The backend of one route rule. */
  function RouteBackend(m: Mapping, r: RouteRule): seq<Line> {
    if r.enabled && r.targets != [] then BackendLines(BackendName(m) + R.RuleTag(r.id), m, r.targets, false) else []
  }

  /** `renderHARouteRuleBackends`. */
  function RouteBackends(m: Mapping, rules: seq<RouteRule>): seq<Line> {
    if rules == [] then [] else RouteBackend(m, rules[0]) + RouteBackends(m, rules[1..])
  }

  function MappingLines(m: Mapping, p: Paths): seq<Line>
    requires m.protocol == Https ==> m.sslCert.Some?
  {
    FrontendHead(m, p) + AccessLines(m, m.protocol == Tcp) + RoutingLines(m)
    + (if m.protocol == Tcp then []
       else RouteBackends(m, m.routes) + (if m.webSocket then [TUNNEL] else []))
    + BackendLines(BackendName(m), m, m.targets, m.protocol == Tcp)
  }

  function DynHost(m: Mapping): string {
    if m.targets != [] && m.targets[0].host != "" then m.targets[0].host else "127.0.0.1"
  }

  function DynPorts(prs: seq<PathRoute>): seq<Line> {
    if prs == [] then []
    else [["http-request", "set-var(txn.pgport)", "path,regsub(^/" + prs[0].prefix + "/([0-9]+)(/.*)?$,\\1)",
           "if", "{", "path_reg", PathPattern(prs[0]), "}"]] + DynPorts(prs[1..])
  }

  /** `renderHADynBackend`. */
  function DynBackend(m: Mapping): seq<Line> {
    [["backend", BackendName(m) + "_dyn"], ["mode", "http"], TUNNEL]
    + DynPorts(m.pathRoutes)
    + [["http-request", "set-dst-port", "var(txn.pgport)"], ["server", "dynamic", DynHost(m) + ":1"], []]
  }

  // ---- the whole file ----

  predicate Rendered(m: Mapping) {
    m.enabled && m.engine == HAProxy
  }

  /** HAProxy cannot forward UDP, and https needs a certificate. */
  predicate Renderable(m: Mapping) {
    Rendered(m) ==> m.protocol != Udp && (m.protocol == Https ==> m.sslCert.Some?)
  }

  predicate AllRenderable(ms: seq<Mapping>) {
    forall i :: 0 <= i < |ms| ==> Renderable(ms[i])
  }

  function MappingBlock(m: Mapping, p: Paths): seq<Line>
    requires Renderable(m)
  {
    if Rendered(m) then MappingLines(m, p) else []
  }

  function MainLines(ms: seq<Mapping>, p: Paths): seq<Line>
    requires AllRenderable(ms)
  {
    if ms == [] then []
    else
      assert Renderable(ms[0]);
      MappingBlock(ms[0], p) + MainLines(ms[1..], p)
  }

  predicate HasDyn(m: Mapping) {
    Rendered(m) && m.pathRoutes != [] && m.redirectTo == "" && IsHttp(m)
  }

  function DynBlock(m: Mapping): seq<Line> {
    if HasDyn(m) then DynBackend(m) else []
  }

  function DynLines(ms: seq<Mapping>): seq<Line> {
    if ms == [] then [] else DynBlock(ms[0]) + DynLines(ms[1..])
  }

  /** `HAProxyEngine.Render`: the lines of haproxy.cfg, or an error. */
  function Config(ms: seq<Mapping>, p: Paths): Option<seq<Line>> {
    var sorted := SortById(ms);
    if AllRenderable(sorted) then Some(PREAMBLE + MainLines(sorted, p) + DynLines(sorted) + CLOSING) else None
  }

  // ---- the program ----

  lemma AccessStep(rules: seq<AccessRule>, tcpMode: bool, i: nat, out: seq<Line>)
    requires i < |rules|
    ensures out + AccessLinesOf(rules[i..], tcpMode) == out + [AccessLine(rules[i], tcpMode)] + AccessLinesOf(rules[i + 1..], tcpMode)
  {
    assert rules[i..][1..] == rules[i + 1..];
  }

  method RenderAccessRules(m: Mapping, tcpMode: bool) returns (out: seq<Line>)
    ensures out == AccessLines(m, tcpMode)
  {
    out := [];
    var hasAllow := false;
    assert m.accessRules[0..] == m.accessRules;
    for i := 0 to |m.accessRules|
      invariant AccessLinesOf(m.accessRules, tcpMode) == out + AccessLinesOf(m.accessRules[i..], tcpMode)
      invariant hasAllow <==> exists k :: 0 <= k < i && m.accessRules[k].action == "allow"
    {
      AccessStep(m.accessRules, tcpMode, i, out);
      if m.accessRules[i].action == "allow" { hasAllow := true; }
      out := out + [AccessLine(m.accessRules[i], tcpMode)];
    }
    if hasAllow {
      out := out + [if tcpMode then ["tcp-request", "connection", "reject"] else ["http-request", "deny"]];
    }
  }

  method RenderServers(targets: seq<Target>) returns (out: seq<Line>)
    ensures out == ServerLines(targets, 0)
  {
    out := [];
    assert targets[0..] == targets;
    for i := 0 to |targets|
      invariant ServerLines(targets, 0) == out + ServerLines(targets[i..], i)
    {
      assert targets[i..][1..] == targets[i + 1..];
      out := out + [ServerLine(i, targets[i])];
    }
  }

  method RenderBackend(be: string, m: Mapping, targets: seq<Target>, tcpMode: bool) returns (out: seq<Line>)
    ensures out == BackendLines(be, m, targets, tcpMode)
  {
    var servers := RenderServers(targets);
    out := [["backend", be]]
      + (if tcpMode then [["mode", "tcp"]] else [])
      + [["balance", if m.balance == "" then "roundrobin" else m.balance]]
      + (if !tcpMode && m.hostHeader != "" then [["http-request", "set-header", "Host", m.hostHeader]] else [])
      + servers
      + (if m.webSocket then [TUNNEL] else [])
      + [[]];
  }

  lemma RouteBackendsStep(m: Mapping, out: seq<Line>, rules: seq<RouteRule>, i: nat)
    requires i < |rules|
    ensures out + RouteBackends(m, rules[i..]) == out + RouteBackend(m, rules[i]) + RouteBackends(m, rules[i + 1..])
  {
    assert rules[i..][1..] == rules[i + 1..];
    Associate(out, RouteBackend(m, rules[i]), RouteBackends(m, rules[i + 1..]));
  }

  method RenderRouteBackend(m: Mapping, r: RouteRule) returns (out: seq<Line>)
    ensures out == RouteBackend(m, r)
  {
    out := [];
    if r.enabled && r.targets != [] {
      out := RenderBackend(BackendName(m) + R.RuleTag(r.id), m, r.targets, false);
    }
  }

  method RenderRouteBackends(m: Mapping) returns (out: seq<Line>)
    ensures out == RouteBackends(m, m.routes)
  {
    out := [];
    assert m.routes[0..] == m.routes;
    for i := 0 to |m.routes|
      invariant RouteBackends(m, m.routes) == out + RouteBackends(m, m.routes[i..])
    {
      RouteBackendsStep(m, out, m.routes, i);
      var block := RenderRouteBackend(m, m.routes[i]);
      out := out + block;
    }
  }

  method RenderDirectives(m: Mapping) returns (out: seq<Line>)
    ensures out == DirectiveLines(R.HaDirectives(FrontendName(m), BackendName(m), m.routes))
  {
    var ds := R.RenderHaRules(FrontendName(m), BackendName(m), m.routes);
    out := [];
    assert ds[0..] == ds;
    for i := 0 to |ds|
      invariant DirectiveLines(ds) == out + DirectiveLines(ds[i..])
    {
      assert ds[i..][1..] == ds[i + 1..];
      out := out + [DirectiveLine(ds[i])];
    }
  }

  method RenderRouting(m: Mapping) returns (out: seq<Line>)
    ensures out == RoutingLines(m)
  {
    if m.protocol == Tcp {
      out := [["default_backend", BackendName(m)]];
    } else if m.redirectTo != "" {
      out := [["http-request", "redirect", "location", m.redirectTo, "code", "301"]];
    } else {
      var directives := RenderDirectives(m);
      out := directives + PathRouteLines(m) + PathPrefixLines(m) + [["default_backend", BackendName(m)]];
    }
  }

  method RenderMapping(m: Mapping, p: Paths) returns (out: seq<Line>)
    requires m.protocol == Https ==> m.sslCert.Some?
    ensures out == MappingLines(m, p)
  {
    var access := RenderAccessRules(m, m.protocol == Tcp);
    var routing := RenderRouting(m);
    out := FrontendHead(m, p) + access + routing;
    if m.protocol != Tcp {
      var backends := RenderRouteBackends(m);
      out := out + (backends + (if m.webSocket then [TUNNEL] else []));
    } else {
      out := out + [];
    }
    var main := RenderBackend(BackendName(m), m, m.targets, m.protocol == Tcp);
    out := out + main;
  }

  method RenderBlock(m: Mapping, p: Paths) returns (out: seq<Line>)
    requires Renderable(m)
    ensures out == MappingBlock(m, p)
  {
    out := [];
    if Rendered(m) {
      out := RenderMapping(m, p);
    }
  }

  lemma MainStep(out: seq<Line>, ms: seq<Mapping>, p: Paths, i: nat)
    requires i < |ms| && AllRenderable(ms[i..]) && Renderable(ms[i])
    ensures AllRenderable(ms[i + 1..])
    ensures out + MainLines(ms[i..], p) == out + MappingBlock(ms[i], p) + MainLines(ms[i + 1..], p)
  {
    assert ms[i..][1..] == ms[i + 1..] && ms[i..][0] == ms[i];
    Associate(out, MappingBlock(ms[i], p), MainLines(ms[i + 1..], p));
  }

  method RenderMain(sorted: seq<Mapping>, p: Paths) returns (ok: bool, out: seq<Line>)
    ensures ok <==> AllRenderable(sorted)
    ensures ok ==> out == MainLines(sorted, p)
  {
    out := [];
    assert sorted[0..] == sorted;
    for i := 0 to |sorted|
      invariant AllRenderable(sorted[..i])
      invariant AllRenderable(sorted) ==> AllRenderable(sorted[i..]) && MainLines(sorted, p) == out + MainLines(sorted[i..], p)
    {
      if !Renderable(sorted[i]) {
        return false, [];
      }
      var block := RenderBlock(sorted[i], p);
      if AllRenderable(sorted) { MainStep(out, sorted, p, i); }
      out := out + block;
    }
    assert sorted[..|sorted|] == sorted;
    ok := true;
  }

  lemma Associate(x: seq<Line>, y: seq<Line>, z: seq<Line>)
    ensures x + (y + z) == x + y + z
  {}

  lemma DynStep(out: seq<Line>, ms: seq<Mapping>, i: nat)
    requires i < |ms|
    ensures out + DynLines(ms[i..]) == out + DynBlock(ms[i]) + DynLines(ms[i + 1..])
  {
    assert ms[i..][1..] == ms[i + 1..];
    Associate(out, DynBlock(ms[i]), DynLines(ms[i + 1..]));
  }

  /** `appendDynBackends`. */
  method RenderDyn(sorted: seq<Mapping>) returns (out: seq<Line>)
    ensures out == DynLines(sorted)
  {
    out := [];
    assert sorted[0..] == sorted;
    for i := 0 to |sorted|
      invariant DynLines(sorted) == out + DynLines(sorted[i..])
    {
      DynStep(out, sorted, i);
      out := out + DynBlock(sorted[i]);
    }
  }

  method Render(ms: seq<Mapping>, p: Paths) returns (out: Option<seq<Line>>)
    ensures out == Config(ms, p)
  {
    var sorted := SortById(ms);
    var ok, main := RenderMain(sorted, p);
    if !ok {
      return None;
    }
    var dyn := RenderDyn(sorted);
    out := Some(PREAMBLE + main + dyn + CLOSING);
  }
}
