/** Printing mappings as nginx configuration (internal/proxy/nginx.go), as lines of
    tokens. User-supplied texts are assumed to be plain tokens, so nothing is escaped. */
module NginxRender {
  import opened Text
  import opened Model
  import opened Paths
  import R = Routes
  import HR = HAProxyRender

  /** The tokens of a line without its closing semicolon, and whether it had one. */
  datatype NLine = NLine(fields: seq<string>, semi: bool)

  function D(fields: seq<string>): NLine {
    NLine(fields, true)
  }

  function Open(fields: seq<string>): NLine {
    NLine(fields + ["{"], false)
  }

  const CLOSE := NLine(["}"], false)
  const BLANK := NLine([], false)
  const COMMENT := NLine(["#"], false)

  predicate Rendered(m: Mapping) {
    m.enabled && m.engine == Nginx
  }

  predicate Renderable(m: Mapping) {
    Rendered(m) && m.protocol == Https ==> m.sslCert.Some?
  }

  // ---- upstreams ----

  function HostPort(t: Target): string {
    t.host + ":" + Dec(t.port)
  }

  function WeightToken(t: Target): seq<string> {
    if t.weight > 0 && t.weight != 1 then ["weight=" + Dec(t.weight)] else []
  }

  function UpstreamServer(t: Target, withBackup: bool): NLine {
    D(["server", HostPort(t)] + WeightToken(t) + (if withBackup && t.backup then ["backup"] else []))
  }

  function UpstreamServers(targets: seq<Target>, withBackup: bool): seq<NLine> {
    if targets == [] then [] else [UpstreamServer(targets[0], withBackup)] + UpstreamServers(targets[1..], withBackup)
  }

  const HTTP_GROUP := "pg_upstream_"
  const STREAM_GROUP := "pg_stream_"
  const RULE_GROUP := "pg_up_"
  const RULE_SEPARATOR := "_r"

  function HttpUpstreamName(m: Mapping): string {
    HTTP_GROUP + Itoa(m.id)
  }

  function StreamUpstreamName(m: Mapping): string {
    STREAM_GROUP + Itoa(m.id)
  }

  /** The load-balancing directive; none for round robin. */
  function HttpBalance(m: Mapping): seq<NLine> {
    if m.balance == "least_conn" then [D(["least_conn"])]
    else if m.balance == "ip_hash" then [D(["ip_hash"])]
    else if m.balance == "random" then [D(["random"])]
    else if m.balance == "round_robin" then []
    else if m.webSocket then [D(["ip_hash"])]
    else [D(["least_conn"])]
  }

  function StreamBalance(m: Mapping): seq<NLine> {
    if m.balance == "least_conn" then [D(["least_conn"])]
    else if m.balance == "random" then [D(["random"])]
    else []
  }

  /** An upstream group is only printed for two or more targets. */
  predicate NeedsUpstream(m: Mapping) {
    m.redirectTo == "" && |m.targets| > 1
  }

  function UpstreamBlock(name: string, balance: seq<NLine>, targets: seq<Target>, withBackup: bool): seq<NLine> {
    [Open(["upstream", name])] + balance + UpstreamServers(targets, withBackup) + [CLOSE]
  }

  /** `renderHTTPUpstream`. */
  function HttpUpstream(m: Mapping): seq<NLine> {
    if NeedsUpstream(m) then UpstreamBlock(HttpUpstreamName(m), HttpBalance(m), m.targets, true) + [BLANK] else []
  }

  // ---- http servers ----

  const ANY_IPV6 := "[::]"
  const PORT_VARIABLE := "$pgport"

  function WildcardAddr(port: int): string {
    ANY_IPV6 + ":" + Dec(port)
  }

  /** `nginxListenAddr`. */
  function ListenAddr(ip: string, port: int): string {
    if ip == "::" || ip == "" then WildcardAddr(port)
    else if ':' in ip then "[" + ip + "]:" + Dec(port)
    else ip + ":" + Dec(port)
  }

  predicate Wildcard(ip: string) {
    ip == "" || ip == "0.0.0.0" || ip == "::"
  }

  function TlsTokens(m: Mapping): seq<string> {
    if m.protocol == Https then ["ssl"] + (if m.http2 then ["http2"] else []) else []
  }

  function ListenLines(m: Mapping): seq<NLine> {
    [D(["listen", ListenAddr(m.listenIP, m.listenPort)] + TlsTokens(m))]
    + (if Wildcard(m.listenIP) then [D(["listen", WildcardAddr(m.listenPort)] + TlsTokens(m))] else [])
  }

  function CertLines(m: Mapping, p: Paths): seq<NLine>
    requires m.protocol == Https ==> m.sslCert.Some?
  {
    if m.protocol == Https then
      [D(["ssl_certificate", p.certsDir + "/" + Itoa(m.sslCert.value) + ".crt"]),
       D(["ssl_certificate_key", p.certsDir + "/" + Itoa(m.sslCert.value) + ".key"])]
    else []
  }

  function NameLine(m: Mapping): NLine {
    D(["server_name"] + (if m.serverNames == [] then ["_"] else m.serverNames))
  }

  function AccessLinesOf(rules: seq<AccessRule>): seq<NLine> {
    if rules == [] then [] else [D([rules[0].action, rules[0].value])] + AccessLinesOf(rules[1..])
  }

  function AccessLines(m: Mapping): seq<NLine> {
    AccessLinesOf(m.accessRules) + (if HR.HasAllow(m.accessRules) then [D(["deny", "all"])] else [])
  }

  function PathRouteHost(m: Mapping): string {
    if m.targets != [] && m.targets[0].host != "" then m.targets[0].host else "127.0.0.1"
  }

  function PathRoutePass(m: Mapping): string {
    "http://" + (PathRouteHost(m) + ":" + PORT_VARIABLE)
  }

  const WS_LINES: seq<NLine> := [
    D(["proxy_http_version", "1.1"]),
    D(["proxy_set_header", "Upgrade", "$http_upgrade"]),
    D(["proxy_set_header", "Connection", "\"upgrade\""]),
    D(["proxy_set_header", "Host", "$host"]),
    D(["proxy_set_header", "X-Real-IP", "$remote_addr"]),
    D(["proxy_set_header", "X-Forwarded-For", "$proxy_add_x_forwarded_for"]),
    D(["proxy_read_timeout", "1w"]),
    D(["proxy_send_timeout", "1w"])]

  const XHTTP_LINES: seq<NLine> := [
    D(["proxy_http_version", "1.1"]),
    D(["proxy_set_header", "Host", "$host"]),
    D(["proxy_set_header", "X-Real-IP", "$remote_addr"]),
    D(["proxy_set_header", "X-Forwarded-For", "$proxy_add_x_forwarded_for"]),
    D(["proxy_set_header", "Connection", "\"\""]),
    D(["proxy_buffering", "off"]),
    D(["proxy_request_buffering", "off"]),
    D(["chunked_transfer_encoding", "on"]),
    D(["client_body_timeout", "1w"]),
    D(["proxy_read_timeout", "1w"]),
    D(["proxy_send_timeout", "1w"])]

  function RoutePattern(pr: PathRoute): string {
    "^/" + pr.prefix + (if pr.transport == XHttp then "/(?<pgport>\\d+)(/.*)?" else "/(?<pgport>\\d+)")
  }

  function UpgradeGuard(): NLine {
    NLine(["if", "($http_upgrade", "=", "\"\")", "{", "return", "404;", "}"], false)
  }

  /** One dynamic port-in-path route: a regex location. */
  function PathRouteLocation(m: Mapping, pr: PathRoute): seq<NLine> {
    var pass := D(["proxy_pass", PathRoutePass(m)]);
    if pr.transport == XHttp then
      [COMMENT, Open(["location", "~", RoutePattern(pr)]), pass] + XHTTP_LINES + [CLOSE, BLANK]
    else
      [COMMENT, Open(["location", "~", RoutePattern(pr)]),
       UpgradeGuard(), pass] + WS_LINES + [CLOSE, BLANK]
  }

  function PathRouteLocations(m: Mapping, prs: seq<PathRoute>): seq<NLine> {
    if prs == [] then [] else PathRouteLocation(m, prs[0]) + PathRouteLocations(m, prs[1..])
  }

  /** A rule that proxies to anything but one target gets an upstream group. */
  predicate NeedsRuleGroup(r: RouteRule) {
    r.redirect == "" && |r.targets| != 1
  }

  /** The multi-target upstreams of route rules, and their locations. */
  function RuleUpstreams(m: Mapping, locs: seq<R.Loc>): seq<NLine> {
    if locs == [] then []
    else
      RuleUpstream(m, locs[0].rule) + RuleUpstreams(m, locs[1..])
  }

  function RuleUpstream(m: Mapping, r: RouteRule): seq<NLine> {
    if NeedsRuleGroup(r) then UpstreamBlock(RuleUpstreamName(m, r), [], r.targets, true) else []
  }

  function RuleUpstreamName(m: Mapping, r: RouteRule): string {
    if r.targets == [] then "" else RULE_GROUP + (Itoa(m.id) + (RULE_SEPARATOR + Itoa(r.id)))
  }

  function ActionLine(a: R.NgAction): NLine {
    match a
    case Return301(url) => D(["return", "301", url])
    case ProxyTo(host, port) => D(["proxy_pass", "http://" + (host + ":" + Dec(port))])
    case ProxyUpstream(name) => D(["proxy_pass", "http://" + name])
  }

  function RuleLocations(m: Mapping, locs: seq<R.Loc>): seq<NLine> {
    if locs == [] then []
    else
      RuleLocation(m, locs[0]) + RuleLocations(m, locs[1..])
  }

  function RuleLocation(m: Mapping, l: R.Loc): seq<NLine> {
    [Open(["location", l.path])] + [ActionLine(R.NgRuleAction(m.id, l.rule))] + [CLOSE]
  }

  /** `renderNginxRouteRules`. */
  function RouteRuleLines(m: Mapping): seq<NLine> {
    var locs := R.Sorted(R.EnabledLocs(m.routes, true));
    RuleUpstreams(m, locs) + RuleLocations(m, locs)
  }

  /** `renderProxyHeaders` and `renderWSHeaders`. */
  function HeaderLines(m: Mapping): seq<NLine> {
    [D(["proxy_set_header", "Host", if m.hostHeader != "" then m.hostHeader else "$host"]),
     D(["proxy_set_header", "X-Real-IP", "$remote_addr"]),
     D(["proxy_set_header", "X-Forwarded-For", "$proxy_add_x_forwarded_for"]),
     D(["proxy_set_header", "X-Forwarded-Proto", "$scheme"])]
    + (if m.webSocket then
         [D(["proxy_http_version", "1.1"]), D(["proxy_set_header", "Upgrade", "$http_upgrade"]),
          D(["proxy_set_header", "Connection", "\"upgrade\""]), D(["proxy_read_timeout", "3600s"])]
       else [])
  }

  /** `renderProxyPass`: a single target inline, otherwise the upstream group. */
  function ProxyPass(m: Mapping): string {
    if |m.targets| == 1 then "http://" + HostPort(m.targets[0]) else "http://" + HttpUpstreamName(m)
  }

  function ProxyLocation(m: Mapping, path: string): seq<NLine> {
    [Open(["location", path])] + HeaderLines(m) + [D(["proxy_pass", ProxyPass(m)]), CLOSE]
  }

  function SiteLocation(m: Mapping): seq<NLine> {
    if m.pathPrefix != "" then ProxyLocation(m, m.pathPrefix)
    else if m.targets != [] then ProxyLocation(m, "/")
    else []
  }

  /** `renderNginxFallback`. */
  function Fallback(m: Mapping): seq<NLine> {
    if m.decoy == "" then
      if m.pathPrefix != "" || m.pathRoutes != [] then [Open(["location", "/"]), D(["return", "404"]), CLOSE] else []
    else if m.decoy == "builtin" || m.decoy == "custom" then
      [Open(["location", "/"]), D(["root", "/var/lib/portguard/decoy"]), D(["index", "index.html"]),
       D(["try_files", "$uri", "$uri/", "=404"]), CLOSE]
    else []
  }

  function ServingLines(m: Mapping): seq<NLine> {
    if m.redirectTo != "" then [D(["return", "301", m.redirectTo])]
    else PathRouteLocations(m, m.pathRoutes) + RouteRuleLines(m) + SiteLocation(m) + Fallback(m)
  }

  function ExtraHeaderLines(headers: seq<(string, string)>): seq<NLine> {
    if headers == [] then [] else [D(["add_header", headers[0].0, headers[0].1, "always"])] + ExtraHeaderLines(headers[1..])
  }

  /** What a server block says before it serves anything. */
  function HeadLines(m: Mapping, p: Paths): seq<NLine>
    requires m.protocol == Https ==> m.sslCert.Some?
  {
    ListenLines(m) + CertLines(m, p) + [NameLine(m)] + AccessLines(m)
  }

  function ServerBody(m: Mapping, p: Paths): seq<NLine>
    requires m.protocol == Https ==> m.sslCert.Some?
  {
    HeadLines(m, p) + ServingLines(m) + ExtraHeaderLines(m.extraHeaders)
  }

  /** `renderHTTPServer`. */
  function HttpServer(m: Mapping, p: Paths): seq<NLine>
    requires m.protocol == Https ==> m.sslCert.Some?
  {
    [COMMENT] + ([Open(["server"])] + ServerBody(m, p) + [CLOSE]) + [BLANK]
  }

  // ---- stream servers ----

  function StreamListenLine(m: Mapping): NLine {
    D(["listen", ListenAddr(m.listenIP, m.listenPort)] + (if m.protocol == Udp then ["udp"] else []))
  }

  function StreamBody(m: Mapping): seq<NLine> {
    [StreamListenLine(m)]
    + [D(["proxy_pass", StreamUpstreamName(m)])]
    + [D(["proxy_connect_timeout", "5s"])]
  }

  /** `renderStreamServer`. */
  function StreamServer(m: Mapping): seq<NLine> {
    ([COMMENT] + UpstreamBlock(StreamUpstreamName(m), StreamBalance(m), m.targets, false))
    + ([Open(["server"])] + StreamBody(m) + [CLOSE]) + [BLANK]
  }

  // ---- the files ----

  predicate AllRenderable(ms: seq<Mapping>) {
    forall i :: 0 <= i < |ms| ==> Renderable(ms[i])
  }

  predicate HttpRendered(m: Mapping) {
    Rendered(m) && IsHttp(m)
  }

  predicate StreamRendered(m: Mapping) {
    Rendered(m) && !IsHttp(m)
  }

  function Upstreams(ms: seq<Mapping>): seq<NLine> {
    if ms == [] then [] else (if HttpRendered(ms[0]) then HttpUpstream(ms[0]) else []) + Upstreams(ms[1..])
  }

  function ServerBlock(m: Mapping, p: Paths): seq<NLine>
    requires Renderable(m)
  {
    if HttpRendered(m) then HttpServer(m, p) else []
  }

  function HttpServers(ms: seq<Mapping>, p: Paths): seq<NLine>
    requires AllRenderable(ms)
  {
    if ms == [] then []
    else
      assert Renderable(ms[0]);
      ServerBlock(ms[0], p) + HttpServers(ms[1..], p)
  }

  function StreamServers(ms: seq<Mapping>): seq<NLine> {
    if ms == [] then [] else (if StreamRendered(ms[0]) then StreamServer(ms[0]) else []) + StreamServers(ms[1..])
  }

  const MAIN_BODY: seq<NLine> := [
    COMMENT,
    D(["user", "www-data"]),
    D(["worker_processes", "auto"]),
    D(["pid", "/run/nginx.pid"]),
    D(["error_log", "/var/log/nginx/error.log"]),
    D(["include", "/etc/nginx/modules-enabled/*.conf"]),
    BLANK,
    Open(["events"]),
    D(["worker_connections", "1024"]),
    CLOSE,
    BLANK,
    Open(["http"]),
    D(["sendfile", "on"]),
    D(["tcp_nopush", "on"]),
    D(["types_hash_max_size", "2048"]),
    D(["include", "/etc/nginx/mime.types"]),
    D(["default_type", "application/octet-stream"]),
    D(["ssl_protocols", "TLSv1.2", "TLSv1.3"]),
    D(["ssl_prefer_server_ciphers", "off"]),
    D(["access_log", "/var/log/nginx/access.log"]),
    D(["gzip", "on"]),
    D(["client_max_body_size", "0"]),
    BLANK]

  /** From the http block to the stream block. */
  const TURN: seq<NLine> := [CLOSE] + [BLANK] + [Open(["stream"])]

  /** portguard/http.conf. */
  function HttpConf(ms: seq<Mapping>, p: Paths): seq<NLine>
    requires AllRenderable(ms)
  {
    Upstreams(ms) + HttpServers(ms, p) + [COMMENT]
  }

  /** portguard/stream.conf. */
  function StreamConf(ms: seq<Mapping>): seq<NLine> {
    StreamServers(ms) + [COMMENT]
  }

  /** nginx.conf with the two includes expanded in place. */
  function Expanded(ms: seq<Mapping>, p: Paths): Option<seq<NLine>> {
    var sorted := HR.SortById(ms);
    if AllRenderable(sorted)
    then Some(MAIN_BODY + HttpConf(sorted, p) + TURN + StreamConf(sorted) + [CLOSE])
    else None
  }

  /** nginx.conf as it is written: the mappings are in the included files. */
  function Main(p: Paths): seq<NLine> {
    var dir := PosixJoin(PosixDir(p.nginxConf), "portguard");
    MAIN_BODY + [D(["include", dir + "/http.conf"])] + TURN
    + [D(["include", dir + "/stream.conf"])] + [CLOSE]
  }

  // ---- the program ----

  /** The page behind `location /`: built in, or the mapping's own. */
  datatype DecoyPage = BuiltinPage | CustomPage(html: string)

  datatype Files = Files(main: seq<NLine>, http: seq<NLine>, stream: seq<NLine>, decoy: Option<DecoyPage>)

  predicate WantsDecoy(m: Mapping) {
    HttpRendered(m) && (m.decoy == "builtin" || m.decoy == "custom")
  }

  function DecoyOf(m: Mapping): DecoyPage {
    if m.decoy == "builtin" then BuiltinPage else CustomPage(m.decoyHtml)
  }

  /** The mappings share one page: the first that asks decides. */
  function FirstDecoy(ms: seq<Mapping>): Option<DecoyPage> {
    if ms == [] then None else if WantsDecoy(ms[0]) then Some(DecoyOf(ms[0])) else FirstDecoy(ms[1..])
  }

  /** `DecoyFiles`. */
  method DecoyFiles(ms: seq<Mapping>) returns (page: Option<DecoyPage>)
    ensures page == FirstDecoy(ms)
    ensures page == None <==> forall i :: 0 <= i < |ms| ==> !WantsDecoy(ms[i])
  {
    page := None;
    assert ms[0..] == ms;
    for i := 0 to |ms|
      invariant FirstDecoy(ms) == if page.Some? then page else FirstDecoy(ms[i..])
      invariant page == None <==> forall j :: 0 <= j < i ==> !WantsDecoy(ms[j])
    {
      assert ms[i..][1..] == ms[i + 1..];
      if WantsDecoy(ms[i]) && page == None {
        page := Some(DecoyOf(ms[i]));
      }
    }
  }

  // ---- route rules, in two builders ----

  /** What the two builders hold before the `i`th rule. */
  ghost predicate Printed(m: Mapping, locs: seq<R.Loc>, i: nat, ups: seq<NLine>, places: seq<NLine>)
    requires i <= |locs|
  {
    RuleUpstreams(m, locs) == ups + RuleUpstreams(m, locs[i..]) && RuleLocations(m, locs) == places + RuleLocations(m, locs[i..])
  }

  lemma PrintedStart(m: Mapping, locs: seq<R.Loc>)
    ensures Printed(m, locs, 0, [], [])
  {
    assert locs[0..] == locs;
  }

  lemma PrintedStep(m: Mapping, locs: seq<R.Loc>, i: nat, ups: seq<NLine>, places: seq<NLine>)
    requires i < |locs| && Printed(m, locs, i, ups, places)
    ensures Printed(m, locs, i + 1, ups + RuleUpstream(m, locs[i].rule), places + RuleLocation(m, locs[i]))
  {
    assert locs[i..][0] == locs[i] && locs[i..][1..] == locs[i + 1..];
    Associate(ups, RuleUpstream(m, locs[i].rule), RuleUpstreams(m, locs[i + 1..]));
    Associate(places, RuleLocation(m, locs[i]), RuleLocations(m, locs[i + 1..]));
  }

  lemma PrintedEnd(m: Mapping, locs: seq<R.Loc>, ups: seq<NLine>, places: seq<NLine>)
    requires Printed(m, locs, |locs|, ups, places)
    ensures ups == RuleUpstreams(m, locs) && places == RuleLocations(m, locs)
  {
    assert locs[|locs|..] == [];
  }

  lemma NoGroupSameUps(m: Mapping, r: RouteRule, ups: seq<NLine>)
    ensures ups + RuleUpstream(m, r)
      == if NeedsRuleGroup(r) then ups + UpstreamBlock(RuleUpstreamName(m, r), [], r.targets, true) else ups
  {}

  /** `renderNginxRouteRules`: groups and locations are collected side by side. */
  method RenderRouteRules(m: Mapping) returns (out: seq<NLine>)
    ensures out == RouteRuleLines(m)
  {
    var locs := R.CollectLocs(m.routes, true);
    R.SortInPlace(locs);
    var sorted := locs[..];
    var ups: seq<NLine>, places: seq<NLine> := [], [];
    PrintedStart(m, sorted);
    for i := 0 to |sorted|
      invariant Printed(m, sorted, i, ups, places)
    {
      var l := sorted[i];
      PrintedStep(m, sorted, i, ups, places);
      NoGroupSameUps(m, l.rule, ups);
      if NeedsRuleGroup(l.rule) {
        ups := ups + UpstreamBlock(RuleUpstreamName(m, l.rule), [], l.rule.targets, true);
      }
      places := places + RuleLocation(m, l);
    }
    PrintedEnd(m, sorted, ups, places);
    out := ups + places;
  }

  // ---- the whole configuration ----

  function UpstreamOf(m: Mapping): seq<NLine> {
    if HttpRendered(m) then HttpUpstream(m) else []
  }

  function StreamBlock(m: Mapping): seq<NLine> {
    if StreamRendered(m) then StreamServer(m) else []
  }

  lemma Associate(x: seq<NLine>, y: seq<NLine>, z: seq<NLine>)
    ensures x + (y + z) == x + y + z
  {}

  lemma UpstreamsStep(out: seq<NLine>, ms: seq<Mapping>, i: nat)
    requires i < |ms|
    ensures out + Upstreams(ms[i..]) == out + UpstreamOf(ms[i]) + Upstreams(ms[i + 1..])
  {
    assert ms[i..][1..] == ms[i + 1..] && ms[i..][0] == ms[i];
    Associate(out, UpstreamOf(ms[i]), Upstreams(ms[i + 1..]));
  }

  lemma StreamsStep(out: seq<NLine>, ms: seq<Mapping>, i: nat)
    requires i < |ms|
    ensures out + StreamServers(ms[i..]) == out + StreamBlock(ms[i]) + StreamServers(ms[i + 1..])
  {
    assert ms[i..][1..] == ms[i + 1..] && ms[i..][0] == ms[i];
    Associate(out, StreamBlock(ms[i]), StreamServers(ms[i + 1..]));
  }

  lemma ServersStep(out: seq<NLine>, ms: seq<Mapping>, p: Paths, i: nat)
    requires i < |ms| && AllRenderable(ms[i..]) && Renderable(ms[i])
    ensures AllRenderable(ms[i + 1..])
    ensures out + HttpServers(ms[i..], p) == out + ServerBlock(ms[i], p) + HttpServers(ms[i + 1..], p)
  {
    assert ms[i..][1..] == ms[i + 1..] && ms[i..][0] == ms[i];
    Associate(out, ServerBlock(ms[i], p), HttpServers(ms[i + 1..], p));
  }

  /** What the three builders hold before the `i`th mapping. */
  ghost predicate Built(ms: seq<Mapping>, p: Paths, i: nat, ups: seq<NLine>, servers: seq<NLine>, streams: seq<NLine>)
    requires i <= |ms|
  {
    && AllRenderable(ms[..i])
    && Upstreams(ms) == ups + Upstreams(ms[i..])
    && StreamServers(ms) == streams + StreamServers(ms[i..])
    && (AllRenderable(ms) ==> AllRenderable(ms[i..]) && HttpServers(ms, p) == servers + HttpServers(ms[i..], p))
  }

  lemma BuiltStart(ms: seq<Mapping>, p: Paths)
    ensures Built(ms, p, 0, [], [], [])
  {
    assert ms[0..] == ms;
  }

  lemma RenderableStep(ms: seq<Mapping>, i: nat)
    requires i < |ms| && AllRenderable(ms[..i]) && Renderable(ms[i])
    ensures AllRenderable(ms[..i + 1])
  {
    assert ms[..i + 1] == ms[..i] + [ms[i]];
  }

  lemma BuiltStep(ms: seq<Mapping>, p: Paths, i: nat, ups: seq<NLine>, servers: seq<NLine>, streams: seq<NLine>)
    requires i < |ms| && Built(ms, p, i, ups, servers, streams) && Renderable(ms[i])
    ensures Built(ms, p, i + 1, ups + UpstreamOf(ms[i]), servers + ServerBlock(ms[i], p), streams + StreamBlock(ms[i]))
  {
    RenderableStep(ms, i);
    UpstreamsStep(ups, ms, i);
    StreamsStep(streams, ms, i);
    if AllRenderable(ms) { ServersStep(servers, ms, p, i); }
  }

  lemma BuiltEnd(ms: seq<Mapping>, p: Paths, ups: seq<NLine>, servers: seq<NLine>, streams: seq<NLine>)
    requires Built(ms, p, |ms|, ups, servers, streams)
    ensures AllRenderable(ms) && HttpConf(ms, p) == ups + servers + [COMMENT] && StreamConf(ms) == streams + [COMMENT]
  {
    assert ms[..|ms|] == ms && ms[|ms|..] == [];
  }

  /** `NginxEngine.Render`: one pass over the sorted mappings fills three builders. */
  method Render(ms: seq<Mapping>, p: Paths) returns (files: Option<Files>)
    ensures files.Some? <==> AllRenderable(HR.SortById(ms))
    ensures files.Some? ==> files.value == Files(Main(p), HttpConf(HR.SortById(ms), p), StreamConf(HR.SortById(ms)), FirstDecoy(HR.SortById(ms)))
  {
    var sorted := HR.SortById(ms);
    var upstreams: seq<NLine>, servers: seq<NLine>, streams: seq<NLine> := [], [], [];
    BuiltStart(sorted, p);
    for i := 0 to |sorted|
      invariant Built(sorted, p, i, upstreams, servers, streams)
    {
      var m := sorted[i];
      if !Renderable(m) {
        return None;
      }
      BuiltStep(sorted, p, i, upstreams, servers, streams);
      upstreams, servers, streams := upstreams + UpstreamOf(m), servers + ServerBlock(m, p), streams + StreamBlock(m);
    }
    BuiltEnd(sorted, p, upstreams, servers, streams);
    var decoy := DecoyFiles(sorted);
    files := Some(Files(Main(p), upstreams + servers + [COMMENT], streams + [COMMENT], decoy));
  }
}
