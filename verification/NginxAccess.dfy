/** Whom a printed nginx server lets in. */
module NginxAccess {
  import opened Text
  import opened Model
  import opened AccessLists
  import opened NginxRender
  import opened Paths
  import R = Routes
  import HR = HAProxyRender
  import N = NginxRoutes

  /** An `allow` or `deny` directive: whether it allows, and whom. */
  function ReadAccess(l: NLine): Option<(bool, string)> {
    if l.semi && |l.fields| == 2 && l.fields[0] == "allow" then Some((true, l.fields[1]))
    else if l.semi && |l.fields| == 2 && l.fields[0] == "deny" then Some((false, l.fields[1]))
    else None
  }

  predicate Covers(value: string, from: set<string>) {
    value == "all" || value in from
  }

  /** The first directive that covers the client decides; without one it is let in. */
  predicate Admits(lines: seq<NLine>, from: set<string>) {
    lines == []
    || (if ReadAccess(lines[0]).Some? && Covers(ReadAccess(lines[0]).value.1, from) then ReadAccess(lines[0]).value.0
        else Admits(lines[1..], from))
  }

  /** Lines without access directives. */
  predicate Ungated(lines: seq<NLine>) {
    forall i :: 0 <= i < |lines| ==> ReadAccess(lines[i]) == None
  }

  lemma {:induction false} UngatedRun(lines: seq<NLine>, rest: seq<NLine>, from: set<string>)
    requires Ungated(lines)
    ensures Admits(lines + rest, from) == Admits(rest, from)
  {
    if lines == [] {
      assert lines + rest == rest;
    } else {
      assert (lines + rest)[1..] == lines[1..] + rest;
      UngatedRun(lines[1..], rest, from);
    }
  }

  lemma UngatedAppend(x: seq<NLine>, y: seq<NLine>)
    requires Ungated(x) && Ungated(y)
    ensures Ungated(x + y)
  {}

  // ---- the lines around the access list ----

  lemma TlsUngated(m: Mapping, p: Paths)
    requires m.protocol == Https ==> m.sslCert.Some?
    ensures Ungated(ListenLines(m) + CertLines(m, p) + [NameLine(m)])
  {
    forall x: seq<string> ensures ReadAccess(D(["listen"] + x)) == None { assert (["listen"] + x)[0] == "listen"; }
    forall x: seq<string> ensures ReadAccess(D(["server_name"] + x)) == None { assert (["server_name"] + x)[0] == "server_name"; }
    ListenUngated(m);
    UngatedAppend(ListenLines(m), CertLines(m, p));
    UngatedAppend(ListenLines(m) + CertLines(m, p), [NameLine(m)]);
  }

  lemma ListenUngated(m: Mapping)
    ensures Ungated(ListenLines(m))
  {
    assert D(["listen", ListenAddr(m.listenIP, m.listenPort)] + TlsTokens(m)).fields[0] == "listen";
    assert D(["listen", WildcardAddr(m.listenPort)] + TlsTokens(m)).fields[0] == "listen";
  }

  lemma {:induction false} HeadersUngated(headers: seq<(string, string)>)
    ensures Ungated(ExtraHeaderLines(headers))
  {
    if headers != [] { HeadersUngated(headers[1..]); }
  }

  lemma {:induction false} ServersUngated(targets: seq<Target>, withBackup: bool)
    ensures Ungated(UpstreamServers(targets, withBackup))
  {
    if targets != [] {
      ServersUngated(targets[1..], withBackup);
      assert UpstreamServer(targets[0], withBackup).fields[0] == "server";
    }
  }

  lemma OpeningUngated(fields: seq<string>)
    ensures ReadAccess(Open(fields)) == None
  {}

  lemma RuleUpstreamUngated(m: Mapping, r: RouteRule)
    ensures Ungated(RuleUpstream(m, r))
  {
    if NeedsRuleGroup(r) {
      OpeningUngated(["upstream", RuleUpstreamName(m, r)]);
      ServersUngated(r.targets, true);
      UngatedAppend([Open(["upstream", RuleUpstreamName(m, r)])] + [], UpstreamServers(r.targets, true));
      UngatedAppend([Open(["upstream", RuleUpstreamName(m, r)])] + [] + UpstreamServers(r.targets, true), [CLOSE]);
    }
  }

  lemma RuleLocationUngated(m: Mapping, l: R.Loc)
    ensures Ungated(RuleLocation(m, l))
  {
    OpeningUngated(["location", l.path]);
    var line := ActionLine(R.NgRuleAction(m.id, l.rule));
    assert line.fields[0] == "return" || line.fields[0] == "proxy_pass";
  }

  lemma {:induction false} RulesUngated(m: Mapping, locs: seq<R.Loc>)
    ensures Ungated(RuleUpstreams(m, locs)) && Ungated(RuleLocations(m, locs))
  {
    if locs != [] {
      RulesUngated(m, locs[1..]);
      RuleUpstreamUngated(m, locs[0].rule);
      RuleLocationUngated(m, locs[0]);
      UngatedAppend(RuleUpstream(m, locs[0].rule), RuleUpstreams(m, locs[1..]));
      UngatedAppend(RuleLocation(m, locs[0]), RuleLocations(m, locs[1..]));
    }
  }

  lemma PathRouteUngated(m: Mapping, pr: PathRoute)
    ensures Ungated(PathRouteLocation(m, pr))
  {
    var head, body := [COMMENT, Open(["location", "~", RoutePattern(pr)])], N.PathRouteBody(m, pr);
    N.PathRouteParts(m, pr);
    OpeningUngated(["location", "~", RoutePattern(pr)]);
    TransportUngated();
    PassUngated(m);
    if pr.transport == XHttp {
      UngatedAppend([D(["proxy_pass", PathRoutePass(m)])], XHTTP_LINES);
      UngatedAppend([D(["proxy_pass", PathRoutePass(m)])] + XHTTP_LINES, [CLOSE, BLANK]);
    } else {
      UngatedAppend([UpgradeGuard(), D(["proxy_pass", PathRoutePass(m)])], WS_LINES);
      UngatedAppend([UpgradeGuard(), D(["proxy_pass", PathRoutePass(m)])] + WS_LINES, [CLOSE, BLANK]);
    }
    UngatedAppend(head, body);
  }

  lemma PassUngated(m: Mapping)
    ensures ReadAccess(D(["proxy_pass", PathRoutePass(m)])) == None && ReadAccess(UpgradeGuard()) == None
  {}

  lemma TransportUngated()
    ensures Ungated(WS_LINES) && Ungated(XHTTP_LINES)
  {
    forall i | 0 <= i < |WS_LINES| ensures ReadAccess(WS_LINES[i]) == None { assert WS_LINES[i].fields[0][0] == 'p'; }
    forall i | 0 <= i < |XHTTP_LINES| ensures ReadAccess(XHTTP_LINES[i]) == None { assert XHTTP_LINES[i].fields[0][0] == 'p' || XHTTP_LINES[i].fields[0][0] == 'c'; }
  }

  lemma {:induction false} PathRoutesUngated(m: Mapping, prs: seq<PathRoute>)
    ensures Ungated(PathRouteLocations(m, prs))
  {
    if prs != [] {
      PathRouteUngated(m, prs[0]);
      PathRoutesUngated(m, prs[1..]);
      UngatedAppend(PathRouteLocation(m, prs[0]), PathRouteLocations(m, prs[1..]));
    }
  }

  lemma ProxyUngated(m: Mapping, path: string)
    ensures Ungated(ProxyLocation(m, path))
  {
    OpeningUngated(["location", path]);
    forall i | 0 <= i < |HeaderLines(m)| ensures ReadAccess(HeaderLines(m)[i]) == None { assert HeaderLines(m)[i].fields[0][0] == 'p'; }
    UngatedAppend([Open(["location", path])], HeaderLines(m));
    UngatedAppend([Open(["location", path])] + HeaderLines(m), [D(["proxy_pass", ProxyPass(m)]), CLOSE]);
  }

  lemma FallbackUngated(m: Mapping)
    ensures Ungated(Fallback(m))
  {
    OpeningUngated(["location", "/"]);
  }

  lemma ServingUngated(m: Mapping)
    ensures Ungated(ServingLines(m))
  {
    if m.redirectTo == "" {
      var locs := R.Sorted(R.EnabledLocs(m.routes, true));
      PathRoutesUngated(m, m.pathRoutes);
      RulesUngated(m, locs);
      ProxyUngated(m, m.pathPrefix);
      ProxyUngated(m, "/");
      FallbackUngated(m);
      UngatedAppend(RuleUpstreams(m, locs), RuleLocations(m, locs));
      UngatedAppend(PathRouteLocations(m, m.pathRoutes), RouteRuleLines(m));
      UngatedAppend(PathRouteLocations(m, m.pathRoutes) + RouteRuleLines(m), SiteLocation(m));
      UngatedAppend(PathRouteLocations(m, m.pathRoutes) + RouteRuleLines(m) + SiteLocation(m), Fallback(m));
    }
  }

  // ---- the access list ----

  /** What validation leaves: allow or deny, and an address or a range. */
  predicate ValidAccess(rules: seq<AccessRule>) {
    forall i :: 0 <= i < |rules| ==> (rules[i].action == "allow" || rules[i].action == "deny") && rules[i].value != "all"
  }

  lemma RuleRead(r: AccessRule)
    requires r.action == "allow" || r.action == "deny"
    ensures ReadAccess(D([r.action, r.value])) == Some((r.action == "allow", r.value))
  {}

  lemma {:induction false} RulesAdmit(rules: seq<AccessRule>, rest: seq<NLine>, from: set<string>)
    requires ValidAccess(rules)
    ensures Admits(AccessLinesOf(rules) + rest, from) <==> AllowedFirst(rules, from) || (InNone(rules, from) && Admits(rest, from))
  {
    if rules == [] {
      assert AccessLinesOf(rules) + rest == rest;
    } else {
      var more := AccessLinesOf(rules[1..]) + rest;
      var line := D([rules[0].action, rules[0].value]);
      assert AccessLinesOf(rules) + rest == [line] + more;
      RuleRead(rules[0]);
      assert ([line] + more)[1..] == more;
      RulesAdmit(rules[1..], rest, from);
      FirstInCons(rules, from);
    }
  }

  lemma ClosingAdmits(m: Mapping, rest: seq<NLine>, from: set<string>)
    requires Ungated(rest)
    ensures var closing := if HR.HasAllow(m.accessRules) then [D(["deny", "all"])] else [];
      Admits(closing + rest, from) <==> !IsWhitelist(m.accessRules)
  {
    UngatedRun(rest, [], from);
    assert rest + [] == rest;
    assert HR.HasAllow(m.accessRules) <==> IsWhitelist(m.accessRules);
    var closing := if HR.HasAllow(m.accessRules) then [D(["deny", "all"])] else [];
    if HR.HasAllow(m.accessRules) {
      assert ReadAccess((closing + rest)[0]) == Some((false, "all"));
    } else {
      assert closing + rest == rest;
    }
  }

  /** A printed http server lets a client in exactly when the access list does. */
  lemma HttpEntersIff(m: Mapping, p: Paths, from: set<string>)
    requires (m.protocol == Https ==> m.sslCert.Some?) && ValidAccess(m.accessRules)
    ensures Admits(ServerBody(m, p), from) <==> MayEnter(m.accessRules, from)
  {
    var head := ListenLines(m) + CertLines(m, p) + [NameLine(m)];
    var closing := if HR.HasAllow(m.accessRules) then [D(["deny", "all"])] else [];
    var rest := ServingLines(m) + ExtraHeaderLines(m.extraHeaders);
    TlsUngated(m, p);
    ServingUngated(m);
    HeadersUngated(m.extraHeaders);
    UngatedAppend(ServingLines(m), ExtraHeaderLines(m.extraHeaders));
    BodyParts(head, AccessLinesOf(m.accessRules), closing, ServingLines(m), ExtraHeaderLines(m.extraHeaders));
    UngatedRun(head, AccessLinesOf(m.accessRules) + (closing + rest), from);
    RulesAdmit(m.accessRules, closing + rest, from);
    ClosingAdmits(m, rest, from);
  }

  lemma BodyParts(head: seq<NLine>, access: seq<NLine>, closing: seq<NLine>, serving: seq<NLine>, extra: seq<NLine>)
    ensures head + (access + closing) + serving + extra == head + (access + (closing + (serving + extra)))
  {}

  // ---- stream servers ----

  lemma StreamUngated(m: Mapping)
    ensures Ungated(StreamServer(m))
  {
    OpeningUngated(["upstream", StreamUpstreamName(m)]);
    OpeningUngated(["server"]);
    ServersUngated(m.targets, false);
    var group := [Open(["upstream", StreamUpstreamName(m)])] + StreamBalance(m) + UpstreamServers(m.targets, false) + [CLOSE];
    assert Ungated(StreamBalance(m));
    UngatedAppend([Open(["upstream", StreamUpstreamName(m)])], StreamBalance(m));
    UngatedAppend([Open(["upstream", StreamUpstreamName(m)])] + StreamBalance(m), UpstreamServers(m.targets, false));
    UngatedAppend([Open(["upstream", StreamUpstreamName(m)])] + StreamBalance(m) + UpstreamServers(m.targets, false), [CLOSE]);
    UngatedAppend([COMMENT], group);
    StreamServerUngated(m);
    UngatedAppend([COMMENT] + group, [Open(["server"])] + StreamBody(m) + [CLOSE]);
    UngatedAppend([COMMENT] + group + ([Open(["server"])] + StreamBody(m) + [CLOSE]), [BLANK]);
  }

  lemma StreamServerUngated(m: Mapping)
    ensures Ungated([Open(["server"])] + StreamBody(m) + [CLOSE])
  {
    OpeningUngated(["server"]);
    assert StreamListenLine(m).fields[0] == "listen";
  }

  /** A printed tcp or udp server of nginx lets everybody in, so it honours the access list
      exactly when that is empty. */
  lemma StreamHonoursIff(m: Mapping)
    ensures forall from :: Admits(StreamServer(m), from)
    ensures (forall from :: Admits(StreamServer(m), from) <==> MayEnter(m.accessRules, from)) <==> m.accessRules == []
  {
    StreamUngated(m);
    forall from ensures Admits(StreamServer(m), from) {
      UngatedRun(StreamServer(m), [], from);
      assert StreamServer(m) + [] == StreamServer(m);
    }
    OpenToAllIff(m.accessRules);
  }

  // ---- what is answered before the list is looked at ----

  /** nginx answers a `return` before it looks at access directives. */
  predicate Returns(lines: seq<NLine>) {
    lines != [] && lines[0].semi && lines[0].fields != [] && lines[0].fields[0] == "return"
  }

  /** The client is refused a path: it is not let in, and neither the server nor the
      location that serves the path returns at once. */
  ghost predicate Refuses(m: Mapping, p: Paths, path: string, from: set<string>)
    requires m.protocol == Https ==> m.sslCert.Some?
  {
    !Admits(ServerBody(m, p), from) && !Returns(ServingLines(m)) && exists b :: N.Serves(ServingLines(m), path, b) && !Returns(b.body)
  }

  /** Redirects are for everybody: those of a whole mapping, and those of a rule on a block
      nginx loads. */
  lemma RedirectsSkipTheList(m: Mapping, p: Paths, path: string, from: set<string>, r: RouteRule)
    requires m.protocol == Https ==> m.sslCert.Some?
    ensures m.redirectTo != "" ==> !Refuses(m, p, path, from)
    ensures N.Accepts(ServingLines(m)) && N.Enabled(m, r) && r.redirect != "" && N.Serves(ServingLines(m), path, N.BlockOf(m, r)) ==>
      !Refuses(m, p, path, from)
  {
    assert Returns(N.BlockOf(m, r).body) <==> r.redirect != "";
    if N.Accepts(ServingLines(m)) && N.Serves(ServingLines(m), path, N.BlockOf(m, r)) {
      forall b | N.Serves(ServingLines(m), path, b) ensures b == N.BlockOf(m, r) { N.ServesOne(ServingLines(m), path, b, N.BlockOf(m, r)); }
    }
  }

  lemma FirstPart(x: seq<NLine>, y: seq<NLine>)
    requires !Returns(x) && !Returns(y)
    ensures !Returns(x + y)
  {
    if x == [] { assert x + y == y; }
  }

  lemma RulesReturnNot(m: Mapping, locs: seq<R.Loc>)
    ensures !Returns(RuleUpstreams(m, locs)) && !Returns(RuleLocations(m, locs))
    decreases |locs|
  {
    if locs != [] {
      RulesReturnNot(m, locs[1..]);
      FirstPart(RuleUpstream(m, locs[0].rule), RuleUpstreams(m, locs[1..]));
      FirstPart(RuleLocation(m, locs[0]), RuleLocations(m, locs[1..]));
    }
  }

  lemma RouteRulesReturnNot(m: Mapping)
    ensures !Returns(RouteRuleLines(m))
  {
    var locs := R.Sorted(R.EnabledLocs(m.routes, true));
    RulesReturnNot(m, locs);
    FirstPart(RuleUpstreams(m, locs), RuleLocations(m, locs));
  }

  /** Only a mapping that redirects as a whole returns for its server. */
  lemma ServerReturnsNot(m: Mapping)
    requires m.redirectTo == ""
    ensures !Returns(ServingLines(m))
  {
    RouteRulesReturnNot(m);
    FirstPart(PathRouteLocations(m, m.pathRoutes), RouteRuleLines(m));
    FirstPart(PathRouteLocations(m, m.pathRoutes) + RouteRuleLines(m), SiteLocation(m));
    FirstPart(PathRouteLocations(m, m.pathRoutes) + RouteRuleLines(m) + SiteLocation(m), Fallback(m));
  }

  /** A rule that proxies is for exactly those the list lets in. */
  lemma ProxiesKeepTheList(m: Mapping, p: Paths, path: string, from: set<string>, r: RouteRule)
    requires (m.protocol == Https ==> m.sslCert.Some?) && ValidAccess(m.accessRules) && m.redirectTo == ""
    requires N.Enabled(m, r) && r.redirect == "" && N.Serves(ServingLines(m), path, N.BlockOf(m, r))
    ensures Refuses(m, p, path, from) <==> !MayEnter(m.accessRules, from)
  {
    HttpEntersIff(m, p, from);
    ServerReturnsNot(m);
    assert N.BlockOf(m, r).body[0].fields[0] == "proxy_pass";
  }
}
