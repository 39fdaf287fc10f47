/** Rendering mappings as nginx configuration, parsing it and converting it back gives
    the mappings again. */
module NginxRoundTrip {
  import opened Text
  import opened Model
  import opened Import
  import opened NginxRender
  import opened NginxParser
  import opened NginxBlocks
  import opened NginxGroups
  import opened NginxServers
  import HR = HAProxyRender
  import R = Routes
  import N = NginxRoutes
  import Paths

  // ---- conversion ----

  /** Targets as an import writes them: weights and backup marks are not read back. */
  function PlainTargets(targets: seq<Target>): seq<Target> {
    if targets == [] then [] else [Target(targets[0].host, targets[0].port, 0, false)] + PlainTargets(targets[1..])
  }

  lemma {:induction false} HostsReadBack(targets: seq<Target>)
    requires PlainTargetsOnly(targets)
    ensures ParseHosts(HostPorts(targets)) == PlainTargets(targets)
    decreases |targets|
  {
    if targets != [] {
      assert PlainTarget(targets[0]);
      HostPortReadsBack(targets[0]);
      HostsReadBack(targets[1..]);
      assert HostPorts(targets)[1..] == HostPorts(targets[1..]);
    }
  }

  lemma ResolveName(name: string, ups: map<string, seq<string>>)
    requires '/' !in name
    ensures Resolve("http://" + name, ups)
      == if name in ups then ParseHosts(ups[name]) else match ParseHostPort(name) case Some(t) => [t] case None => []
    ensures Resolve(name, ups)
      == if name in ups then ParseHosts(ups[name]) else match ParseHostPort(name) case Some(t) => [t] case None => []
  {
    SchemeGone(name);
    PlainPassName(name);
  }

  lemma RouteHostIsPlain(m: Mapping)
    requires PlainTargetsOnly(m.targets)
    ensures '/' !in PathRouteHost(m)
  {
    if m.targets != [] && m.targets[0].host != "" {
      assert PlainTarget(m.targets[0]);
    } else {
      var local := "127.0.0.1";
      forall i | 0 <= i < |local| ensures local[i] != '/' {}
    }
  }

  lemma DeadEndResolves(m: Mapping, ups: map<string, seq<string>>)
    requires NoColonKeys(ups) && PlainTargetsOnly(m.targets)
    ensures Resolve(PathRoutePass(m), ups) == []
  {
    var host := PathRouteHost(m);
    var name := host + ":" + PORT_VARIABLE;
    RouteHostIsPlain(m);
    assert '/' !in PORT_VARIABLE;
    assert name[|host|] == ':';
    ResolveName(name, ups);
    VariablePort(host);
  }

  lemma PlainIsProper(ms: seq<Mapping>)
    requires AllPlain(ms)
    ensures AllProper(ms)
  {}

  /** A group is resolved to its targets. */
  lemma GroupResolves(ms: seq<Mapping>, i: nat, kind: Kind, g: Group)
    requires i < |ms| && DistinctIds(ms) && AllPlain(ms) && g in GroupsOf(ms[i], kind) && PlainTargetsOnly(g.targets) && '/' !in g.name
    ensures Resolve("http://" + g.name, AllGroups(ms)) == PlainTargets(g.targets)
    ensures Resolve(g.name, AllGroups(ms)) == PlainTargets(g.targets)
  {
    PlainIsProper(ms);
    FindsGroup(ms, i, kind, g);
    HostsReadBack(g.targets);
    ResolveName(g.name, AllGroups(ms));
  }

  const NO_RULE := RouteRule(0, "", true, [], "")

  /** Without a group a name resolves to nothing. */
  lemma NothingResolves(ms: seq<Mapping>, name: string)
    requires Lookup(AllGroups(ms), name) == None && ':' !in name && '/' !in name
    ensures Resolve("http://" + name, AllGroups(ms)) == [] && Resolve(name, AllGroups(ms)) == []
  {
    NoPort(name);
    ResolveName(name, AllGroups(ms));
  }

  lemma SiteResolves(ms: seq<Mapping>, i: nat)
    requires i < |ms| && DistinctIds(ms) && AllPlain(ms) && HttpRendered(ms[i]) && ms[i].redirectTo == ""
    requires PlainTargetsOnly(ms[i].targets)
    ensures Resolve(ProxyPass(ms[i]), AllGroups(ms)) == PlainTargets(ms[i].targets)
  {
    var m := ms[i];
    PlainIsProper(ms);
    PlainNames(m, NO_RULE);
    if |m.targets| == 1 {
      SingleResolves(ms, m.targets);
    } else if m.targets == [] {
      FindsNoGroup(ms, i, HttpKind, HttpUpstreamName(m));
      NothingResolves(ms, HttpUpstreamName(m));
    } else {
      GroupResolves(ms, i, HttpKind, Group(HttpUpstreamName(m), m.targets));
    }
  }

  lemma SingleResolves(ms: seq<Mapping>, targets: seq<Target>)
    requires |targets| == 1 && PlainTargetsOnly(targets) && AllPlain(ms)
    ensures Resolve("http://" + HostPort(targets[0]), AllGroups(ms)) == PlainTargets(targets)
  {
    var t := targets[0];
    PlainIsProper(ms);
    GroupsHaveNoColon(ms);
    assert t in targets && PlainTarget(t);
    DecDigits(t.port);
    HostPortReadsBack(t);
    assert HostPort(t)[|t.host|] == ':';
    ResolveName(HostPort(t), AllGroups(ms));
    OnePlainTarget(targets);
  }

  lemma OnePlainTarget(targets: seq<Target>)
    requires |targets| == 1
    ensures PlainTargets(targets) == [Target(targets[0].host, targets[0].port, 0, false)]
  {
    assert PlainTargets(targets[1..]) == [];
  }

  lemma StreamResolves(ms: seq<Mapping>, i: nat)
    requires i < |ms| && DistinctIds(ms) && AllPlain(ms) && StreamRendered(ms[i]) && PlainTargetsOnly(ms[i].targets)
    ensures Resolve(StreamUpstreamName(ms[i]), AllGroups(ms)) == PlainTargets(ms[i].targets)
  {
    var m := ms[i];
    PlainIsProper(ms);
    PlainNames(m, NO_RULE);
    if m.targets == [] {
      FindsNoGroup(ms, i, StreamKind, StreamUpstreamName(m));
      NothingResolves(ms, StreamUpstreamName(m));
    } else {
      GroupResolves(ms, i, StreamKind, Group(StreamUpstreamName(m), m.targets));
    }
  }

  /** A proxying rule's location leads to the rule's targets. */
  lemma RuleResolves(ms: seq<Mapping>, i: nat, l: R.Loc)
    requires i < |ms| && DistinctIds(ms) && AllPlain(ms) && HttpRendered(ms[i]) && ms[i].redirectTo == ""
    requires PlainRoutes(ms[i].routes) && l in SortedLocs(ms[i]) && l.rule.redirect == ""
    ensures LeadsTo(RuleLocationOf(ms[i], l), AllGroups(ms)) == PlainTargets(l.rule.targets) != []
  {
    var m, r := ms[i], l.rule;
    SortedLocsProper(m);
    assert r in m.routes && r.targets != [];
    assert "http://"[0] == 'h';
    if |r.targets| == 1 {
      SingleResolves(ms, r.targets);
    } else {
      PlainNames(m, r);
      var k :| 0 <= k < |SortedLocs(m)| && SortedLocs(m)[k] == l;
      var g := Group(RuleUpstreamName(m, r), r.targets);
      assert FromLoc(g, m, SortedLocs(m));
      RuleGroupsMembers(m, SortedLocs(m), g);
      GroupResolves(ms, i, RuleKind, g);
    }
  }

  ghost predicate LeadNowhere(ls: seq<Location>, ups: map<string, seq<string>>) {
    forall i :: 0 <= i < |ls| ==> LeadsTo(ls[i], ups) == []
  }

  lemma NowhereSplits(ls: seq<Location>, ups: map<string, seq<string>>)
    requires ls != [] && LeadNowhere(ls, ups)
    ensures LeadsTo(ls[0], ups) == [] && LeadNowhere(ls[1..], ups)
  {}

  lemma FirstProxyCons(l: Location, rest: seq<Location>, ups: map<string, seq<string>>)
    ensures FirstProxy([l] + rest, ups) == if LeadsTo(l, ups) != [] then Some((l, LeadsTo(l, ups))) else FirstProxy(rest, ups)
  {
    assert ([l] + rest)[1..] == rest;
  }

  lemma {:induction false} SkipDeadEnds(before: seq<Location>, rest: seq<Location>, ups: map<string, seq<string>>)
    requires LeadNowhere(before, ups)
    ensures FirstProxy(before + rest, ups) == FirstProxy(rest, ups)
    decreases |before|
  {
    if before == [] {
      assert before + rest == rest;
    } else {
      NowhereSplits(before, ups);
      SkipDeadEnds(before[1..], rest, ups);
      FirstProxyCons(before[0], before[1..] + rest, ups);
      Regroup([before[0]], before[1..], rest);
      assert [before[0]] + before[1..] == before;
    }
  }

  lemma DeadEndsLeadNowhere(ls: seq<Location>, m: Mapping, ups: map<string, seq<string>>)
    requires DeadEnds(ls, m) && Resolve(PathRoutePass(m), ups) == []
    ensures LeadNowhere(ls, ups)
  {}

  lemma SiteLeads(m: Mapping, ups: map<string, seq<string>>)
    requires Resolve(ProxyPass(m), ups) == PlainTargets(m.targets)
    ensures LeadsTo(SiteOf(m), ups) == PlainTargets(m.targets)
  {
    assert "http://"[0] == 'h';
    assert ProxyPass(m) != "";
  }

  /** The first rule that proxies, in printed order. */
  function FirstProxying(locs: seq<R.Loc>): Option<R.Loc> {
    if locs == [] then None else if locs[0].rule.redirect == "" then Some(locs[0]) else FirstProxying(locs[1..])
  }

  /** What the import finds behind the site location. */
  function SiteProxy(m: Mapping): Option<(Location, seq<Target>)> {
    if m.targets != [] then Some((SiteOf(m), PlainTargets(m.targets))) else None
  }

  /** What it finds behind all of a mapping's locations. */
  function ProxyFor(m: Mapping): Option<(Location, seq<Target>)> {
    match FirstProxying(SortedLocs(m))
    case Some(l) => Some((RuleLocationOf(m, l), PlainTargets(l.rule.targets)))
    case None => SiteProxy(m)
  }

  lemma SiteFirst(m: Mapping, after: seq<Location>, ups: Ups)
    requires FirstProxy(after, ups) == None && LeadsTo(SiteOf(m), ups) == PlainTargets(m.targets)
    ensures FirstProxy(Site(m) + after, ups) == SiteProxy(m)
  {
    if Site(m) == [] {
      assert Site(m) + after == after;
    } else {
      FirstProxyCons(SiteOf(m), after, ups);
    }
  }

  /** The rules' locations lead where the rules say. */
  ghost predicate RulesLead(m: Mapping, locs: seq<R.Loc>, ups: Ups) {
    forall i :: 0 <= i < |locs| ==> RuleLeads(m, locs[i], ups)
  }

  ghost predicate RuleLeads(m: Mapping, l: R.Loc, ups: Ups) {
    if l.rule.redirect != "" then LeadsTo(RuleLocationOf(m, l), ups) == []
    else LeadsTo(RuleLocationOf(m, l), ups) == PlainTargets(l.rule.targets) != []
  }

  lemma RulesLeadTail(m: Mapping, locs: seq<R.Loc>, ups: Ups)
    requires locs != [] && RulesLead(m, locs, ups)
    ensures RuleLeads(m, locs[0], ups) && RulesLead(m, locs[1..], ups)
  {
    forall i | 0 <= i < |locs[1..]| ensures locs[1..][i] == locs[i + 1] {}
  }

  lemma {:induction false} RulesFirst(m: Mapping, locs: seq<R.Loc>, rest: seq<Location>, ups: Ups)
    requires RulesLead(m, locs, ups)
    ensures FirstProxy(RuleLocationsOf(m, locs) + rest, ups)
      == match FirstProxying(locs)
         case Some(l) => Some((RuleLocationOf(m, l), PlainTargets(l.rule.targets)))
         case None => FirstProxy(rest, ups)
    decreases |locs|
  {
    if locs == [] {
      assert RuleLocationsOf(m, locs) + rest == rest;
    } else {
      var l, tail := RuleLocationOf(m, locs[0]), RuleLocationsOf(m, locs[1..]);
      RulesLeadTail(m, locs, ups);
      RulesFirst(m, locs[1..], rest, ups);
      FirstProxyCons(l, tail + rest, ups);
      Regroup([l], tail, rest);
    }
  }

  /** The way out of a mapping's locations is its first proxying rule, or its own site. */
  lemma FirstProxyFor(ls: seq<Location>, m: Mapping, ups: Ups)
    requires LocationsFor(ls, m) && Resolve(PathRoutePass(m), ups) == [] && LeadsTo(SiteOf(m), ups) == PlainTargets(m.targets)
    requires RulesLead(m, SortedLocs(m), ups)
    ensures FirstProxy(ls, ups) == ProxyFor(m)
  {
    var rules := RuleLocationsOf(m, SortedLocs(m));
    var before, after :| ls == before + (rules + Site(m)) + after && DeadEnds(before, m) && DeadEnds(after, m);
    DeadEndsLeadNowhere(before, m, ups);
    DeadEndsLeadNowhere(after, m, ups);
    Regroup(before, rules + Site(m), after);
    Regroup(rules, Site(m), after);
    SkipDeadEnds(before, rules + Site(m) + after, ups);
    SkipDeadEnds(after, [], ups);
    assert after + [] == after;
    SiteFirst(m, after, ups);
    RulesFirst(m, SortedLocs(m), Site(m) + after, ups);
  }

  lemma Regroup(x: seq<Location>, y: seq<Location>, z: seq<Location>)
    ensures x + y + z == x + (y + z)
  {}

  /** The targets an import gets back: those of the first proxying rule, or the mapping's own. */
  function KeptTargets(m: Mapping): seq<Target> {
    if m.redirectTo != "" then []
    else match FirstProxying(SortedLocs(m))
      case Some(l) => PlainTargets(l.rule.targets)
      case None => PlainTargets(m.targets)
  }

  function KeptPath(path: string): string {
    if path == "/" then "" else path
  }

  /** And the path prefix: where those targets are served, unless that is everywhere. */
  function KeptPrefix(m: Mapping): string {
    if m.redirectTo != "" then ""
    else match FirstProxying(SortedLocs(m))
      case Some(l) => KeptPath(l.path)
      case None => if m.targets != [] then KeptPath(m.pathPrefix) else ""
  }

  /** What an import gets back of an http mapping. */
  function Recovered(m: Mapping): Candidate {
    Candidate("", false, Nginx, m.protocol, "0.0.0.0", m.listenPort, WithoutUnderscore(m.serverNames), m.redirectTo,
              KeptTargets(m), "", KeptPrefix(m))
  }

  /** And of a stream mapping: udp comes back as tcp. */
  function RecoveredStream(m: Mapping): Candidate {
    Candidate("", false, Nginx, Tcp, "0.0.0.0", m.listenPort, [], "", PlainTargets(m.targets), "", "")
  }

  predicate Incomplete(m: Mapping) {
    m.redirectTo == "" && m.targets == [] && FirstProxying(SortedLocs(m)) == None
  }

  function HttpSection(m: Mapping): string {
    "http :" + Dec(m.listenPort) + " (" + Join(WithoutUnderscore(m.serverNames), ",") + ")"
  }

  function TakeMapping(c: Converted, m: Mapping): Converted {
    if IsHttp(m) then Take(c, "imported-nginx-" + Dec(m.listenPort), Recovered(m), Incomplete(m), HttpSection(m))
    else Take(c, "imported-stream-" + Dec(m.listenPort), RecoveredStream(m), m.targets == [], "stream :" + Dec(m.listenPort))
  }

  function Reimport(c: Converted, ms: seq<Mapping>): Converted
    decreases |ms|
  {
    if ms == [] then c else Reimport(TakeMapping(c, ms[0]), ms[1..])
  }

  lemma AllRulesLead(all: seq<Mapping>, i: nat)
    requires i < |all| && DistinctIds(all) && AllPlain(all) && HttpRendered(all[i]) && PlainMapping(all[i]) && all[i].redirectTo == ""
    ensures RulesLead(all[i], SortedLocs(all[i]), AllGroups(all))
  {
    var m := all[i];
    forall k | 0 <= k < |SortedLocs(m)| ensures RuleLeads(m, SortedLocs(m)[k], AllGroups(all)) {
      assert SortedLocs(m)[k] in SortedLocs(m);
      if SortedLocs(m)[k].rule.redirect == "" { RuleResolves(all, i, SortedLocs(m)[k]); }
    }
  }

  lemma ProxyOf(s: Server, all: seq<Mapping>, i: nat)
    requires i < |all| && DistinctIds(all) && AllPlain(all) && HttpRendered(all[i]) && PlainMapping(all[i]) && ServerFor(s, all[i])
    ensures FirstProxy(s.locations, AllGroups(all))
      == if all[i].redirectTo == "" then ProxyFor(all[i]) else None
  {
    if all[i].redirectTo == "" {
      PlainIsProper(all);
      GroupsHaveNoColon(all);
      DeadEndResolves(all[i], AllGroups(all));
      SiteResolves(all, i);
      SiteLeads(all[i], AllGroups(all));
      AllRulesLead(all, i);
      FirstProxyFor(s.locations, all[i], AllGroups(all));
    }
  }

  lemma ServerFields(s: Server, m: Mapping)
    requires ServerFor(s, m)
    ensures !s.isDefault && s.port == m.listenPort && s.names == WithoutUnderscore(m.serverNames)
    ensures s.ssl == (m.protocol == Https) && s.redirect == m.redirectTo
  {}

  lemma {:induction false} FirstProxyingIn(locs: seq<R.Loc>)
    ensures match FirstProxying(locs)
      case Some(l) => l in locs && l.rule.redirect == ""
      case None => forall x :: x in locs ==> x.rule.redirect != ""
  {
    if locs != [] {
      FirstProxyingIn(locs[1..]);
      assert locs == [locs[0]] + locs[1..];
    }
  }

  lemma CandidateFor(s: Server, m: Mapping, ups: Ups)
    requires ServerFor(s, m) && IsHttp(m)
    requires FirstProxy(s.locations, ups)
      == if m.redirectTo == "" then ProxyFor(m) else None
    ensures HttpCandidate(s, ups) == Recovered(m) && HttpUnclear(s, ups) == Incomplete(m)
  {
    ServerFields(s, m);
  }

  lemma ServerGivesMapping(s: Server, all: seq<Mapping>, i: nat, c: Converted)
    requires i < |all| && DistinctIds(all) && AllPlain(all) && HttpRendered(all[i]) && PlainMapping(all[i]) && ServerFor(s, all[i])
    ensures TakeHttp(c, s, AllGroups(all)) == TakeMapping(c, all[i])
  {
    ProxyOf(s, all, i);
    CandidateFor(s, all[i], AllGroups(all));
    ServerFields(s, all[i]);
  }

  lemma StreamGivesMapping(all: seq<Mapping>, i: nat, c: Converted)
    requires i < |all| && DistinctIds(all) && AllPlain(all) && StreamRendered(all[i]) && PlainMapping(all[i])
    ensures TakeStream(c, StreamServerOf(all[i]), AllGroups(all)) == TakeMapping(c, all[i])
  {
    StreamResolves(all, i);
  }

  /** The list is a part of `all`, in order or not. */
  ghost predicate Within(ms: seq<Mapping>, all: seq<Mapping>) {
    forall i :: 0 <= i < |ms| ==> ms[i] in all
  }

  lemma {:induction false} TakesAllHttp(c: Converted, ss: seq<Server>, ms: seq<Mapping>, all: seq<Mapping>)
    requires DistinctIds(all) && AllPlain(all) && Within(ms, all) && ServersFor(ss, ms)
    requires forall i :: 0 <= i < |ms| ==> HttpRendered(ms[i])
    ensures TakeAllHttp(c, ss, AllGroups(all)) == Reimport(c, ms)
    decreases |ss|
  {
    if ss != [] {
      assert ms[0] in all;
      var i :| 0 <= i < |all| && all[i] == ms[0];
      assert ServerFor(ss[0], ms[0]) && PlainMapping(all[i]);
      ServerGivesMapping(ss[0], all, i, c);
      TakesAllHttp(TakeMapping(c, ms[0]), ss[1..], ms[1..], all);
    }
  }

  lemma StreamListsStep(ms: seq<Mapping>)
    requires ms != []
    ensures StreamServersOf(ms) == (if StreamRendered(ms[0]) then [StreamServerOf(ms[0])] else []) + StreamServersOf(ms[1..])
    ensures StreamOf(ms) == (if StreamRendered(ms[0]) then [ms[0]] else []) + StreamOf(ms[1..])
    ensures !StreamRendered(ms[0]) ==> StreamServersOf(ms) == StreamServersOf(ms[1..]) && StreamOf(ms) == StreamOf(ms[1..])
  {}

  lemma TakeStreamStep(c: Converted, s: Server, rest: seq<Server>, ups: map<string, seq<string>>)
    ensures TakeAllStream(c, [s] + rest, ups) == TakeAllStream(TakeStream(c, s, ups), rest, ups)
  {
    assert ([s] + rest)[1..] == rest;
  }

  lemma ReimportStep(c: Converted, m: Mapping, rest: seq<Mapping>)
    ensures Reimport(c, [m] + rest) == Reimport(TakeMapping(c, m), rest)
  {
    assert ([m] + rest)[1..] == rest;
  }

  lemma {:induction false} TakesAllStream(c: Converted, ms: seq<Mapping>, all: seq<Mapping>)
    requires DistinctIds(all) && AllPlain(all) && Within(ms, all)
    ensures TakeAllStream(c, StreamServersOf(ms), AllGroups(all)) == Reimport(c, StreamOf(ms))
    decreases |ms|
  {
    if ms != [] {
      var m := ms[0];
      assert m in all;
      var i :| 0 <= i < |all| && all[i] == m;
      assert Within(ms[1..], all);
      StreamListsStep(ms);
      if StreamRendered(m) {
        assert PlainMapping(all[i]);
        StreamGivesMapping(all, i, c);
        TakesAllStream(TakeMapping(c, m), ms[1..], all);
        TakeStreamStep(c, StreamServerOf(m), StreamServersOf(ms[1..]), AllGroups(all));
        ReimportStep(c, m, StreamOf(ms[1..]));
      } else {
        TakesAllStream(c, ms[1..], all);
      }
    }
  }

  lemma {:induction false} HttpOfWithin(ms: seq<Mapping>, all: seq<Mapping>)
    requires Within(ms, all)
    ensures Within(HttpOf(ms), all) && forall i :: 0 <= i < |HttpOf(ms)| ==> HttpRendered(HttpOf(ms)[i])
  {
    if ms != [] {
      assert ms[0] in all && Within(ms[1..], all);
      HttpOfWithin(ms[1..], all);
    }
  }

  // ---- the whole way ----

  /** With the includes expanded, printing the mappings, parsing the file and converting
      it back recovers every rendered mapping: the http ones in id order, then the stream
      ones in id order. */
  lemma RoundTrip(ms: seq<Mapping>, paths: Paths.Paths, taken: set<string>)
    requires DistinctIds(ms) && forall m :: m in ms && Rendered(m) ==> Renderable(m) && PlainMapping(m)
    ensures Expanded(ms, paths).Some?
    ensures ToMappings(Run(START, Expanded(ms, paths).value).sites, taken)
      == Reimport(Reimport(Converted([], [], taken), HttpOf(HR.SortById(ms))), StreamOf(HR.SortById(ms)))
  {
    var sorted := HR.SortById(ms);
    var c := Converted([], [], taken);
    forall i | 0 <= i < |sorted| ensures Renderable(sorted[i]) && (Rendered(sorted[i]) ==> PlainMapping(sorted[i])) {
      HR.SortByIdMembers(ms, sorted[i]);
    }
    HR.SortKeepsDistinct(ms);
    var ss := ConfigRun(ms, paths);
    HttpOfWithin(sorted, sorted);
    TakesAllHttp(c, ss, HttpOf(sorted), sorted);
    TakesAllStream(Reimport(c, HttpOf(sorted)), sorted, sorted);
  }

  // ---- whose targets come back ----

  /** An enabled rule that proxies. */
  ghost predicate Proxies(m: Mapping, r: RouteRule) {
    r in m.routes && r.enabled && r.redirect == ""
  }

  lemma InSortedLocs(m: Mapping, r: RouteRule)
    requires r in m.routes && r.enabled
    ensures exists l :: l in SortedLocs(m) && l.rule == r && l.path == R.NginxPath(r.path)
  {
    var l := R.Loc(R.NginxPath(r.path), r);
    SortedLocMembers(m, l);
  }

  lemma NoneProxiesIff(m: Mapping)
    requires PlainRoutes(m.routes)
    ensures FirstProxying(SortedLocs(m)) == None <==> forall r :: !Proxies(m, r)
  {
    FirstProxyingIn(SortedLocs(m));
    SortedLocsProper(m);
    if FirstProxying(SortedLocs(m)) == None {
      forall r | r in m.routes && r.enabled ensures r.redirect != "" {
        InSortedLocs(m, r);
        var l :| l in SortedLocs(m) && l.rule == r;
      }
    } else {
      assert Proxies(m, FirstProxying(SortedLocs(m)).value.rule);
    }
  }

  lemma {:induction false} FirstProxyingIsLongest(locs: seq<R.Loc>)
    requires R.Descending(locs)
    ensures FirstProxying(locs).Some? ==>
      forall x :: x in locs && x.rule.redirect == "" ==> |x.path| <= |FirstProxying(locs).value.path|
  {
    if locs != [] {
      R.DescendingTail(locs);
      FirstProxyingIsLongest(locs[1..]);
    }
  }

  /** An enabled proxying rule with no longer prefix beside it. */
  ghost predicate LongestProxy(m: Mapping, r: RouteRule) {
    Proxies(m, r) && forall q :: Proxies(m, q) ==> |R.NginxPath(q.path)| <= |R.NginxPath(r.path)|
  }

  /** The re-imported mapping has the rule's targets and its prefix. */
  ghost predicate ComesBack(m: Mapping, r: RouteRule) {
    Recovered(m).targets == PlainTargets(r.targets) && Recovered(m).pathPrefix == KeptPath(R.NginxPath(r.path))
  }

  /** With proxying rules, what comes back belongs to the one with the longest prefix. */
  lemma LongestProxyComesBack(m: Mapping)
    requires PlainRoutes(m.routes) && m.redirectTo == ""
    ensures (exists r :: Proxies(m, r)) ==> exists r :: LongestProxy(m, r) && ComesBack(m, r)
  {
    NoneProxiesIff(m);
    if exists r :: Proxies(m, r) {
      FirstProxyingIn(SortedLocs(m));
      SortedLocsProper(m);
      R.SortedDescends(R.EnabledLocs(m.routes, true));
      FirstProxyingIsLongest(SortedLocs(m));
      var l := FirstProxying(SortedLocs(m)).value;
      forall q | Proxies(m, q) ensures |R.NginxPath(q.path)| <= |l.path| {
        InSortedLocs(m, q);
        var x :| x in SortedLocs(m) && x.rule == q && x.path == R.NginxPath(q.path);
      }
      assert LongestProxy(m, l.rule) && ComesBack(m, l.rule);
    }
  }

  /** The re-imported mapping has the targets and the path prefix it was printed from. */
  ghost predicate OwnComesBack(m: Mapping) {
    Recovered(m).targets == PlainTargets(m.targets) && Recovered(m).pathPrefix == KeptPath(m.pathPrefix)
  }

  lemma RuleIsNotSite(m: Mapping, r: RouteRule)
    requires PlainRoutes(m.routes) && m.redirectTo == "" && N.Accepts(ServingLines(m)) && Proxies(m, r)
    ensures m.targets != [] ==> KeptPath(R.NginxPath(r.path)) != KeptPath(m.pathPrefix)
  {
    N.AcceptsIff(m);
    assert N.RulePath(m.routes, R.NginxPath(r.path));
    assert r.path != "" && R.NginxPath(r.path) != "";
  }

  lemma SomeTargets(targets: seq<Target>)
    ensures PlainTargets(targets) == [] <==> targets == []
  {}

  /** Of a block nginx loads, a mapping's own targets and prefix come back exactly when no
      enabled rule proxies, and there are targets to keep the prefix for. */
  lemma OwnTargetsComeBackIff(m: Mapping)
    requires PlainRoutes(m.routes) && m.redirectTo == "" && N.Accepts(ServingLines(m))
    ensures OwnComesBack(m) <==> (forall r :: !Proxies(m, r)) && (m.targets != [] || KeptPath(m.pathPrefix) == "")
  {
    NoneProxiesIff(m);
    FirstProxyingIn(SortedLocs(m));
    SortedLocsProper(m);
    var first := FirstProxying(SortedLocs(m));
    if first.Some? {
      var r := first.value.rule;
      assert Proxies(m, r);
      RuleIsNotSite(m, r);
      SomeTargets(r.targets);
    }
  }

  const OWN := Target("10.0.0.1", 8080, 0, false)
  const OTHER := Target("10.0.0.2", 9000, 0, false)

  /** A rule `/api` takes the place of the whole site. */
  lemma RuleReplacesSite()
    ensures var m := N.SITE.(targets := [OWN], routes := [RouteRule(1, "/api", true, [OTHER], "")]);
      N.Accepts(ServingLines(m)) && Recovered(m).targets == [OTHER] && Recovered(m).pathPrefix == "/api"
  {
    var r := RouteRule(1, "/api", true, [OTHER], "");
    var m := N.SITE.(targets := [OWN], routes := [r]);
    assert m.routes[0] == r && forall x :: x in m.routes ==> x == r;
    assert R.NginxPath("/api") == "/api";
    N.AcceptsIff(m);
    OneLoc(r);
    assert SortedLocs(m) == [R.Loc("/api", r)];
    OnePlainTarget([OTHER]);
  }

  lemma OneLoc(r: RouteRule)
    requires r.enabled
    ensures R.Sorted(R.EnabledLocs([r], true)) == [R.Loc(R.NginxPath(r.path), r)]
  {
    var l := R.Loc(R.NginxPath(r.path), r);
    assert [r][1..] == [] && R.EnabledLocs([r], true) == [l];
    assert [l][..0] == [] && R.Sorted([l]) == R.Insert([], l);
  }

  function RecoveredOf(m: Mapping): Candidate {
    if IsHttp(m) then Recovered(m) else RecoveredStream(m)
  }

  function AllRecovered(ms: seq<Mapping>): seq<Candidate> {
    if ms == [] then [] else [RecoveredOf(ms[0])] + AllRecovered(ms[1..])
  }

  function Reports(m: Mapping): seq<Issue> {
    if !Incomplete(m) && IsHttp(m) then []
    else if IsHttp(m) then [Issue(HttpSection(m))]
    else if m.targets == [] then [Issue("stream :" + Dec(m.listenPort))]
    else []
  }

  function AllReported(ms: seq<Mapping>): seq<Issue> {
    if ms == [] then [] else Reports(ms[0]) + AllReported(ms[1..])
  }

  lemma TakeContents(c: Converted, base: string, candidate: Candidate, unclear: bool, section: string)
    requires candidate.name == ""
    ensures var d := Take(c, base, candidate, unclear, section);
      Anonymous(d.out) == Anonymous(c.out) + [candidate] && d.issues == c.issues + (if unclear then [Issue(section)] else [])
  {
    var named := candidate.(name := UniqueName(base, c.taken));
    AnonymousAppend(c.out, [named]);
    assert Anonymous([named]) == [candidate] + Anonymous([]);
  }

  lemma TakeMappingContents(c: Converted, m: Mapping)
    ensures Anonymous(TakeMapping(c, m).out) == Anonymous(c.out) + [RecoveredOf(m)]
    ensures TakeMapping(c, m).issues == c.issues + Reports(m)
  {
    if IsHttp(m) {
      TakeContents(c, "imported-nginx-" + Dec(m.listenPort), Recovered(m), Incomplete(m), HttpSection(m));
    } else {
      TakeContents(c, "imported-stream-" + Dec(m.listenPort), RecoveredStream(m), m.targets == [], "stream :" + Dec(m.listenPort));
    }
  }

  /** The reimport read off: every mapping comes back, in order; the incomplete ones are
      also reported. */
  lemma {:induction false} ReimportContents(c: Converted, ms: seq<Mapping>)
    ensures Anonymous(Reimport(c, ms).out) == Anonymous(c.out) + AllRecovered(ms)
    ensures Reimport(c, ms).issues == c.issues + AllReported(ms)
    decreases |ms|
  {
    if ms != [] {
      TakeMappingContents(c, ms[0]);
      ReimportContents(TakeMapping(c, ms[0]), ms[1..]);
      Joined(Anonymous(c.out), [RecoveredOf(ms[0])], AllRecovered(ms[1..]));
      Joined(c.issues, Reports(ms[0]), AllReported(ms[1..]));
    }
  }

  lemma ReimportBoth(taken: set<string>, x: seq<Mapping>, y: seq<Mapping>)
    ensures var c := Reimport(Reimport(Converted([], [], taken), x), y);
      Anonymous(c.out) == AllRecovered(x) + AllRecovered(y) && c.issues == AllReported(x) + AllReported(y)
  {
    var c := Converted([], [], taken);
    ReimportContents(c, x);
    ReimportContents(Reimport(c, x), y);
    assert [] + AllRecovered(x) == AllRecovered(x) && [] + AllReported(x) == AllReported(x);
  }

  /** Contents of the round trip: nothing is lost, nothing is invented. */
  lemma RoundTripContents(ms: seq<Mapping>, paths: Paths.Paths, taken: set<string>)
    requires DistinctIds(ms) && forall m :: m in ms && Rendered(m) ==> Renderable(m) && PlainMapping(m)
    ensures Expanded(ms, paths).Some?
    ensures var c, sorted := ToMappings(Run(START, Expanded(ms, paths).value).sites, taken), HR.SortById(ms);
      && Anonymous(c.out) == AllRecovered(HttpOf(sorted)) + AllRecovered(StreamOf(sorted))
      && c.issues == AllReported(HttpOf(sorted)) + AllReported(StreamOf(sorted))
      && FreshNames(taken, c)
  {
    RoundTrip(ms, paths, taken);
    ReimportBoth(taken, HttpOf(HR.SortById(ms)), StreamOf(HR.SortById(ms)));
    ToMappingsFresh(Run(START, Expanded(ms, paths).value).sites, taken);
  }

  /** Printed, parsed and converted, a mapping keeps its protocol exactly when that is not
      udp, which comes back as tcp. */
  lemma ProtocolKeptIff(m: Mapping, paths: Paths.Paths, taken: set<string>)
    requires Rendered(m) && Renderable(m) && PlainMapping(m)
    ensures Expanded([m], paths).Some?
    ensures var out := Anonymous(ToMappings(Run(START, Expanded([m], paths).value).sites, taken).out);
      |out| == 1 && (out[0].protocol == m.protocol <==> m.protocol != Udp) && (m.protocol == Udp ==> out[0].protocol == Tcp)
  {
    assert forall x :: x in [m] ==> x == m;
    RoundTripContents([m], paths, taken);
    HR.SortOne(m);
    OneOf(m);
  }

  lemma OneOf(m: Mapping)
    requires Rendered(m)
    ensures HttpOf([m]) == (if IsHttp(m) then [m] else []) && StreamOf([m]) == (if IsHttp(m) then [] else [m])
    ensures AllRecovered([m]) == [RecoveredOf(m)] && AllRecovered([]) == []
  {
    assert [m][1..] == [];
  }

  lemma MainHttpIsFree(line: NLine)
    requires line.fields != [] && TopWord(line.fields[0])
    ensures Run(START, MAIN_BODY + [line]) == START
  {
    RunAppend(START, MAIN_BODY, [line]);
    MainBodyIsTop();
    TopRun(START, MAIN_BODY);
    TopWordIsFree(line);
    TopRun(START, [line]);
  }

  /** Without its includes, the nginx.conf PortGuard writes holds nothing to import. */
  lemma MainAloneIsEmpty(paths: Paths.Paths, taken: set<string>)
    ensures ToMappings(Run(START, Main(paths)).sites, taken) == Converted([], [], taken)
  {
    var dir := Paths.PosixJoin(Paths.PosixDir(paths.nginxConf), "portguard");
    var http, stream := [D(["include", dir + "/http.conf"])], [D(["include", dir + "/stream.conf"])];
    RunAppend(START, MAIN_BODY + http + TURN + stream, [CLOSE]);
    RunAppend(START, MAIN_BODY + http + TURN, stream);
    RunAppend(START, MAIN_BODY + http, TURN);
    MainHttpIsFree(http[0]);
    TurnRun(START);
    var q := START.(inStream := true);
    IncludeInStream(q, stream[0]);
    LeaveStream(q);
  }

  lemma IncludeInStream(p: Parser, line: NLine)
    requires AtStream(p) && line.fields != [] && line.fields[0] == "include"
    ensures Run(p, [line]) == p
  {
    Run1(p, line);
    assert "include"[0] == 'i';
  }
}
