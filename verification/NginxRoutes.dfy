/** What nginx makes of the locations in a printed server block: whether it loads them,
    and which one serves a request path. */
module NginxRoutes {
  import opened Text
  import opened Model
  import opened NginxRender
  import opened NginxGroups
  import R = Routes

  // ---- reading the lines ----

  /** A prefix location: its path and the lines inside. */
  datatype Block = Block(prefix: string, body: seq<NLine>)

  /** The path of the prefix location a line opens; a regex location has a modifier too. */
  function Opens(l: NLine): Option<string> {
    if !l.semi && |l.fields| == 3 && l.fields[0] == "location" then Some(l.fields[1]) else None
  }

  /** The pattern of the regex location a line opens. */
  function OpensRegex(l: NLine): Option<string> {
    if !l.semi && |l.fields| == 4 && l.fields[0] == "location" && l.fields[1] == "~" then Some(l.fields[2]) else None
  }

  predicate OpensUpstream(l: NLine) {
    !l.semi && l.fields != [] && l.fields[0] == "upstream"
  }

  function Body(lines: seq<NLine>): seq<NLine> {
    if lines == [] || lines[0] == CLOSE then [] else [lines[0]] + Body(lines[1..])
  }

  function Blocks(lines: seq<NLine>): seq<Block> {
    if lines == [] then []
    else if Opens(lines[0]).Some? then [Block(Opens(lines[0]).value, Body(lines[1..]))] + Blocks(lines[1..])
    else Blocks(lines[1..])
  }

  ghost predicate Distinct(bs: seq<Block>) {
    forall i, j :: 0 <= i < j < |bs| ==> bs[i].prefix != bs[j].prefix
  }

  ghost predicate NoUpstream(lines: seq<NLine>) {
    forall l :: l in lines ==> !OpensUpstream(l)
  }

  /** nginx loads a server block only if no upstream stands inside it and no two of its
      prefix locations have the same path. */
  ghost predicate Accepts(lines: seq<NLine>) {
    NoUpstream(lines) && Distinct(Blocks(lines))
  }

  /** `^literal(\d+)`, open at the end: the literal and then a digit. */
  predicate PatternTakes(pattern: string, path: string) {
    var i := Index(pattern, '(');
    i >= 1 && pattern[0] == '^' && FollowedByDigit(path, pattern[1..i])
  }

  predicate FollowedByDigit(path: string, p: string) {
    |p| < |path| && HasPrefix(path, p) && IsDigit(path[|p|])
  }

  ghost predicate RegexTakes(lines: seq<NLine>, path: string) {
    exists l :: l in lines && OpensRegex(l).Some? && PatternTakes(OpensRegex(l).value, path)
  }

  /** nginx serves a path by a regex location that matches it, otherwise by the prefix
      location with the longest prefix of it. */
  ghost predicate Serves(lines: seq<NLine>, path: string, b: Block) {
    && !RegexTakes(lines, path)
    && b in Blocks(lines) && HasPrefix(path, b.prefix)
    && forall c :: c in Blocks(lines) && HasPrefix(path, c.prefix) ==> |c.prefix| <= |b.prefix|
  }

  /** In a block nginx loads, at most one location serves a path. */
  lemma ServesOne(lines: seq<NLine>, path: string, b: Block, c: Block)
    requires Accepts(lines) && Serves(lines, path, b) && Serves(lines, path, c)
    ensures b == c
  {
    var bs := Blocks(lines);
    assert b.prefix == path[..|b.prefix|] == c.prefix;
    var i :| 0 <= i < |bs| && bs[i] == b;
    var j :| 0 <= j < |bs| && bs[j] == c;
  }

  // ---- reading block by block ----

  /** Lines without a prefix location. */
  predicate Quiet(lines: seq<NLine>) {
    forall i :: 0 <= i < |lines| ==> Opens(lines[i]) == None
  }

  lemma {:induction false} QuietRun(lines: seq<NLine>, rest: seq<NLine>)
    requires Quiet(lines)
    ensures Blocks(lines + rest) == Blocks(rest)
  {
    if lines == [] {
      assert lines + rest == rest;
    } else {
      assert (lines + rest)[1..] == lines[1..] + rest;
      QuietRun(lines[1..], rest);
    }
  }

  lemma {:induction false} BodyRun(body: seq<NLine>, rest: seq<NLine>)
    requires CLOSE !in body
    ensures Body(body + ([CLOSE] + rest)) == body
  {
    if body != [] {
      var lines := body + ([CLOSE] + rest);
      assert lines[0] == body[0] && lines[1..] == body[1..] + ([CLOSE] + rest);
      BodyRun(body[1..], rest);
    }
  }

  lemma BlockRun(path: string, body: seq<NLine>, rest: seq<NLine>)
    requires CLOSE !in body && Quiet(body)
    ensures Blocks([Open(["location", path])] + body + [CLOSE] + rest) == [Block(path, body)] + Blocks(rest)
  {
    var lines := [Open(["location", path])] + body + [CLOSE] + rest;
    assert lines[1..] == body + ([CLOSE] + rest);
    assert Open(["location", path]).fields == ["location", path, "{"];
    assert Opens(lines[0]) == Some(path);
    BodyRun(body, rest);
    QuietRun(body, [CLOSE] + rest);
    QuietRun([CLOSE], rest);
  }

  /** Directives open nothing and close nothing. */
  predicate Directives(lines: seq<NLine>) {
    forall i :: 0 <= i < |lines| ==> lines[i].semi
  }

  lemma DirectivesInside(lines: seq<NLine>)
    requires Directives(lines)
    ensures CLOSE !in lines && Quiet(lines)
  {}

  // ---- the locations of a mapping ----

  function RuleBlock(m: Mapping, l: R.Loc): Block {
    Block(l.path, [ActionLine(R.NgRuleAction(m.id, l.rule))])
  }

  function RuleBlocks(m: Mapping, locs: seq<R.Loc>): (bs: seq<Block>)
    ensures |bs| == |locs| && forall i :: 0 <= i < |locs| ==> bs[i] == RuleBlock(m, locs[i])
  {
    if locs == [] then [] else [RuleBlock(m, locs[0])] + RuleBlocks(m, locs[1..])
  }

  function ProxyBlock(m: Mapping, path: string): Block {
    Block(path, HeaderLines(m) + [D(["proxy_pass", ProxyPass(m)])])
  }

  function SiteBlocks(m: Mapping): seq<Block> {
    if m.pathPrefix != "" then [ProxyBlock(m, m.pathPrefix)]
    else if m.targets != [] then [ProxyBlock(m, "/")]
    else []
  }

  predicate HasFallback(m: Mapping) {
    if m.decoy == "" then m.pathPrefix != "" || m.pathRoutes != [] else m.decoy == "builtin" || m.decoy == "custom"
  }

  /** What a path gets that is neither a rule's nor the site's. */
  function FallbackBody(m: Mapping): seq<NLine> {
    if m.decoy == "" then [D(["return", "404"])]
    else [D(["root", "/var/lib/portguard/decoy"]), D(["index", "index.html"]), D(["try_files", "$uri", "$uri/", "=404"])]
  }

  function FallbackBlocks(m: Mapping): seq<Block> {
    if HasFallback(m) then [Block("/", FallbackBody(m))] else []
  }

  lemma RuleBlockRun(m: Mapping, l: R.Loc, rest: seq<NLine>)
    ensures Blocks(RuleLocation(m, l) + rest) == [RuleBlock(m, l)] + Blocks(rest)
  {
    var body := [ActionLine(R.NgRuleAction(m.id, l.rule))];
    DirectivesInside(body);
    BlockRun(l.path, body, rest);
  }

  lemma LinesAppend(a: seq<NLine>, b: seq<NLine>, c: seq<NLine>)
    ensures a + b + c == a + (b + c)
  {}

  lemma {:induction false} RuleLocationsRun(m: Mapping, locs: seq<R.Loc>, rest: seq<NLine>)
    ensures Blocks(RuleLocations(m, locs) + rest) == RuleBlocks(m, locs) + Blocks(rest)
  {
    if locs == [] {
      assert RuleLocations(m, locs) + rest == rest;
    } else {
      LinesAppend(RuleLocation(m, locs[0]), RuleLocations(m, locs[1..]), rest);
      RuleBlockRun(m, locs[0], RuleLocations(m, locs[1..]) + rest);
      RuleLocationsRun(m, locs[1..], rest);
    }
  }

  lemma {:induction false} ServersDirect(targets: seq<Target>, withBackup: bool)
    ensures Directives(UpstreamServers(targets, withBackup))
  {
    if targets != [] { ServersDirect(targets[1..], withBackup); }
  }

  lemma RuleUpstreamQuiet(m: Mapping, r: RouteRule)
    ensures Quiet(RuleUpstream(m, r))
  {
    ServersDirect(r.targets, true);
    DirectivesInside(UpstreamServers(r.targets, true));
  }

  lemma {:induction false} RuleUpstreamsQuiet(m: Mapping, locs: seq<R.Loc>)
    ensures Quiet(RuleUpstreams(m, locs))
  {
    if locs != [] {
      RuleUpstreamQuiet(m, locs[0].rule);
      RuleUpstreamsQuiet(m, locs[1..]);
    }
  }

  /** What stands in a path route's location. */
  function PathRouteBody(m: Mapping, pr: PathRoute): seq<NLine> {
    var pass := D(["proxy_pass", PathRoutePass(m)]);
    if pr.transport == XHttp then [pass] + XHTTP_LINES + [CLOSE, BLANK] else [UpgradeGuard(), pass] + WS_LINES + [CLOSE, BLANK]
  }

  lemma PathRouteParts(m: Mapping, pr: PathRoute)
    ensures PathRouteLocation(m, pr) == [COMMENT, Open(["location", "~", RoutePattern(pr)])] + PathRouteBody(m, pr)
  {}

  /** Nothing in these lines opens a prefix location or a group. */
  ghost predicate Harmless(lines: seq<NLine>) {
    Quiet(lines) && NoUpstream(lines)
  }

  lemma HarmlessConcat(a: seq<NLine>, b: seq<NLine>)
    requires Harmless(a) && Harmless(b)
    ensures Harmless(a + b)
  {}

  lemma DirectivesHarmless(lines: seq<NLine>)
    requires Directives(lines)
    ensures Harmless(lines)
  {}

  lemma PathRouteBodyHarmless(m: Mapping, pr: PathRoute)
    ensures Harmless(PathRouteBody(m, pr))
  {
    var pass := D(["proxy_pass", PathRoutePass(m)]);
    DirectivesHarmless(WS_LINES);
    DirectivesHarmless(XHTTP_LINES);
    if pr.transport == XHttp {
      HarmlessConcat([pass], XHTTP_LINES);
      HarmlessConcat([pass] + XHTTP_LINES, [CLOSE, BLANK]);
    } else {
      HarmlessConcat([UpgradeGuard(), pass], WS_LINES);
      HarmlessConcat([UpgradeGuard(), pass] + WS_LINES, [CLOSE, BLANK]);
    }
  }

  lemma PathRouteQuiet(m: Mapping, pr: PathRoute)
    ensures Quiet(PathRouteLocation(m, pr)) && NoUpstream(PathRouteLocation(m, pr))
  {
    PathRouteBodyHarmless(m, pr);
    PathRouteParts(m, pr);
    HarmlessConcat([COMMENT, Open(["location", "~", RoutePattern(pr)])], PathRouteBody(m, pr));
  }

  lemma {:induction false} PathRoutesQuiet(m: Mapping, prs: seq<PathRoute>)
    ensures Quiet(PathRouteLocations(m, prs)) && NoUpstream(PathRouteLocations(m, prs))
  {
    if prs != [] {
      PathRouteQuiet(m, prs[0]);
      PathRoutesQuiet(m, prs[1..]);
    }
  }

  lemma SiteRun(m: Mapping, rest: seq<NLine>)
    ensures Blocks(SiteLocation(m) + rest) == SiteBlocks(m) + Blocks(rest)
  {
    if SiteBlocks(m) == [] {
      assert SiteLocation(m) + rest == rest;
    } else {
      var b := SiteBlocks(m)[0];
      assert SiteLocation(m) + rest == [Open(["location", b.prefix])] + b.body + [CLOSE] + rest;
      DirectivesInside(b.body);
      BlockRun(b.prefix, b.body, rest);
    }
  }

  lemma FallbackRun(m: Mapping)
    ensures Blocks(Fallback(m)) == FallbackBlocks(m)
  {
    if HasFallback(m) {
      assert Fallback(m) == [Open(["location", "/"])] + FallbackBody(m) + [CLOSE] + [];
      DirectivesInside(FallbackBody(m));
      BlockRun("/", FallbackBody(m), []);
    }
  }

  function AllBlocks(m: Mapping): seq<Block> {
    RuleBlocks(m, SortedLocs(m)) + (SiteBlocks(m) + FallbackBlocks(m))
  }

  lemma Regroup(a: seq<NLine>, b: seq<NLine>, c: seq<NLine>, d: seq<NLine>, e: seq<NLine>)
    ensures a + (b + c) + d + e == a + (b + (c + (d + e)))
  {}

  lemma RulesRun(m: Mapping, rest: seq<NLine>)
    ensures Blocks(RuleUpstreams(m, SortedLocs(m)) + (RuleLocations(m, SortedLocs(m)) + rest))
      == RuleBlocks(m, SortedLocs(m)) + Blocks(rest)
  {
    RuleUpstreamsQuiet(m, SortedLocs(m));
    QuietRun(RuleUpstreams(m, SortedLocs(m)), RuleLocations(m, SortedLocs(m)) + rest);
    RuleLocationsRun(m, SortedLocs(m), rest);
  }

  /** The printed lines hold one location per enabled rule, the site and the fallback. */
  lemma ServingBlocks(m: Mapping)
    requires m.redirectTo == ""
    ensures Blocks(ServingLines(m)) == AllBlocks(m)
  {
    var dynamic, ups, locs := PathRouteLocations(m, m.pathRoutes), RuleUpstreams(m, SortedLocs(m)), RuleLocations(m, SortedLocs(m));
    var site, fallback := SiteLocation(m), Fallback(m);
    Regroup(dynamic, ups, locs, site, fallback);
    PathRoutesQuiet(m, m.pathRoutes);
    QuietRun(dynamic, ups + (locs + (site + fallback)));
    RulesRun(m, site + fallback);
    SiteRun(m, fallback);
    FallbackRun(m);
  }

  // ---- when nginx loads it ----

  ghost predicate Holds(locs: seq<R.Loc>, path: string) {
    exists l :: l in locs && l.path == path
  }

  ghost predicate DistinctPaths(locs: seq<R.Loc>) {
    forall i, j :: 0 <= i < j < |locs| ==> locs[i].path != locs[j].path
  }

  lemma DistinctAppend(locs: seq<R.Loc>, l: R.Loc)
    ensures DistinctPaths(locs + [l]) <==> DistinctPaths(locs) && !Holds(locs, l.path)
  {
    var all := locs + [l];
    if DistinctPaths(all) {
      forall x | x in locs ensures x.path != l.path {
        var i :| 0 <= i < |locs| && locs[i] == x;
        assert all[i] == x && all[|locs|] == l;
      }
      forall i, j | 0 <= i < j < |locs| ensures locs[i].path != locs[j].path { assert all[i] == locs[i] && all[j] == locs[j]; }
    }
  }

  lemma InsertHolds(sorted: seq<R.Loc>, x: R.Loc, path: string)
    ensures Holds(R.Insert(sorted, x), path) <==> Holds(sorted, path) || x.path == path
  {
    R.InsertPermutes(sorted, x);
    assert forall l :: l in R.Insert(sorted, x) <==> l in multiset(R.Insert(sorted, x));
    assert forall l :: l in sorted <==> l in multiset(sorted);
  }

  lemma AppendHolds(locs: seq<R.Loc>, x: R.Loc, path: string)
    ensures Holds(locs + [x], path) <==> Holds(locs, path) || x.path == path
  {
    if Holds(locs, path) {
      var l :| l in locs && l.path == path;
      assert l in locs + [x];
    }
    assert x in locs + [x];
  }

  lemma {:induction false} InsertDistinctIff(sorted: seq<R.Loc>, x: R.Loc)
    ensures DistinctPaths(R.Insert(sorted, x)) <==> DistinctPaths(sorted) && !Holds(sorted, x.path)
  {
    if sorted != [] && |x.path| > |sorted[|sorted| - 1].path| {
      var init, last := sorted[..|sorted| - 1], sorted[|sorted| - 1];
      assert sorted == init + [last];
      InsertDistinctIff(init, x);
      DistinctAppend(init, last);
      DistinctAppend(R.Insert(init, x), last);
      InsertHolds(init, x, last.path);
      AppendHolds(init, last, x.path);
    } else {
      DistinctAppend(sorted, x);
    }
  }

  lemma SortedHolds(locs: seq<R.Loc>, path: string)
    ensures Holds(R.Sorted(locs), path) <==> Holds(locs, path)
  {
    forall l ensures l in R.Sorted(locs) <==> l in locs { R.SortedMembers(locs, l); }
  }

  lemma {:induction false} SortedDistinctIff(locs: seq<R.Loc>)
    ensures DistinctPaths(R.Sorted(locs)) <==> DistinctPaths(locs)
  {
    if locs != [] {
      var init, last := locs[..|locs| - 1], locs[|locs| - 1];
      assert locs == init + [last];
      SortedDistinctIff(init);
      InsertDistinctIff(R.Sorted(init), last);
      SortedHolds(init, last.path);
      DistinctAppend(init, last);
    }
  }

  /** Some enabled rule is printed with this path. */
  ghost predicate RulePath(rules: seq<RouteRule>, path: string) {
    exists r :: r in rules && r.enabled && R.NginxPath(r.path) == path
  }

  lemma EnabledHolds(rules: seq<RouteRule>, path: string)
    ensures Holds(R.EnabledLocs(rules, true), path) <==> RulePath(rules, path)
  {
    if Holds(R.EnabledLocs(rules, true), path) {
      var l :| l in R.EnabledLocs(rules, true) && l.path == path;
      R.LocMembers(rules, true, l);
    }
    if RulePath(rules, path) {
      var r :| r in rules && r.enabled && R.NginxPath(r.path) == path;
      R.LocMembers(rules, true, R.Loc(path, r));
    }
  }

  /** No two enabled rules are printed with one path. */
  ghost predicate RulePathsDiffer(rules: seq<RouteRule>) {
    forall i, j :: 0 <= i < j < |rules| && rules[i].enabled && rules[j].enabled ==>
      R.NginxPath(rules[i].path) != R.NginxPath(rules[j].path)
  }

  lemma RulePathsDifferStep(rules: seq<RouteRule>)
    requires rules != []
    ensures RulePathsDiffer(rules)
      <==> RulePathsDiffer(rules[1..]) && (rules[0].enabled ==> !RulePath(rules[1..], R.NginxPath(rules[0].path)))
  {
    var rest := rules[1..];
    assert forall i :: 0 <= i < |rest| ==> rest[i] == rules[i + 1];
    if RulePathsDiffer(rules) {
      forall i, j | 0 <= i < j < |rest| && rest[i].enabled && rest[j].enabled
        ensures R.NginxPath(rest[i].path) != R.NginxPath(rest[j].path)
      {
        assert rules[i + 1].enabled && rules[j + 1].enabled;
      }
      forall r | r in rest && r.enabled && rules[0].enabled ensures R.NginxPath(r.path) != R.NginxPath(rules[0].path) {
        var k :| 0 <= k < |rest| && rest[k] == r;
        assert rules[k + 1].enabled;
      }
    } else {
      var i, j :| 0 <= i < j < |rules| && rules[i].enabled && rules[j].enabled && R.NginxPath(rules[i].path) == R.NginxPath(rules[j].path);
      assert rules[j] == rest[j - 1] && rest[j - 1] in rest;
      if i > 0 { assert rest[i - 1].enabled && rest[j - 1].enabled; }
    }
  }

  lemma DistinctCons(l: R.Loc, rest: seq<R.Loc>)
    ensures DistinctPaths([l] + rest) <==> DistinctPaths(rest) && !Holds(rest, l.path)
  {
    var all := [l] + rest;
    assert forall i :: 0 <= i < |rest| ==> all[i + 1] == rest[i];
    if DistinctPaths(all) {
      forall i, j | 0 <= i < j < |rest| ensures rest[i].path != rest[j].path { assert all[i + 1].path != all[j + 1].path; }
      forall x | x in rest ensures x.path != l.path {
        var i :| 0 <= i < |rest| && rest[i] == x;
        assert all[0].path != all[i + 1].path;
      }
    }
  }

  lemma {:induction false} EnabledDistinctIff(rules: seq<RouteRule>)
    ensures DistinctPaths(R.EnabledLocs(rules, true)) <==> RulePathsDiffer(rules)
  {
    if rules != [] {
      var rest := R.EnabledLocs(rules[1..], true);
      EnabledDistinctIff(rules[1..]);
      RulePathsDifferStep(rules);
      EnabledHolds(rules[1..], R.NginxPath(rules[0].path));
      DistinctCons(R.Loc(R.NginxPath(rules[0].path), rules[0]), rest);
    }
  }

  lemma RuleBlocksDistinctIff(m: Mapping)
    ensures Distinct(RuleBlocks(m, SortedLocs(m))) <==> RulePathsDiffer(m.routes)
  {
    var locs := SortedLocs(m);
    SortedDistinctIff(R.EnabledLocs(m.routes, true));
    EnabledDistinctIff(m.routes);
    assert forall i :: 0 <= i < |locs| ==> RuleBlocks(m, locs)[i].prefix == locs[i].path;
    assert Distinct(RuleBlocks(m, locs)) <==> DistinctPaths(locs);
  }

  ghost predicate HasBlock(bs: seq<Block>, path: string) {
    exists i :: 0 <= i < |bs| && bs[i].prefix == path
  }

  lemma RuleBlocksHave(m: Mapping, path: string)
    ensures HasBlock(RuleBlocks(m, SortedLocs(m)), path) <==> RulePath(m.routes, path)
  {
    var locs := SortedLocs(m);
    SortedHolds(R.EnabledLocs(m.routes, true), path);
    EnabledHolds(m.routes, path);
    if Holds(locs, path) {
      var i :| 0 <= i < |locs| && locs[i].path == path;
      assert RuleBlocks(m, locs)[i].prefix == path;
    }
    if HasBlock(RuleBlocks(m, locs), path) {
      var i :| 0 <= i < |locs| && RuleBlocks(m, locs)[i].prefix == path;
      assert locs[i] in locs;
    }
  }

  lemma DistinctConcat(a: seq<Block>, b: seq<Block>)
    ensures Distinct(a + b) <==> Distinct(a) && Distinct(b) && forall j :: 0 <= j < |b| ==> !HasBlock(a, b[j].prefix)
  {
    var all := a + b;
    assert forall i :: 0 <= i < |a| ==> all[i] == a[i];
    assert forall j :: 0 <= j < |b| ==> all[|a| + j] == b[j];
    if Distinct(all) {
      forall i, j | 0 <= i < j < |b| ensures b[i].prefix != b[j].prefix { assert all[|a| + i].prefix != all[|a| + j].prefix; }
      forall j | 0 <= j < |b| ensures !HasBlock(a, b[j].prefix) {
        forall i | 0 <= i < |a| ensures a[i].prefix != b[j].prefix { assert all[i].prefix != all[|a| + j].prefix; }
      }
    } else {
      var i, j :| 0 <= i < j < |all| && all[i].prefix == all[j].prefix;
      if i < |a| <= j { assert all[j] == b[j - |a|]; }
      if |a| <= i { assert all[i] == b[i - |a|] && all[j] == b[j - |a|]; }
    }
  }

  /** The site or the fallback is printed as `location /`. */
  predicate PrintsRoot(m: Mapping) {
    HasFallback(m) || SiteIsRoot(m)
  }

  predicate SiteIsRoot(m: Mapping) {
    m.pathPrefix == "/" || (m.pathPrefix == "" && m.targets != [])
  }

  /** What nginx asks of a mapping's paths: enabled rules differ from each other, from the
      path prefix and from a printed `/`, and the site and the fallback are not both `/`. */
  ghost predicate PathsDiffer(m: Mapping) {
    && RulePathsDiffer(m.routes)
    && (m.pathPrefix != "" ==> !RulePath(m.routes, m.pathPrefix))
    && (PrintsRoot(m) ==> !RulePath(m.routes, "/"))
    && !(HasFallback(m) && SiteIsRoot(m))
  }

  lemma AllBlocksDistinctIff(m: Mapping)
    ensures Distinct(AllBlocks(m)) <==> PathsDiffer(m)
  {
    var tail := SiteBlocks(m) + FallbackBlocks(m);
    RuleBlocksDistinctIff(m);
    DistinctConcat(RuleBlocks(m, SortedLocs(m)), tail);
    RuleBlocksHave(m, m.pathPrefix);
    RuleBlocksHave(m, "/");
    TailPaths(m);
    TailDistinctIff(m);
    assert (forall j :: 0 <= j < |tail| ==> !RulePath(m.routes, tail[j].prefix))
      <==> (m.pathPrefix != "" ==> !RulePath(m.routes, m.pathPrefix)) && (PrintsRoot(m) ==> !RulePath(m.routes, "/"));
  }

  lemma TailDistinctIff(m: Mapping)
    ensures Distinct(SiteBlocks(m) + FallbackBlocks(m)) <==> !(HasFallback(m) && SiteIsRoot(m))
  {
    var tail := SiteBlocks(m) + FallbackBlocks(m);
    if HasFallback(m) && SiteBlocks(m) != [] {
      assert tail[0].prefix == (if m.pathPrefix != "" then m.pathPrefix else "/") && tail[1].prefix == "/";
    }
  }

  lemma TailPaths(m: Mapping)
    ensures HasBlock(SiteBlocks(m) + FallbackBlocks(m), "/") <==> PrintsRoot(m)
    ensures m.pathPrefix != "" ==> HasBlock(SiteBlocks(m) + FallbackBlocks(m), m.pathPrefix)
    ensures forall j :: 0 <= j < |SiteBlocks(m) + FallbackBlocks(m)| ==>
      var q := (SiteBlocks(m) + FallbackBlocks(m))[j].prefix;
      q == "/" || (m.pathPrefix != "" && q == m.pathPrefix)
  {
    var tail := SiteBlocks(m) + FallbackBlocks(m);
    if m.pathPrefix != "" || m.targets != [] { assert tail[0] == SiteBlocks(m)[0]; }
    if HasFallback(m) { assert tail[|tail| - 1].prefix == "/"; }
  }

  /** Every enabled rule redirects or has exactly one target. */
  ghost predicate NoRuleGroups(rules: seq<RouteRule>) {
    forall r :: r in rules && r.enabled ==> !NeedsRuleGroup(r)
  }

  lemma NoUpstreamConcat(a: seq<NLine>, b: seq<NLine>)
    ensures NoUpstream(a + b) <==> NoUpstream(a) && NoUpstream(b)
  {
    assert forall l :: l in a + b <==> l in a || l in b;
  }

  lemma RuleUpstreamIff(m: Mapping, r: RouteRule)
    ensures NoUpstream(RuleUpstream(m, r)) <==> !NeedsRuleGroup(r)
  {
    if NeedsRuleGroup(r) {
      var l := RuleUpstream(m, r)[0];
      assert l.fields == ["upstream", RuleUpstreamName(m, r), "{"];
      assert l in RuleUpstream(m, r) && OpensUpstream(l);
    }
  }

  lemma {:induction false} RuleUpstreamsIff(m: Mapping, locs: seq<R.Loc>)
    ensures NoUpstream(RuleUpstreams(m, locs)) <==> forall l :: l in locs ==> !NeedsRuleGroup(l.rule)
  {
    if locs != [] {
      RuleUpstreamIff(m, locs[0].rule);
      RuleUpstreamsIff(m, locs[1..]);
      NoUpstreamConcat(RuleUpstream(m, locs[0].rule), RuleUpstreams(m, locs[1..]));
      assert locs == [locs[0]] + locs[1..];
    }
  }

  lemma {:induction false} RuleLocationsClean(m: Mapping, locs: seq<R.Loc>)
    ensures NoUpstream(RuleLocations(m, locs))
  {
    if locs != [] {
      RuleLocationsClean(m, locs[1..]);
      RuleLocationClean(m, locs[0]);
      NoUpstreamConcat(RuleLocation(m, locs[0]), RuleLocations(m, locs[1..]));
    }
  }

  lemma RuleLocationClean(m: Mapping, l: R.Loc)
    ensures NoUpstream(RuleLocation(m, l))
  {
    assert Open(["location", l.path]).fields[0] == "location";
  }

  lemma SiteClean(m: Mapping)
    ensures NoUpstream(SiteLocation(m)) && NoUpstream(Fallback(m))
  {
    forall path ensures NoUpstream(ProxyLocation(m, path)) {
      assert Open(["location", path]).fields[0] == "location";
    }
    assert Open(["location", "/"]).fields[0] == "location";
  }

  lemma SortedLocsNeedGroupIff(m: Mapping)
    ensures (forall l :: l in SortedLocs(m) ==> !NeedsRuleGroup(l.rule)) <==> NoRuleGroups(m.routes)
  {
    forall l | l in SortedLocs(m) ensures l.rule in m.routes && l.rule.enabled { SortedLocMembers(m, l); }
    forall r | r in m.routes && r.enabled ensures R.Loc(R.NginxPath(r.path), r) in SortedLocs(m) {
      SortedLocMembers(m, R.Loc(R.NginxPath(r.path), r));
    }
    if (forall l :: l in SortedLocs(m) ==> !NeedsRuleGroup(l.rule)) {
      forall r | r in m.routes && r.enabled ensures !NeedsRuleGroup(r) {
        assert R.Loc(R.NginxPath(r.path), r) in SortedLocs(m);
      }
    }
  }

  lemma NoUpstreamIff(m: Mapping)
    requires m.redirectTo == ""
    ensures NoUpstream(ServingLines(m)) <==> NoRuleGroups(m.routes)
  {
    var dynamic, ups, locs := PathRouteLocations(m, m.pathRoutes), RuleUpstreams(m, SortedLocs(m)), RuleLocations(m, SortedLocs(m));
    PathRoutesQuiet(m, m.pathRoutes);
    RuleUpstreamsIff(m, SortedLocs(m));
    RuleLocationsClean(m, SortedLocs(m));
    SiteClean(m);
    SortedLocsNeedGroupIff(m);
    NoUpstreamConcat(ups, locs);
    NoUpstreamConcat(dynamic, ups + locs);
    NoUpstreamConcat(dynamic + (ups + locs), SiteLocation(m));
    NoUpstreamConcat(dynamic + (ups + locs) + SiteLocation(m), Fallback(m));
  }

  /** nginx loads a printed server block exactly when the mapping redirects as a whole, or
      every enabled rule redirects or has one target and all printed paths differ. */
  lemma AcceptsIff(m: Mapping)
    ensures Accepts(ServingLines(m)) <==> m.redirectTo != "" || (NoRuleGroups(m.routes) && PathsDiffer(m))
  {
    if m.redirectTo == "" {
      NoUpstreamIff(m);
      ServingBlocks(m);
      AllBlocksDistinctIff(m);
    } else {
      QuietRun(ServingLines(m), []);
      assert ServingLines(m) + [] == ServingLines(m);
    }
  }

  // ---- validated mappings nginx refuses ----

  const BACKEND := Target("10.0.0.1", 8080, 1, false)

  /** A whole-site mapping. */
  const SITE := Mapping(1, "site", true, Nginx, Http, "0.0.0.0", 80, ["example.org"], None, "", false, false,
    [BACKEND], "", "", [], [], [], "", "", "", [])

  lemma RootRuleIsRefused()
    ensures var m := SITE.(routes := [RouteRule(1, "/", true, [BACKEND], "")]);
      R.ValidRules(m.routes) && !Accepts(ServingLines(m))
  {
    var m := SITE.(routes := [RouteRule(1, "/", true, [BACKEND], "")]);
    assert m.routes[0] in m.routes && R.NginxPath("/") == "/";
    assert RulePath(m.routes, "/");
    R.OneRuleValid(m.routes[0]);
    AcceptsIff(m);
  }

  lemma TwoTargetRuleIsRefused()
    ensures var m := SITE.(routes := [RouteRule(1, "/api", true, [BACKEND, BACKEND], "")]);
      R.ValidRules(m.routes) && !Accepts(ServingLines(m))
  {
    var m := SITE.(routes := [RouteRule(1, "/api", true, [BACKEND, BACKEND], "")]);
    assert m.routes[0] in m.routes && NeedsRuleGroup(m.routes[0]);
    R.OneRuleValid(m.routes[0]);
    AcceptsIff(m);
  }

  lemma WildcardTwinIsRefused()
    ensures var rule := RouteRule(1, "/ws/", true, [BACKEND], "");
      var m := SITE.(routes := [rule, rule.(id := 2, path := "/ws/*")]);
      R.ValidRules(m.routes) && !Accepts(ServingLines(m))
  {
    var rule := RouteRule(1, "/ws/", true, [BACKEND], "");
    var m := SITE.(routes := [rule, rule.(id := 2, path := "/ws/*")]);
    assert R.NginxPath("/ws/*") == "/ws/" == R.NginxPath("/ws/");
    assert m.routes[0].enabled && m.routes[1].enabled;
    R.TwoRulesValid(rule, m.routes[1]);
    AcceptsIff(m);
  }

  /** A whole-site mapping gets a second `location /` with path routes or with a decoy. */
  lemma SiteWithFallbackIsRefused(m: Mapping)
    requires m.redirectTo == "" && m.targets != [] && m.pathPrefix == ""
    requires (m.decoy == "" && m.pathRoutes != []) || m.decoy == "builtin" || m.decoy == "custom"
    ensures !Accepts(ServingLines(m))
  {
    AcceptsIff(m);
  }

  // ---- which location serves a path ----

  lemma RegexConcat(a: seq<NLine>, b: seq<NLine>, path: string)
    ensures RegexTakes(a + b, path) <==> RegexTakes(a, path) || RegexTakes(b, path)
  {
    assert forall l :: l in a + b <==> l in a || l in b;
  }

  /** A path with a port where a path route expects one. */
  ghost predicate PortPath(prs: seq<PathRoute>, path: string) {
    exists pr :: pr in prs && FollowedByDigit(path, PortPrefix(pr))
  }

  function PortPrefix(pr: PathRoute): string {
    "/" + pr.prefix + "/"
  }

  predicate PlainPrefixes(prs: seq<PathRoute>) {
    forall pr :: pr in prs ==> '(' !in pr.prefix
  }

  lemma PatternReads(pr: PathRoute, path: string)
    requires '(' !in pr.prefix
    ensures PatternTakes(RoutePattern(pr), path) <==> FollowedByDigit(path, PortPrefix(pr))
  {
    var left := "^/" + pr.prefix + "/";
    var right := if pr.transport == XHttp then "?<pgport>\\d+)(/.*)?" else "?<pgport>\\d+)";
    assert RoutePattern(pr) == left + ['('] + right;
    IndexAt(left, '(', right);
    assert RoutePattern(pr)[1..|left|] == PortPrefix(pr);
  }

  lemma PathRouteBodyRegexFree(m: Mapping, pr: PathRoute)
    ensures RegexFree(PathRouteBody(m, pr))
  {
    assert forall l :: l in WS_LINES ==> l.semi;
    assert forall l :: l in XHTTP_LINES ==> l.semi;
  }

  lemma PathRouteTakes(m: Mapping, pr: PathRoute, path: string)
    requires '(' !in pr.prefix
    ensures RegexTakes(PathRouteLocation(m, pr), path) <==> FollowedByDigit(path, PortPrefix(pr))
  {
    var opening := Open(["location", "~", RoutePattern(pr)]);
    PatternReads(pr, path);
    PathRouteParts(m, pr);
    PathRouteBodyRegexFree(m, pr);
    RegexConcat([COMMENT, opening], PathRouteBody(m, pr), path);
    assert opening.fields == ["location", "~", RoutePattern(pr), "{"];
    assert opening in [COMMENT, opening];
  }

  lemma {:induction false} PathRoutesTake(m: Mapping, prs: seq<PathRoute>, path: string)
    requires PlainPrefixes(prs)
    ensures RegexTakes(PathRouteLocations(m, prs), path) <==> PortPath(prs, path)
  {
    if prs != [] {
      assert prs == [prs[0]] + prs[1..];
      PathRouteTakes(m, prs[0], path);
      PathRoutesTake(m, prs[1..], path);
      RegexConcat(PathRouteLocation(m, prs[0]), PathRouteLocations(m, prs[1..]), path);
    }
  }

  ghost predicate RegexFree(lines: seq<NLine>) {
    forall l :: l in lines ==> OpensRegex(l) == None
  }

  lemma RegexFreeConcat(a: seq<NLine>, b: seq<NLine>)
    requires RegexFree(a) && RegexFree(b)
    ensures RegexFree(a + b)
  {}

  lemma {:induction false} RulesRegexFree(m: Mapping, locs: seq<R.Loc>)
    ensures RegexFree(RuleUpstreams(m, locs)) && RegexFree(RuleLocations(m, locs))
  {
    if locs != [] {
      RulesRegexFree(m, locs[1..]);
      RuleRegexFree(m, locs[0]);
      RegexFreeConcat(RuleUpstream(m, locs[0].rule), RuleUpstreams(m, locs[1..]));
      RegexFreeConcat(RuleLocation(m, locs[0]), RuleLocations(m, locs[1..]));
    }
  }

  lemma RuleRegexFree(m: Mapping, l: R.Loc)
    ensures RegexFree(RuleUpstream(m, l.rule)) && RegexFree(RuleLocation(m, l))
  {
    ServersDirect(l.rule.targets, true);
    assert Open(["location", l.path]).fields == ["location", l.path, "{"];
    assert Open(["upstream", RuleUpstreamName(m, l.rule)]).fields == ["upstream", RuleUpstreamName(m, l.rule), "{"];
  }

  lemma SiteRegexFree(m: Mapping)
    ensures RegexFree(SiteLocation(m)) && RegexFree(Fallback(m))
  {
    forall path ensures RegexFree(ProxyLocation(m, path)) {
      assert Open(["location", path]).fields == ["location", path, "{"];
    }
    assert Open(["location", "/"]).fields == ["location", "/", "{"];
  }

  lemma RegexTakesIff(m: Mapping, path: string)
    requires m.redirectTo == "" && PlainPrefixes(m.pathRoutes)
    ensures RegexTakes(ServingLines(m), path) <==> PortPath(m.pathRoutes, path)
  {
    var dynamic, rules := PathRouteLocations(m, m.pathRoutes), RouteRuleLines(m);
    PathRoutesTake(m, m.pathRoutes, path);
    RulesRegexFree(m, SortedLocs(m));
    RegexFreeConcat(RuleUpstreams(m, SortedLocs(m)), RuleLocations(m, SortedLocs(m)));
    SiteRegexFree(m);
    RegexConcat(dynamic, rules, path);
    RegexConcat(dynamic + rules, SiteLocation(m), path);
    RegexConcat(dynamic + rules + SiteLocation(m), Fallback(m), path);
  }

  /** The location of a rule. */
  function BlockOf(m: Mapping, r: RouteRule): Block {
    RuleBlock(m, R.Loc(R.NginxPath(r.path), r))
  }

  ghost predicate Enabled(m: Mapping, r: RouteRule) {
    r in m.routes && r.enabled
  }

  lemma BlockKinds(m: Mapping, b: Block)
    ensures b in AllBlocks(m) <==>
      (exists r :: Enabled(m, r) && b == BlockOf(m, r)) || b in SiteBlocks(m) || b in FallbackBlocks(m)
  {
    var locs := SortedLocs(m);
    assert b in AllBlocks(m) <==> b in RuleBlocks(m, locs) || b in SiteBlocks(m) || b in FallbackBlocks(m);
    if b in RuleBlocks(m, locs) {
      var i :| 0 <= i < |locs| && b == RuleBlock(m, locs[i]);
      SortedLocMembers(m, locs[i]);
      assert Enabled(m, locs[i].rule) && b == BlockOf(m, locs[i].rule);
    }
    if exists r :: Enabled(m, r) && b == BlockOf(m, r) {
      var r :| Enabled(m, r) && b == BlockOf(m, r);
      SortedLocMembers(m, R.Loc(R.NginxPath(r.path), r));
      var i :| 0 <= i < |locs| && locs[i] == R.Loc(R.NginxPath(r.path), r);
      assert RuleBlocks(m, locs)[i] == b;
    }
  }

  /** The enabled rule with the longest printed prefix of a path. */
  ghost predicate LongestRule(m: Mapping, path: string, r: RouteRule) {
    && Enabled(m, r) && HasPrefix(path, R.NginxPath(r.path))
    && forall s :: Enabled(m, s) && HasPrefix(path, R.NginxPath(s.path)) ==> |R.NginxPath(s.path)| <= |R.NginxPath(r.path)|
  }

  /** The path prefix takes the path from the rule. */
  predicate SiteTakes(m: Mapping, path: string, r: RouteRule) {
    m.pathPrefix != "" && HasPrefix(path, m.pathPrefix) && |m.pathPrefix| > |R.NginxPath(r.path)|
  }

  /** Validated rule paths start with a slash. */
  predicate Rooted(rules: seq<RouteRule>) {
    forall r :: r in rules ==> HasPrefix(r.path, "/")
  }

  lemma RootedPath(rules: seq<RouteRule>, r: RouteRule)
    requires Rooted(rules) && r in rules
    ensures HasPrefix(R.NginxPath(r.path), "/")
  {
    assert r.path[..1] == "/";
    assert r.path[0] == '/';
    if HasSuffix(r.path, "/*") { assert |r.path| >= 2 && R.NginxPath(r.path)[0] == '/'; }
  }

  /** A rule's location serves the paths it is the longest rule for, except those with a
      port for a path route and those a longer path prefix takes. */
  lemma RuleServesIff(m: Mapping, path: string, r: RouteRule)
    requires m.redirectTo == "" && Rooted(m.routes) && PlainPrefixes(m.pathRoutes)
    requires LongestRule(m, path, r)
    ensures Serves(ServingLines(m), path, BlockOf(m, r)) <==> !PortPath(m.pathRoutes, path) && !SiteTakes(m, path, r)
  {
    ServingBlocks(m);
    RegexTakesIff(m, path);
    RootedPath(m.routes, r);
    BlockKinds(m, BlockOf(m, r));
    if SiteTakes(m, path, r) {
      BlockKinds(m, ProxyBlock(m, m.pathPrefix));
    } else {
      forall c | c in Blocks(ServingLines(m)) && HasPrefix(path, c.prefix) ensures |c.prefix| <= |R.NginxPath(r.path)| {
        BlockKinds(m, c);
      }
    }
  }

  /** A rule whose location serves a path is the longest rule for it. */
  lemma ServingRuleIsLongest(m: Mapping, path: string, r: RouteRule)
    requires m.redirectTo == "" && Enabled(m, r) && Serves(ServingLines(m), path, BlockOf(m, r))
    ensures LongestRule(m, path, r)
  {
    ServingBlocks(m);
    forall s | Enabled(m, s) && HasPrefix(path, R.NginxPath(s.path)) ensures |R.NginxPath(s.path)| <= |R.NginxPath(r.path)| {
      BlockKinds(m, BlockOf(m, s));
      assert BlockOf(m, s).prefix == R.NginxPath(s.path);
    }
  }

  /** What serves a path that no rule matches. */
  function Rest(m: Mapping, path: string): Option<Block> {
    if m.pathPrefix != "" && HasPrefix(path, m.pathPrefix) then Some(ProxyBlock(m, m.pathPrefix))
    else if m.pathPrefix == "" && m.targets != [] then Some(ProxyBlock(m, "/"))
    else if HasFallback(m) then Some(Block("/", FallbackBody(m)))
    else None
  }

  predicate IsRest(m: Mapping, b: Block) {
    b in SiteBlocks(m) || b in FallbackBlocks(m)
  }

  lemma OnlyRestMatches(m: Mapping, path: string)
    requires forall r :: Enabled(m, r) ==> !HasPrefix(path, R.NginxPath(r.path))
    ensures forall c :: c in AllBlocks(m) && HasPrefix(path, c.prefix) <==> IsRest(m, c) && HasPrefix(path, c.prefix)
  {
    forall c ensures c in AllBlocks(m) && HasPrefix(path, c.prefix) <==> IsRest(m, c) && HasPrefix(path, c.prefix) {
      BlockKinds(m, c);
      forall r | Enabled(m, r) ensures BlockOf(m, r).prefix == R.NginxPath(r.path) {}
    }
  }

  lemma LongestRest(m: Mapping, path: string, b: Block)
    requires HasPrefix(path, "/") && !(HasFallback(m) && SiteIsRoot(m))
    ensures Rest(m, path) == Some(b) <==>
      IsRest(m, b) && HasPrefix(path, b.prefix) && forall c :: IsRest(m, c) && HasPrefix(path, c.prefix) ==> |c.prefix| <= |b.prefix|
  {
    var root := Block("/", FallbackBody(m));
    assert HasFallback(m) ==> IsRest(m, root);
    if m.pathPrefix != "" {
      assert IsRest(m, ProxyBlock(m, m.pathPrefix));
    } else if m.targets != [] {
      assert IsRest(m, ProxyBlock(m, "/"));
    }
  }

  /** A path no rule and no path route matches goes to the path prefix, the whole site or
      the fallback, whichever comes first, or to no location at all. */
  lemma RestServes(m: Mapping, path: string, b: Block)
    requires m.redirectTo == "" && PlainPrefixes(m.pathRoutes) && Accepts(ServingLines(m)) && HasPrefix(path, "/")
    requires !PortPath(m.pathRoutes, path)
    requires forall r :: Enabled(m, r) ==> !HasPrefix(path, R.NginxPath(r.path))
    ensures Serves(ServingLines(m), path, b) <==> Rest(m, path) == Some(b)
  {
    AcceptsIff(m);
    ServingBlocks(m);
    RegexTakesIff(m, path);
    OnlyRestMatches(m, path);
    LongestRest(m, path, b);
  }

  // ---- when nginx follows the longest rule ----

  lemma LongestRuleExists(m: Mapping, path: string, x: RouteRule) returns (r: RouteRule)
    requires Enabled(m, x) && HasPrefix(path, R.NginxPath(x.path))
    ensures LongestRule(m, path, r)
    decreases |path| - |R.NginxPath(x.path)|
  {
    if LongestRule(m, path, x) {
      r := x;
    } else {
      var s :| Enabled(m, s) && HasPrefix(path, R.NginxPath(s.path)) && |R.NginxPath(s.path)| > |R.NginxPath(x.path)|;
      r := LongestRuleExists(m, path, s);
    }
  }

  ghost predicate FollowsLongest(m: Mapping) {
    forall path, r :: LongestRule(m, path, r) ==> Serves(ServingLines(m), path, BlockOf(m, r))
  }

  /** The path prefix is below the rule. */
  ghost predicate SiteBelow(m: Mapping, r: RouteRule) {
    m.pathPrefix != "" && HasPrefix(m.pathPrefix, R.NginxPath(r.path))
  }

  /** Some path with a port for the path route has the rule's prefix. */
  ghost predicate PortMeets(pr: PathRoute, r: RouteRule) {
    HasPrefix(PortPrefix(pr), R.NginxPath(r.path)) || FollowedByDigit(R.NginxPath(r.path), PortPrefix(pr))
  }

  ghost predicate Unrivalled(m: Mapping, r: RouteRule) {
    !SiteBelow(m, r) && forall pr :: pr in m.pathRoutes ==> !PortMeets(pr, r)
  }

  lemma PortMeetsAt(pr: PathRoute, r: RouteRule, path: string)
    requires FollowedByDigit(path, PortPrefix(pr)) && HasPrefix(path, R.NginxPath(r.path))
    ensures PortMeets(pr, r)
  {
    var p, q := R.NginxPath(r.path), PortPrefix(pr);
    if |p| <= |q| {
      R.PrefixesNest(path, p, q);
    } else {
      R.PrefixesNest(path, q, p);
      assert p[|q|] == path[..|p|][|q|];
    }
  }

  lemma MeetingPath(pr: PathRoute, r: RouteRule) returns (path: string)
    requires PortMeets(pr, r)
    ensures FollowedByDigit(path, PortPrefix(pr)) && HasPrefix(path, R.NginxPath(r.path))
  {
    var p, q := R.NginxPath(r.path), PortPrefix(pr);
    if HasPrefix(q, p) {
      path := q + "0";
      assert path[..|q|] == q && path[..|p|] == q[..|p|];
    } else {
      path := p;
    }
  }

  lemma UnrivalledServes(m: Mapping, path: string, r: RouteRule)
    requires m.redirectTo == "" && Rooted(m.routes) && PlainPrefixes(m.pathRoutes)
    requires LongestRule(m, path, r) && Unrivalled(m, r)
    ensures Serves(ServingLines(m), path, BlockOf(m, r))
  {
    RuleServesIff(m, path, r);
    if SiteTakes(m, path, r) { R.PrefixesNest(path, R.NginxPath(r.path), m.pathPrefix); }
    forall pr | pr in m.pathRoutes && FollowedByDigit(path, PortPrefix(pr)) ensures PortMeets(pr, r) { PortMeetsAt(pr, r, path); }
  }

  lemma SiteBelowTakes(m: Mapping, r: RouteRule)
    requires m.redirectTo == "" && Rooted(m.routes) && PlainPrefixes(m.pathRoutes) && Accepts(ServingLines(m))
    requires Enabled(m, r) && SiteBelow(m, r)
    ensures !FollowsLongest(m)
  {
    AcceptsIff(m);
    var x := LongestRuleExists(m, m.pathPrefix, r);
    assert m.pathPrefix[..|m.pathPrefix|] == m.pathPrefix;
    assert R.NginxPath(x.path) != m.pathPrefix;
    RuleServesIff(m, m.pathPrefix, x);
  }

  lemma PortTakes(m: Mapping, pr: PathRoute, r: RouteRule)
    requires m.redirectTo == "" && Rooted(m.routes) && PlainPrefixes(m.pathRoutes)
    requires Enabled(m, r) && pr in m.pathRoutes && PortMeets(pr, r)
    ensures !FollowsLongest(m)
  {
    var path := MeetingPath(pr, r);
    var x := LongestRuleExists(m, path, r);
    RuleServesIff(m, path, x);
  }

  /** Of a block it loads, nginx serves every path by its longest matching rule exactly
      when no enabled rule's prefix meets the path prefix below it or a path route. */
  lemma FollowsLongestIff(m: Mapping)
    requires m.redirectTo == "" && Rooted(m.routes) && PlainPrefixes(m.pathRoutes) && Accepts(ServingLines(m))
    ensures FollowsLongest(m) <==> forall r :: Enabled(m, r) ==> Unrivalled(m, r)
  {
    if forall r :: Enabled(m, r) ==> Unrivalled(m, r) {
      forall path, r | LongestRule(m, path, r) ensures Serves(ServingLines(m), path, BlockOf(m, r)) { UnrivalledServes(m, path, r); }
    } else {
      var r :| Enabled(m, r) && !Unrivalled(m, r);
      if SiteBelow(m, r) {
        SiteBelowTakes(m, r);
      } else {
        var pr :| pr in m.pathRoutes && PortMeets(pr, r);
        PortTakes(m, pr, r);
      }
    }
  }
}
