/** The upstream groups of a printed nginx configuration: whose they are, and that no two
    share a name. */
module NginxGroups {
  import opened Text
  import opened Model
  import opened NginxRender
  import opened NginxParser
  import opened NginxBlocks
  import R = Routes

  datatype Group = Group(name: string, targets: seq<Target>)

  type Ups = map<string, seq<string>>

  function AddList(ups: Ups, gs: seq<Group>): Ups
    decreases |gs|
  {
    if gs == [] then ups else AddList(AddGroup(ups, gs[0].name, gs[0].targets), gs[1..])
  }

  function Lookup(ups: Ups, name: string): Option<seq<string>> {
    if name in ups then Some(ups[name]) else None
  }

  ghost predicate DistinctNames(gs: seq<Group>) {
    forall i, j :: 0 <= i < j < |gs| ==> gs[i].name != gs[j].name
  }

  ghost predicate Named(gs: seq<Group>, name: string) {
    exists i :: 0 <= i < |gs| && gs[i].name == name
  }

  lemma HeadFirst(x: seq<Group>, y: seq<Group>)
    requires x != []
    ensures x == [x[0]] + x[1..] && x + y == [x[0]] + (x[1..] + y)
  {}

  lemma AddListCons(ups: Ups, g: Group, gs: seq<Group>)
    ensures AddList(ups, [g] + gs) == AddList(AddGroup(ups, g.name, g.targets), gs)
  {
    assert ([g] + gs)[1..] == gs;
  }

  lemma {:induction false} AddListAppend(ups: Ups, x: seq<Group>, y: seq<Group>)
    ensures AddList(ups, x + y) == AddList(AddList(ups, x), y)
    decreases |x|
  {
    if x == [] {
      assert x + y == y;
    } else {
      var g, rest := x[0], x[1..];
      HeadFirst(x, y);
      AddListAppend(AddGroup(ups, g.name, g.targets), rest, y);
      AddListCons(ups, g, rest);
      AddListCons(ups, g, rest + y);
    }
  }

  lemma NamedCons(gs: seq<Group>, name: string)
    requires gs != []
    ensures Named(gs, name) <==> gs[0].name == name || Named(gs[1..], name)
  {
    if Named(gs[1..], name) {
      var i :| 0 <= i < |gs[1..]| && gs[1..][i].name == name;
      assert gs[i + 1].name == name;
    }
    if Named(gs, name) && gs[0].name != name {
      var i :| 0 <= i < |gs| && gs[i].name == name;
      assert gs[1..][i - 1].name == name;
    }
  }

  /** A name no group has is left alone. */
  lemma {:induction false} Misses(ups: Ups, gs: seq<Group>, name: string)
    requires !Named(gs, name)
    ensures Lookup(AddList(ups, gs), name) == Lookup(ups, name)
    decreases |gs|
  {
    if gs != [] {
      NamedCons(gs, name);
      Misses(AddGroup(ups, gs[0].name, gs[0].targets), gs[1..], name);
    }
  }

  lemma NewGroup(ups: Ups, g: Group)
    requires g.name !in ups && g.targets != []
    ensures Lookup(AddGroup(ups, g.name, g.targets), g.name) == Some(HostPorts(g.targets))
  {
    assert [] + HostPorts(g.targets) == HostPorts(g.targets);
  }

  /** A group whose name is its own holds exactly its targets. */
  lemma {:induction false} Hits(ups: Ups, gs: seq<Group>, i: nat)
    requires i < |gs| && DistinctNames(gs) && gs[i].targets != [] && gs[i].name !in ups
    ensures Lookup(AddList(ups, gs), gs[i].name) == Some(HostPorts(gs[i].targets))
    decreases |gs|
  {
    var next := AddGroup(ups, gs[0].name, gs[0].targets);
    if i == 0 {
      NewGroup(ups, gs[0]);
      if Named(gs[1..], gs[0].name) { HeadIsNamedOnce(gs); }
      Misses(next, gs[1..], gs[0].name);
    } else {
      assert gs[1..][i - 1] == gs[i];
      Hits(next, gs[1..], i - 1);
    }
  }

  lemma HeadIsNamedOnce(gs: seq<Group>)
    requires gs != [] && DistinctNames(gs)
    ensures !Named(gs[1..], gs[0].name)
  {
    forall i | 0 <= i < |gs[1..]| ensures gs[1..][i].name != gs[0].name { assert gs[1..][i] == gs[i + 1]; }
  }

  predicate NoColonKeys(ups: Ups) {
    forall k :: k in ups ==> ':' !in k
  }

  lemma {:induction false} KeysStayPlain(ups: Ups, gs: seq<Group>)
    requires NoColonKeys(ups) && forall i :: 0 <= i < |gs| ==> ':' !in gs[i].name
    ensures NoColonKeys(AddList(ups, gs))
    decreases |gs|
  {
    if gs != [] {
      forall i | 0 <= i < |gs[1..]| ensures ':' !in gs[1..][i].name { assert gs[1..][i] == gs[i + 1]; }
      KeysStayPlain(AddGroup(ups, gs[0].name, gs[0].targets), gs[1..]);
    }
  }

  // ---- names ----

  datatype Kind = HttpKind | RuleKind | StreamKind

  lemma PlainNames(m: Mapping, r: RouteRule)
    ensures ':' !in HttpUpstreamName(m) && '/' !in HttpUpstreamName(m)
    ensures ':' !in StreamUpstreamName(m) && '/' !in StreamUpstreamName(m)
    ensures ':' !in RuleUpstreamName(m, r) && '/' !in RuleUpstreamName(m, r)
  {
    var id, rid := Itoa(m.id), Itoa(r.id);
    assert ':' !in id && '/' !in id && ':' !in rid && '/' !in rid;
    assert ':' !in HTTP_GROUP && '/' !in HTTP_GROUP && ':' !in STREAM_GROUP && '/' !in STREAM_GROUP;
    assert ':' !in RULE_GROUP && '/' !in RULE_GROUP && ':' !in RULE_SEPARATOR && '/' !in RULE_SEPARATOR;
  }

  /** The fourth and sixth letters tell the kinds of group apart. */
  lemma KindLetters(m: Mapping, r: RouteRule)
    requires r.targets != []
    ensures HttpUpstreamName(m)[3] == 'u' && HttpUpstreamName(m)[5] == 's'
    ensures RuleUpstreamName(m, r)[3] == 'u' && RuleUpstreamName(m, r)[5] == '_'
    ensures StreamUpstreamName(m)[3] == 's'
  {}

  lemma HttpNameInjective(m: Mapping, k: Mapping)
    requires HttpUpstreamName(m) == HttpUpstreamName(k)
    ensures m.id == k.id
  {
    assert HttpUpstreamName(m)[|HTTP_GROUP|..] == Itoa(m.id) && HttpUpstreamName(k)[|HTTP_GROUP|..] == Itoa(k.id);
    ItoaInjective(m.id, k.id);
  }

  lemma StreamNameInjective(m: Mapping, k: Mapping)
    requires StreamUpstreamName(m) == StreamUpstreamName(k)
    ensures m.id == k.id
  {
    assert StreamUpstreamName(m)[|STREAM_GROUP|..] == Itoa(m.id) && StreamUpstreamName(k)[|STREAM_GROUP|..] == Itoa(k.id);
    ItoaInjective(m.id, k.id);
  }

  /** Both numbers can be read off the name of a rule's group. */
  lemma RuleNameInjective(m: Mapping, r: RouteRule, k: Mapping, q: RouteRule)
    requires r.targets != [] && q.targets != [] && RuleUpstreamName(m, r) == RuleUpstreamName(k, q)
    ensures m.id == k.id && r.id == q.id
  {
    var x, y := RuleUpstreamName(m, r)[|RULE_GROUP|..], RuleUpstreamName(k, q)[|RULE_GROUP|..];
    RuleNumbers(m.id, r.id, x);
    RuleNumbers(k.id, q.id, y);
    ItoaInjective(m.id, k.id);
    ItoaInjective(r.id, q.id);
  }

  lemma RuleNumbers(id: nat, rid: nat, s: string)
    requires s == Itoa(id) + (RULE_SEPARATOR + Itoa(rid))
    ensures var i := Index(s, '_'); i == |Itoa(id)| && s[..i] == Itoa(id) && s[i + 2..] == Itoa(rid)
  {
    assert RULE_SEPARATOR == ['_'] + ['r'];
    assert s == Itoa(id) + ['_'] + (['r'] + Itoa(rid));
    assert !IsDigit('_');
    IndexAt(Itoa(id), '_', ['r'] + Itoa(rid));
    SlicesAround(Itoa(id), '_', 'r', Itoa(rid));
  }

  lemma SlicesAround(left: string, c: char, d: char, right: string)
    ensures var s := left + [c] + ([d] + right); s[..|left|] == left && s[|left| + 2..] == right
  {}

  // ---- the groups of a configuration ----

  function SortedLocs(m: Mapping): seq<R.Loc> {
    R.Sorted(R.EnabledLocs(m.routes, true))
  }

  /** The groups of a mapping's rules, in the order they are printed. */
  function RuleGroups(m: Mapping, locs: seq<R.Loc>): seq<Group> {
    if locs == [] then []
    else if NeedsRuleGroup(locs[0].rule) then [Group(RuleUpstreamName(m, locs[0].rule), locs[0].rule.targets)] + RuleGroups(m, locs[1..])
    else RuleGroups(m, locs[1..])
  }

  /** The groups of one kind that a mapping has. */
  function GroupsOf(m: Mapping, kind: Kind): seq<Group> {
    match kind
    case HttpKind => if HttpRendered(m) && NeedsUpstream(m) then [Group(HttpUpstreamName(m), m.targets)] else []
    case RuleKind => if HttpRendered(m) && m.redirectTo == "" then RuleGroups(m, SortedLocs(m)) else []
    case StreamKind => if StreamRendered(m) && m.targets != [] then [Group(StreamUpstreamName(m), m.targets)] else []
  }

  function Flat(ms: seq<Mapping>, kind: Kind): seq<Group> {
    if ms == [] then [] else GroupsOf(ms[0], kind) + Flat(ms[1..], kind)
  }

  function GroupList(ms: seq<Mapping>): seq<Group> {
    Flat(ms, HttpKind) + Flat(ms, RuleKind) + Flat(ms, StreamKind)
  }

  /** The groups of the whole configuration. */
  function AllGroups(ms: seq<Mapping>): Ups {
    AddList(map[], GroupList(ms))
  }

  /** Rules that proxy have somewhere to go, and no two rules share an id. */
  predicate ProperRules(rules: seq<RouteRule>) {
    && (forall i :: 0 <= i < |rules| ==> rules[i].redirect == "" ==> rules[i].targets != [])
    && (forall i, j :: 0 <= i < j < |rules| ==> rules[i].id != rules[j].id)
  }

  ghost predicate AllProper(ms: seq<Mapping>) {
    forall i :: 0 <= i < |ms| ==> HttpRendered(ms[i]) ==> ProperRules(ms[i].routes)
  }

  /** What a group's name says. */
  ghost predicate NameFits(g: Group, m: Mapping, kind: Kind) {
    g.targets != [] &&
    match kind
    case HttpKind => g.name == HttpUpstreamName(m)
    case RuleKind => exists r :: r in m.routes && r.targets != [] && g.name == RuleUpstreamName(m, r)
    case StreamKind => g.name == StreamUpstreamName(m)
  }

  ghost predicate DistinctLocs(locs: seq<R.Loc>) {
    forall i, j :: 0 <= i < j < |locs| ==> locs[i].rule.id != locs[j].rule.id
  }

  lemma {:induction false} InsertDistinct(sorted: seq<R.Loc>, x: R.Loc)
    requires DistinctLocs(sorted) && forall y :: y in sorted ==> y.rule.id != x.rule.id
    ensures DistinctLocs(R.Insert(sorted, x))
  {
    if sorted != [] && |x.path| > |sorted[|sorted| - 1].path| {
      var init, last := sorted[..|sorted| - 1], sorted[|sorted| - 1];
      InsertDistinct(init, x);
      R.InsertMembers(init, x);
      var rest := R.Insert(init, x);
      forall i | 0 <= i < |rest| ensures rest[i].rule.id != last.rule.id {
        assert rest[i] in rest;
        if rest[i] in init {
          var k :| 0 <= k < |init| && init[k] == rest[i];
          assert sorted[k] == init[k];
        } else {
          assert last in sorted;
        }
      }
    }
  }

  lemma {:induction false} SortedDistinct(locs: seq<R.Loc>)
    requires DistinctLocs(locs)
    ensures DistinctLocs(R.Sorted(locs))
  {
    if locs != [] {
      var init, last := locs[..|locs| - 1], locs[|locs| - 1];
      SortedDistinct(init);
      forall y | y in R.Sorted(init) ensures y.rule.id != last.rule.id {
        R.SortedMembers(init, y);
        var k :| 0 <= k < |init| && init[k] == y;
        assert locs[k] == y;
      }
      InsertDistinct(R.Sorted(init), last);
    }
  }

  lemma {:induction false} EnabledDistinct(rules: seq<RouteRule>)
    requires ProperRules(rules)
    ensures DistinctLocs(R.EnabledLocs(rules, true))
    ensures forall l :: l in R.EnabledLocs(rules, true) ==> l.rule in rules && l.rule.enabled && l.path == R.NginxPath(l.rule.path)
  {
    if rules != [] {
      var rest := R.EnabledLocs(rules[1..], true);
      EnabledDistinct(rules[1..]);
      forall j | 0 <= j < |rest| ensures rest[j].rule.id != rules[0].id {
        assert rest[j] in rest;
        var k :| 0 <= k < |rules[1..]| && rules[1..][k] == rest[j].rule;
        assert rules[k + 1] == rest[j].rule;
      }
    }
  }

  /** The sorted locations of a mapping: rules of its own, each once. */
  lemma SortedLocsProper(m: Mapping)
    requires ProperRules(m.routes)
    ensures DistinctLocs(SortedLocs(m))
    ensures forall l :: l in SortedLocs(m) ==> l.rule in m.routes && l.rule.enabled && l.path == R.NginxPath(l.rule.path)
  {
    EnabledDistinct(m.routes);
    SortedDistinct(R.EnabledLocs(m.routes, true));
    forall l | l in SortedLocs(m) ensures l in R.EnabledLocs(m.routes, true) { R.SortedMembers(R.EnabledLocs(m.routes, true), l); }
  }

  lemma SortedLocMembers(m: Mapping, l: R.Loc)
    ensures l in SortedLocs(m) <==> l.rule in m.routes && l.rule.enabled && l.path == R.NginxPath(l.rule.path)
  {
    R.LocMembers(m.routes, true, l);
    R.SortedMembers(R.EnabledLocs(m.routes, true), l);
  }

  ghost predicate ProperLocs(m: Mapping, locs: seq<R.Loc>) {
    && DistinctLocs(locs)
    && forall i :: 0 <= i < |locs| ==> locs[i].rule in m.routes && (locs[i].rule.redirect == "" ==> locs[i].rule.targets != [])
  }

  lemma ProperLocsTail(m: Mapping, locs: seq<R.Loc>)
    requires locs != [] && ProperLocs(m, locs)
    ensures ProperLocs(m, locs[1..])
  {
    var rest := locs[1..];
    forall i | 0 <= i < |rest| ensures rest[i] == locs[i + 1] {}
  }

  lemma SortedLocsAreProper(m: Mapping)
    requires ProperRules(m.routes)
    ensures ProperLocs(m, SortedLocs(m))
  {
    SortedLocsProper(m);
    forall i | 0 <= i < |SortedLocs(m)|
      ensures SortedLocs(m)[i].rule in m.routes && (SortedLocs(m)[i].rule.redirect == "" ==> SortedLocs(m)[i].rule.targets != [])
    {
      assert SortedLocs(m)[i] in SortedLocs(m);
    }
  }

  ghost predicate FromLoc(g: Group, m: Mapping, locs: seq<R.Loc>) {
    exists i :: 0 <= i < |locs| && NeedsRuleGroup(locs[i].rule) && g == Group(RuleUpstreamName(m, locs[i].rule), locs[i].rule.targets)
  }

  lemma FromLocCons(g: Group, m: Mapping, locs: seq<R.Loc>)
    requires locs != []
    ensures FromLoc(g, m, locs)
      <==> (NeedsRuleGroup(locs[0].rule) && g == Group(RuleUpstreamName(m, locs[0].rule), locs[0].rule.targets)) || FromLoc(g, m, locs[1..])
  {
    if FromLoc(g, m, locs[1..]) {
      var i :| 0 <= i < |locs[1..]| && NeedsRuleGroup(locs[1..][i].rule)
        && g == Group(RuleUpstreamName(m, locs[1..][i].rule), locs[1..][i].rule.targets);
      assert locs[i + 1] == locs[1..][i];
    }
    if FromLoc(g, m, locs) {
      var i :| 0 <= i < |locs| && NeedsRuleGroup(locs[i].rule) && g == Group(RuleUpstreamName(m, locs[i].rule), locs[i].rule.targets);
      if i > 0 { assert locs[1..][i - 1] == locs[i]; }
    }
  }

  lemma {:induction false} RuleGroupsMembers(m: Mapping, locs: seq<R.Loc>, g: Group)
    ensures g in RuleGroups(m, locs) <==> FromLoc(g, m, locs)
  {
    if locs != [] {
      RuleGroupsMembers(m, locs[1..], g);
      FromLocCons(g, m, locs);
    }
  }

  lemma {:induction false} RuleGroupsDistinct(m: Mapping, locs: seq<R.Loc>)
    requires ProperLocs(m, locs)
    ensures DistinctNames(RuleGroups(m, locs))
  {
    if locs != [] {
      ProperLocsTail(m, locs);
      RuleGroupsDistinct(m, locs[1..]);
      if NeedsRuleGroup(locs[0].rule) {
        var rest := RuleGroups(m, locs[1..]);
        forall j | 0 <= j < |rest| ensures rest[j].name != RuleUpstreamName(m, locs[0].rule) {
          RuleGroupsMembers(m, locs[1..], rest[j]);
          var i :| 0 <= i < |locs[1..]| && NeedsRuleGroup(locs[1..][i].rule)
            && rest[j] == Group(RuleUpstreamName(m, locs[1..][i].rule), locs[1..][i].rule.targets);
          assert locs[i + 1] == locs[1..][i];
          if rest[j].name == RuleUpstreamName(m, locs[0].rule) { RuleNameInjective(m, locs[i + 1].rule, m, locs[0].rule); }
        }
      }
    }
  }

  lemma GroupsOfFit(m: Mapping, kind: Kind)
    requires HttpRendered(m) ==> ProperRules(m.routes)
    ensures DistinctNames(GroupsOf(m, kind))
    ensures forall g :: g in GroupsOf(m, kind) ==> NameFits(g, m, kind)
  {
    if kind == RuleKind && HttpRendered(m) && m.redirectTo == "" {
      SortedLocsAreProper(m);
      RuleGroupsDistinct(m, SortedLocs(m));
      forall g | g in GroupsOf(m, kind) ensures NameFits(g, m, kind) {
        RuleGroupsMembers(m, SortedLocs(m), g);
      }
    }
  }

  /** Groups of different mappings, or of different kinds, have different names. */
  lemma NamesDiffer(g: Group, m: Mapping, s: Kind, h: Group, k: Mapping, t: Kind)
    requires NameFits(g, m, s) && NameFits(h, k, t) && g.name == h.name
    ensures s == t && m.id == k.id
  {
    var r := if s == RuleKind then RuleNamed(g, m) else RouteRule(0, "", true, [Target("", 0, 0, false)], "");
    var q := if t == RuleKind then RuleNamed(h, k) else RouteRule(0, "", true, [Target("", 0, 0, false)], "");
    KindLetters(m, r);
    KindLetters(k, q);
    match s
    case HttpKind => if t == HttpKind { HttpNameInjective(m, k); }
    case RuleKind => if t == RuleKind { RuleNameInjective(m, r, k, q); }
    case StreamKind => if t == StreamKind { StreamNameInjective(m, k); }
  }

  ghost function RuleNamed(g: Group, m: Mapping): (r: RouteRule)
    requires NameFits(g, m, RuleKind)
    ensures r in m.routes && r.targets != [] && g.name == RuleUpstreamName(m, r)
  {
    var r :| r in m.routes && r.targets != [] && g.name == RuleUpstreamName(m, r);
    r
  }

  ghost predicate FitsSome(g: Group, ms: seq<Mapping>, kind: Kind) {
    exists i :: 0 <= i < |ms| && g in GroupsOf(ms[i], kind) && NameFits(g, ms[i], kind)
  }

  lemma AllProperTail(ms: seq<Mapping>)
    requires ms != [] && AllProper(ms)
    ensures AllProper(ms[1..]) && (HttpRendered(ms[0]) ==> ProperRules(ms[0].routes))
  {
    forall i | 0 <= i < |ms[1..]| ensures ms[1..][i] == ms[i + 1] {}
  }

  lemma {:induction false} FlatFits(ms: seq<Mapping>, kind: Kind)
    requires AllProper(ms)
    ensures forall g :: g in Flat(ms, kind) ==> FitsSome(g, ms, kind)
  {
    if ms != [] {
      AllProperTail(ms);
      FlatFits(ms[1..], kind);
      GroupsOfFit(ms[0], kind);
      forall g | g in Flat(ms, kind) ensures FitsSome(g, ms, kind) {
        if g in Flat(ms[1..], kind) {
          var i :| 0 <= i < |ms[1..]| && g in GroupsOf(ms[1..][i], kind) && NameFits(g, ms[1..][i], kind);
          assert ms[i + 1] == ms[1..][i];
        }
      }
    }
  }

  lemma {:induction false} FlatHas(ms: seq<Mapping>, kind: Kind, i: nat, g: Group)
    requires i < |ms| && g in GroupsOf(ms[i], kind)
    ensures g in Flat(ms, kind)
  {
    if i > 0 { FlatHas(ms[1..], kind, i - 1, g); }
  }

  lemma DistinctAppend(x: seq<Group>, y: seq<Group>)
    requires DistinctNames(x) && DistinctNames(y) && forall g, h :: g in x && h in y ==> g.name != h.name
    ensures DistinctNames(x + y)
  {}

  lemma {:induction false} FlatDistinct(ms: seq<Mapping>, kind: Kind)
    requires DistinctIds(ms) && AllProper(ms)
    ensures DistinctNames(Flat(ms, kind))
  {
    if ms != [] {
      var rest := Flat(ms[1..], kind);
      AllProperTail(ms);
      FlatDistinct(ms[1..], kind);
      FlatFits(ms[1..], kind);
      GroupsOfFit(ms[0], kind);
      forall g, h | g in GroupsOf(ms[0], kind) && h in rest ensures g.name != h.name {
        var i :| 0 <= i < |ms[1..]| && h in GroupsOf(ms[1..][i], kind) && NameFits(h, ms[1..][i], kind);
        assert ms[i + 1] == ms[1..][i];
        if g.name == h.name { NamesDiffer(g, ms[0], kind, h, ms[i + 1], kind); }
      }
      DistinctAppend(GroupsOf(ms[0], kind), rest);
    }
  }

  lemma KindsApart(ms: seq<Mapping>, s: Kind, t: Kind)
    requires AllProper(ms) && s != t
    ensures forall g, h :: g in Flat(ms, s) && h in Flat(ms, t) ==> g.name != h.name
  {
    FlatFits(ms, s);
    FlatFits(ms, t);
    forall g, h | g in Flat(ms, s) && h in Flat(ms, t) ensures g.name != h.name {
      var i :| 0 <= i < |ms| && g in GroupsOf(ms[i], s) && NameFits(g, ms[i], s);
      var j :| 0 <= j < |ms| && h in GroupsOf(ms[j], t) && NameFits(h, ms[j], t);
      if g.name == h.name { NamesDiffer(g, ms[i], s, h, ms[j], t); }
    }
  }

  /** No two groups of a configuration share a name. */
  lemma GroupListDistinct(ms: seq<Mapping>)
    requires DistinctIds(ms) && AllProper(ms)
    ensures DistinctNames(GroupList(ms))
  {
    FlatDistinct(ms, HttpKind);
    FlatDistinct(ms, RuleKind);
    FlatDistinct(ms, StreamKind);
    KindsApart(ms, HttpKind, RuleKind);
    KindsApart(ms, HttpKind, StreamKind);
    KindsApart(ms, RuleKind, StreamKind);
    DistinctAppend(Flat(ms, HttpKind), Flat(ms, RuleKind));
    DistinctAppend(Flat(ms, HttpKind) + Flat(ms, RuleKind), Flat(ms, StreamKind));
  }

  lemma InGroupList(ms: seq<Mapping>, kind: Kind, g: Group)
    requires g in Flat(ms, kind)
    ensures g in GroupList(ms)
  {}

  /** Every group of a mapping is found, with exactly its targets. */
  lemma FindsGroup(ms: seq<Mapping>, i: nat, kind: Kind, g: Group)
    requires i < |ms| && DistinctIds(ms) && AllProper(ms) && g in GroupsOf(ms[i], kind)
    ensures Lookup(AllGroups(ms), g.name) == Some(HostPorts(g.targets))
  {
    FlatHas(ms, kind, i, g);
    InGroupList(ms, kind, g);
    GroupListDistinct(ms);
    AllProperAt(ms, i);
    GroupsOfFit(ms[i], kind);
    var j :| 0 <= j < |GroupList(ms)| && GroupList(ms)[j] == g;
    Hits(map[], GroupList(ms), j);
  }

  lemma AllProperAt(ms: seq<Mapping>, i: nat)
    requires i < |ms| && AllProper(ms)
    ensures HttpRendered(ms[i]) ==> ProperRules(ms[i].routes)
  {}

  /** Every group of the configuration belongs to one of its mappings. */
  lemma WhoseGroup(ms: seq<Mapping>, j: nat) returns (t: Kind, k: nat)
    requires j < |GroupList(ms)| && AllProper(ms)
    ensures k < |ms| && GroupList(ms)[j] in GroupsOf(ms[k], t) && NameFits(GroupList(ms)[j], ms[k], t)
  {
    var g := GroupList(ms)[j];
    assert g in GroupList(ms);
    t := if g in Flat(ms, HttpKind) then HttpKind else if g in Flat(ms, RuleKind) then RuleKind else StreamKind;
    FlatFits(ms, t);
    k :| 0 <= k < |ms| && g in GroupsOf(ms[k], t) && NameFits(g, ms[k], t);
  }

  /** A mapping without a group of its own finds none under its name. */
  lemma FindsNoGroup(ms: seq<Mapping>, i: nat, kind: Kind, name: string)
    requires i < |ms| && DistinctIds(ms) && AllProper(ms) && kind != RuleKind && GroupsOf(ms[i], kind) == []
    requires name == if kind == HttpKind then HttpUpstreamName(ms[i]) else StreamUpstreamName(ms[i])
    ensures Lookup(AllGroups(ms), name) == None
  {
    var list := GroupList(ms);
    forall j | 0 <= j < |list| ensures list[j].name != name {
      var t, k := WhoseGroup(ms, j);
      if list[j].name == name {
        NamesDiffer(Group(name, list[j].targets), ms[i], kind, list[j], ms[k], t);
      }
    }
    Misses(map[], list, name);
  }

  lemma GroupsHaveNoColon(ms: seq<Mapping>)
    requires AllProper(ms)
    ensures NoColonKeys(AllGroups(ms))
  {
    var list := GroupList(ms);
    forall j | 0 <= j < |list| ensures ':' !in list[j].name {
      var t, k := WhoseGroup(ms, j);
      PlainNames(ms[k], if t == RuleKind then RuleNamed(list[j], ms[k]) else RouteRule(0, "", true, [], ""));
    }
    KeysStayPlain(map[], list);
  }
}
