/** When every ACL of a printed HAProxy frontend is declared once. */
module HAProxyNames {
  import opened Text
  import opened Model
  import opened HAProxyRender
  import opened HAProxyReading
  import opened HAProxyRoutes
  import R = Routes

  // ---- names once, in any order ----

  lemma {:induction false} DistinctCounts(names: seq<string>)
    ensures Distinct(names) <==> forall n :: multiset(names)[n] <= 1
  {
    if names != [] {
      var rest := names[1..];
      DistinctCounts(rest);
      DistinctCons(names[0], rest);
      CountCons(names);
      if Distinct(names) {
        forall n ensures multiset(names)[n] <= 1 { assert multiset(rest)[n] <= 1; }
      }
      if forall n :: multiset(names)[n] <= 1 {
        forall n ensures multiset(rest)[n] <= 1 { assert multiset(names)[n] <= 1; }
        assert multiset(names)[names[0]] <= 1;
      }
    }
  }

  lemma CountCons(names: seq<string>)
    requires names != []
    ensures forall n :: multiset(names)[n] == multiset(names[1..])[n] + (if n == names[0] then 1 else 0)
    ensures names[0] in names[1..] <==> multiset(names[1..])[names[0]] > 0
  {
    HeadTail(names);
    assert multiset(names) == multiset{names[0]} + multiset(names[1..]);
  }

  lemma PermutedDistinct(x: seq<string>, y: seq<string>)
    requires multiset(x) == multiset(y)
    ensures Distinct(x) <==> Distinct(y)
  {
    DistinctCounts(x);
    DistinctCounts(y);
  }

  lemma SuffixSame(x: string, a: string, b: string)
    requires x + a == x + b
    ensures a == b
  {
    assert (x + a)[|x|..] == a && (x + b)[|x|..] == b;
  }

  // ---- the ACLs of a frontend ----

  function RuleNames(m: Mapping, locs: seq<R.Loc>): (ns: seq<string>)
    ensures |ns| == |locs| && forall i :: 0 <= i < |locs| ==> ns[i] == RuleAcl(m, locs[i].rule)
  {
    if locs == [] then [] else [RuleAcl(m, locs[0].rule)] + RuleNames(m, locs[1..])
  }

  function RouteNames(m: Mapping, prs: seq<PathRoute>): (ns: seq<string>)
    ensures |ns| == |prs| && forall i :: 0 <= i < |prs| ==> ns[i] == RouteAcl(m, prs[i])
  {
    if prs == [] then [] else [RouteAcl(m, prs[0])] + RouteNames(m, prs[1..])
  }

  function OtherNames(m: Mapping): seq<string> {
    (if SomeUpgrade(m.pathRoutes) then [UpAcl(m)] else []) + (if m.pathPrefix != "" then [PathAcl(m)] else [])
  }

  lemma {:induction false} RuleStmtsNames(m: Mapping, locs: seq<R.Loc>)
    ensures AclNames(RuleStmts(m, locs)) == RuleNames(m, locs)
  {
    if locs != [] {
      var acl, stmt := Acl(RuleAcl(m, locs[0].rule), Beg(locs[0].path)), RuleStmt(m, locs[0].rule);
      AclNamesAppend([acl] + [stmt], RuleStmts(m, locs[1..]));
      AclNamesAppend([acl], [stmt]);
      assert [acl, stmt] == [acl] + [stmt];
      RuleStmtsNames(m, locs[1..]);
    }
  }

  lemma {:induction false} RouteAclStmtsNames(m: Mapping, prs: seq<PathRoute>)
    ensures AclNames(RouteAclStmts(m, prs)) == RouteNames(m, prs)
  {
    if prs != [] {
      var s := RouteAclStmt(m, prs[0]);
      AclNamesAppend([s], RouteAclStmts(m, prs[1..]));
      assert AclNames([s]) == [s.name];
      RouteAclStmtsNames(m, prs[1..]);
    }
  }

  /** Statements that declare nothing. */
  predicate NoAcl(ss: seq<Stmt>) {
    forall i :: 0 <= i < |ss| ==> !ss[i].Acl?
  }

  lemma {:induction false} NoAclNames(ss: seq<Stmt>)
    requires NoAcl(ss)
    ensures AclNames(ss) == []
  {
    if ss != [] { NoAclNames(ss[1..]); }
  }

  lemma {:induction false} GuardsNoAcl(m: Mapping, prs: seq<PathRoute>)
    ensures NoAcl(GuardStmts(m, prs))
  {
    if prs != [] { GuardsNoAcl(m, prs[1..]); }
  }

  lemma UpgradeNames(m: Mapping)
    ensures AclNames(UpgradeStmts(m)) == if SomeUpgrade(m.pathRoutes) then [UpAcl(m)] else []
  {
    if SomeUpgrade(m.pathRoutes) {
      var s := Acl(UpAcl(m), Upgrading);
      AclNamesAppend([s], GuardStmts(m, m.pathRoutes));
      GuardsNoAcl(m, m.pathRoutes);
      NoAclNames(GuardStmts(m, m.pathRoutes));
      assert AclNames([s]) == [s.name];
    }
  }

  lemma RouteStmtsNames(m: Mapping)
    ensures AclNames(RouteStmts(m)) == RouteNames(m, m.pathRoutes) + (if SomeUpgrade(m.pathRoutes) then [UpAcl(m)] else [])
  {
    if m.pathRoutes != [] {
      RouteStmtsParts(m);
      RouteAclStmtsNames(m, m.pathRoutes);
      UpgradeNames(m);
      NoAclNames(RouteTail(m));
      AclNamesAppend(UpgradeStmts(m), RouteTail(m));
      AclNamesAppend(RouteAclStmts(m, m.pathRoutes), UpgradeStmts(m) + RouteTail(m));
    }
  }

  lemma PrefixStmtsNames(m: Mapping)
    ensures AclNames(PrefixStmts(m)) == if m.pathPrefix != "" then [PathAcl(m)] else []
  {
    if m.pathPrefix != "" {
      var s := Acl(PathAcl(m), Beg(m.pathPrefix));
      var rest := PrefixStmts(m)[1..];
      assert PrefixStmts(m) == [s] + rest;
      AclNamesAppend([s], rest);
      NoAclNames(rest);
      assert AclNames([s]) == [s.name];
    }
  }

  lemma AccessNames(rules: seq<AccessRule>)
    ensures AclNames(AccessStmts(rules) + WhitelistStmts(rules)) == []
  {
    NoAclNames(AccessStmts(rules) + WhitelistStmts(rules));
  }

  /** The ACLs of a printed frontend, by name. */
  lemma FrontendNames(m: Mapping)
    requires IsHttp(m) && m.redirectTo == ""
    ensures AclNames(Read(FrontendLines(m))) == RuleNames(m, R.HaLocs(m.routes)) + (RouteNames(m, m.pathRoutes) + OtherNames(m))
  {
    FrontendRead(m);
    StatementsSplit(m);
    AccessNames(m.accessRules);
    AclNamesAppend(AccessStmts(m.accessRules) + WhitelistStmts(m.accessRules), Routing(m));
    RoutingNames(m);
  }

  lemma FourNames(x: seq<Stmt>, y: seq<Stmt>, z: seq<Stmt>, w: seq<Stmt>)
    ensures AclNames(x + (y + (z + w))) == AclNames(x) + (AclNames(y) + (AclNames(z) + AclNames(w)))
  {
    AclNamesAppend(z, w);
    AclNamesAppend(y, z + w);
    AclNamesAppend(x, y + (z + w));
  }

  lemma NamesRegroup(x: seq<string>, y: seq<string>, up: seq<string>, path: seq<string>)
    ensures x + ((y + up) + (path + [])) == x + (y + (up + path))
  {}

  lemma RoutingNames(m: Mapping)
    ensures AclNames(Routing(m)) == RuleNames(m, R.HaLocs(m.routes)) + (RouteNames(m, m.pathRoutes) + OtherNames(m))
  {
    RuleStmtsNames(m, R.HaLocs(m.routes));
    RouteStmtsNames(m);
    PrefixStmtsNames(m);
    NoAclNames(LastStmt(m));
    FourNames(RuleStmts(m, R.HaLocs(m.routes)), RouteStmts(m), PrefixStmts(m), LastStmt(m));
    NamesRegroup(RuleNames(m, R.HaLocs(m.routes)), RouteNames(m, m.pathRoutes),
      if SomeUpgrade(m.pathRoutes) then [UpAcl(m)] else [], if m.pathPrefix != "" then [PathAcl(m)] else []);
  }

  // ---- when they differ ----

  ghost predicate NamedApart(rules: seq<RouteRule>) {
    forall i, j :: 0 <= i < j < |rules| && rules[i].enabled && rules[j].enabled ==> R.RuleTag(rules[i].id) != R.RuleTag(rules[j].id)
  }

  ghost predicate TagUsed(rules: seq<RouteRule>, tag: string) {
    exists r :: r in rules && r.enabled && R.RuleTag(r.id) == tag
  }

  lemma NamedApartStep(rules: seq<RouteRule>)
    requires rules != []
    ensures NamedApart(rules) <==> NamedApart(rules[1..]) && (rules[0].enabled ==> !TagUsed(rules[1..], R.RuleTag(rules[0].id)))
  {
    var rest := rules[1..];
    assert forall i :: 0 <= i < |rest| ==> rest[i] == rules[i + 1];
    if NamedApart(rules) {
      forall i, j | 0 <= i < j < |rest| && rest[i].enabled && rest[j].enabled ensures R.RuleTag(rest[i].id) != R.RuleTag(rest[j].id) {
        assert rules[i + 1].enabled && rules[j + 1].enabled;
      }
      forall r | r in rest && r.enabled && rules[0].enabled ensures R.RuleTag(r.id) != R.RuleTag(rules[0].id) {
        var k :| 0 <= k < |rest| && rest[k] == r;
        assert rules[k + 1].enabled;
      }
    } else {
      var i, j :| 0 <= i < j < |rules| && rules[i].enabled && rules[j].enabled && R.RuleTag(rules[i].id) == R.RuleTag(rules[j].id);
      assert rules[j] == rest[j - 1] && rest[j - 1] in rest;
      if i > 0 { assert rest[i - 1].enabled && rest[j - 1].enabled; }
    }
  }

  lemma RuleNamesAppend(m: Mapping, x: seq<R.Loc>, y: seq<R.Loc>)
    ensures RuleNames(m, x + y) == RuleNames(m, x) + RuleNames(m, y)
  {}

  function NamesBag(m: Mapping, locs: seq<R.Loc>): multiset<string> {
    multiset(RuleNames(m, locs))
  }

  lemma NamesBagAppend(m: Mapping, locs: seq<R.Loc>, x: R.Loc)
    ensures NamesBag(m, locs + [x]) == NamesBag(m, locs) + multiset{RuleAcl(m, x.rule)}
  {
    RuleNamesAppend(m, locs, [x]);
    assert RuleNames(m, [x]) == [RuleAcl(m, x.rule)];
  }

  lemma InsertCases(sorted: seq<R.Loc>, x: R.Loc)
    requires sorted != []
    ensures var init, last := sorted[..|sorted| - 1], sorted[|sorted| - 1];
      sorted == init + [last] && R.Insert(sorted, x) == if |x.path| > |last.path| then R.Insert(init, x) + [last] else sorted + [x]
  {}

  lemma InsertStep(m: Mapping, init: seq<R.Loc>, last: R.Loc, x: R.Loc)
    requires NamesBag(m, R.Insert(init, x)) == NamesBag(m, init) + multiset{RuleAcl(m, x.rule)}
    ensures NamesBag(m, R.Insert(init, x) + [last]) == NamesBag(m, init + [last]) + multiset{RuleAcl(m, x.rule)}
  {
    NamesBagAppend(m, init, last);
    NamesBagAppend(m, R.Insert(init, x), last);
  }

  lemma {:induction false} InsertNames(m: Mapping, sorted: seq<R.Loc>, x: R.Loc)
    ensures NamesBag(m, R.Insert(sorted, x)) == NamesBag(m, sorted) + multiset{RuleAcl(m, x.rule)}
  {
    NamesBagAppend(m, sorted, x);
    if sorted != [] {
      var init, last := sorted[..|sorted| - 1], sorted[|sorted| - 1];
      InsertCases(sorted, x);
      if |x.path| > |last.path| {
        InsertNames(m, init, x);
        InsertStep(m, init, last, x);
      }
    }
  }

  lemma {:induction false} SortedNames(m: Mapping, locs: seq<R.Loc>)
    ensures NamesBag(m, R.Sorted(locs)) == NamesBag(m, locs)
  {
    if locs != [] {
      var init, last := locs[..|locs| - 1], locs[|locs| - 1];
      assert locs == init + [last];
      SortedNames(m, init);
      InsertNames(m, R.Sorted(init), last);
      NamesBagAppend(m, init, last);
    }
  }

  lemma EnabledNamesHave(m: Mapping, rules: seq<RouteRule>, tag: string)
    ensures FrontendName(m) + tag in RuleNames(m, R.EnabledLocs(rules, false)) <==> TagUsed(rules, tag)
  {
    var locs, names := R.EnabledLocs(rules, false), RuleNames(m, R.EnabledLocs(rules, false));
    if FrontendName(m) + tag in names {
      var i :| 0 <= i < |names| && names[i] == FrontendName(m) + tag;
      assert locs[i] in locs;
      R.LocMembers(rules, false, locs[i]);
      SuffixSame(FrontendName(m), R.RuleTag(locs[i].rule.id), tag);
    }
    if TagUsed(rules, tag) {
      var r :| r in rules && r.enabled && R.RuleTag(r.id) == tag;
      R.LocMembers(rules, false, R.Loc(r.path, r));
      var i :| 0 <= i < |locs| && locs[i] == R.Loc(r.path, r);
      assert names[i] in names;
    }
  }

  lemma {:induction false} EnabledNamesDistinct(m: Mapping, rules: seq<RouteRule>)
    ensures Distinct(RuleNames(m, R.EnabledLocs(rules, false))) <==> NamedApart(rules)
  {
    if rules != [] {
      EnabledNamesDistinct(m, rules[1..]);
      NamedApartStep(rules);
      EnabledNamesHave(m, rules[1..], R.RuleTag(rules[0].id));
      DistinctCons(RuleAcl(m, rules[0]), RuleNames(m, R.EnabledLocs(rules[1..], false)));
    }
  }

  /** The tag of an enabled rule, its id modulo 100000, is no other's. */
  ghost predicate TagsDiffer(rules: seq<RouteRule>) {
    forall i, j :: 0 <= i < j < |rules| && rules[i].enabled && rules[j].enabled ==> rules[i].id % 100000 != rules[j].id % 100000
  }

  lemma SameTag(x: nat, y: nat)
    ensures R.RuleTag(x) == R.RuleTag(y) <==> x % 100000 == y % 100000
  {
    if R.RuleTag(x) == R.RuleTag(y) {
      SuffixSame("_r", Itoa(x % 100000), Itoa(y % 100000));
      ItoaInjective(x % 100000, y % 100000);
    }
  }

  lemma TagsAreNames(rules: seq<RouteRule>)
    ensures NamedApart(rules) <==> TagsDiffer(rules)
  {
    forall i, j | 0 <= i < j < |rules| ensures R.RuleTag(rules[i].id) == R.RuleTag(rules[j].id) <==> rules[i].id % 100000 == rules[j].id % 100000 {
      SameTag(rules[i].id, rules[j].id);
    }
  }

  lemma RuleNamesDistinct(m: Mapping)
    ensures Distinct(RuleNames(m, R.HaLocs(m.routes))) <==> TagsDiffer(m.routes)
  {
    SortedNames(m, R.EnabledLocs(m.routes, false));
    PermutedDistinct(RuleNames(m, R.HaLocs(m.routes)), RuleNames(m, R.EnabledLocs(m.routes, false)));
    EnabledNamesDistinct(m, m.routes);
    TagsAreNames(m.routes);
  }

  lemma RuleNamesHave(m: Mapping, tag: string)
    ensures FrontendName(m) + tag in RuleNames(m, R.HaLocs(m.routes)) <==> TagUsed(m.routes, tag)
  {
    var name, locs := FrontendName(m) + tag, R.EnabledLocs(m.routes, false);
    SortedNames(m, locs);
    assert name in RuleNames(m, R.HaLocs(m.routes)) <==> name in multiset(RuleNames(m, R.HaLocs(m.routes)));
    assert name in RuleNames(m, locs) <==> name in multiset(RuleNames(m, locs));
    EnabledNamesHave(m, m.routes, tag);
  }

  ghost predicate PrefixUsed(prs: seq<PathRoute>, prefix: string) {
    exists pr :: pr in prs && pr.prefix == prefix
  }

  lemma RouteAclIs(m: Mapping, pr: PathRoute, prefix: string)
    ensures RouteAcl(m, pr) == FrontendName(m) + ("_" + prefix) <==> pr.prefix == prefix
  {
    assert FrontendName(m) + ("_" + prefix) == FrontendName(m) + "_" + prefix;
    if RouteAcl(m, pr) == FrontendName(m) + "_" + prefix { SuffixSame(FrontendName(m) + "_", pr.prefix, prefix); }
  }

  lemma RouteNamesHave(m: Mapping, prefix: string)
    ensures FrontendName(m) + ("_" + prefix) in RouteNames(m, m.pathRoutes) <==> PrefixUsed(m.pathRoutes, prefix)
  {
    var names, prs := RouteNames(m, m.pathRoutes), m.pathRoutes;
    forall i | 0 <= i < |prs| ensures names[i] == FrontendName(m) + ("_" + prefix) <==> prs[i].prefix == prefix {
      RouteAclIs(m, prs[i], prefix);
    }
    if PrefixUsed(prs, prefix) {
      var i :| 0 <= i < |prs| && prs[i].prefix == prefix;
      assert names[i] in names;
    }
    if FrontendName(m) + ("_" + prefix) in names {
      var i :| 0 <= i < |names| && names[i] == FrontendName(m) + ("_" + prefix);
      assert prs[i] in prs;
    }
  }

  /** Validation leaves the prefixes of path routes different. */
  ghost predicate PrefixesDiffer(prs: seq<PathRoute>) {
    forall i, j :: 0 <= i < j < |prs| ==> prs[i].prefix != prs[j].prefix
  }

  lemma RouteAclInjective(m: Mapping, x: PathRoute, y: PathRoute)
    ensures RouteAcl(m, x) == RouteAcl(m, y) <==> x.prefix == y.prefix
  {
    if RouteAcl(m, x) == RouteAcl(m, y) { SuffixSame(FrontendName(m) + "_", x.prefix, y.prefix); }
  }

  lemma RouteNamesDistinct(m: Mapping)
    ensures Distinct(RouteNames(m, m.pathRoutes)) <==> PrefixesDiffer(m.pathRoutes)
  {
    forall i, j | 0 <= i < j < |m.pathRoutes|
      ensures RouteNames(m, m.pathRoutes)[i] == RouteNames(m, m.pathRoutes)[j] <==> m.pathRoutes[i].prefix == m.pathRoutes[j].prefix
    {
      RouteAclInjective(m, m.pathRoutes[i], m.pathRoutes[j]);
    }
  }

  /** No path route is called like a rule's tag or one of the two fixed ACLs. */
  ghost predicate NamesApart(m: Mapping) {
    && TagsDiffer(m.routes) && PrefixesDiffer(m.pathRoutes)
    && (forall pr :: pr in m.pathRoutes ==> !TagUsed(m.routes, "_" + pr.prefix))
    && (SomeUpgrade(m.pathRoutes) ==> !PrefixUsed(m.pathRoutes, "up"))
    && (m.pathPrefix != "" ==> !PrefixUsed(m.pathRoutes, "path"))
  }

  lemma OthersDistinct(m: Mapping)
    ensures Distinct(OtherNames(m)) && forall n :: n in OtherNames(m) ==> n !in RuleNames(m, R.HaLocs(m.routes))
  {
    var up, path := "_up", "_path";
    assert |UpAcl(m)| != |PathAcl(m)|;
    RuleNamesHave(m, up);
    RuleNamesHave(m, path);
    forall r | r in m.routes ensures R.RuleTag(r.id) != up && R.RuleTag(r.id) != path {
      assert R.RuleTag(r.id)[1] == 'r' && up[1] == 'u' && path[1] == 'p';
    }
  }

  lemma OthersAndRoutes(m: Mapping)
    ensures (forall n :: n in OtherNames(m) ==> n !in RouteNames(m, m.pathRoutes))
      <==> (SomeUpgrade(m.pathRoutes) ==> !PrefixUsed(m.pathRoutes, "up")) && (m.pathPrefix != "" ==> !PrefixUsed(m.pathRoutes, "path"))
  {
    RouteNamesHave(m, "up");
    RouteNamesHave(m, "path");
    assert UpAcl(m) == FrontendName(m) + ("_" + "up") && PathAcl(m) == FrontendName(m) + ("_" + "path");
    assert SomeUpgrade(m.pathRoutes) ==> UpAcl(m) in OtherNames(m);
    assert m.pathPrefix != "" ==> PathAcl(m) in OtherNames(m);
  }

  lemma RulesAndRoutes(m: Mapping)
    ensures (forall n :: n in RouteNames(m, m.pathRoutes) ==> n !in RuleNames(m, R.HaLocs(m.routes)))
      <==> forall pr :: pr in m.pathRoutes ==> !TagUsed(m.routes, "_" + pr.prefix)
  {
    var names := RouteNames(m, m.pathRoutes);
    forall i | 0 <= i < |names| ensures names[i] in RuleNames(m, R.HaLocs(m.routes)) <==> TagUsed(m.routes, "_" + m.pathRoutes[i].prefix) {
      assert names[i] == FrontendName(m) + ("_" + m.pathRoutes[i].prefix);
      RuleNamesHave(m, "_" + m.pathRoutes[i].prefix);
    }
    forall pr | pr in m.pathRoutes ensures RouteAcl(m, pr) in names && (RouteAcl(m, pr) in RuleNames(m, R.HaLocs(m.routes)) <==> TagUsed(m.routes, "_" + pr.prefix)) {
      var i :| 0 <= i < |m.pathRoutes| && m.pathRoutes[i] == pr;
      assert names[i] == RouteAcl(m, pr);
    }
  }

  /** A printed frontend declares each ACL once exactly when enabled rules differ in their
      tags and path routes in their prefixes, and no prefix reads like a tag in use, like
      `up` when there are upgrade guards, or like `path` when there is a path prefix. */
  lemma AclsOnceIff(m: Mapping)
    requires IsHttp(m) && m.redirectTo == ""
    ensures AclsOnce(FrontendLines(m)) <==> NamesApart(m)
  {
    var rules, routes, others := RuleNames(m, R.HaLocs(m.routes)), RouteNames(m, m.pathRoutes), OtherNames(m);
    FrontendNames(m);
    DistinctConcat(rules, routes + others);
    DistinctConcat(routes, others);
    RuleNamesDistinct(m);
    RouteNamesDistinct(m);
    OthersDistinct(m);
    OthersAndRoutes(m);
    RulesAndRoutes(m);
    assert forall n :: n in routes + others <==> n in routes || n in others;
  }
}
