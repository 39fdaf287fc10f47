/** What HAProxy makes of a printed frontend: which backend or answer every request gets,
    and exactly when that is the longest matching route rule. */
module HAProxyRoutes {
  import opened Text
  import opened Model
  import opened HAProxyRender
  import opened HAProxyReading
  import R = Routes

  // ---- one ACL per name ----

  ghost predicate Distinct(names: seq<string>) {
    forall i, j :: 0 <= i < j < |names| ==> names[i] != names[j]
  }

  function AclNames(ss: seq<Stmt>): seq<string> {
    if ss == [] then []
    else if ss[0].Acl? then [ss[0].name] + AclNames(ss[1..])
    else AclNames(ss[1..])
  }

  /** No ACL is declared twice; HAProxy would take either line for it. */
  ghost predicate AclsOnce(lines: seq<Line>) {
    Distinct(AclNames(Read(lines)))
  }

  lemma {:induction false} AclNamesAppend(x: seq<Stmt>, y: seq<Stmt>)
    ensures AclNames(x + y) == AclNames(x) + AclNames(y)
  {
    if x == [] {
      assert x + y == y;
    } else {
      assert (x + y)[1..] == x[1..] + y;
      AclNamesAppend(x[1..], y);
    }
  }

  lemma {:induction false} AclNamesHave(ss: seq<Stmt>, s: Stmt)
    requires s in ss && s.Acl?
    ensures s.name in AclNames(ss)
  {
    if s != ss[0] {
      assert s in ss[1..];
      AclNamesHave(ss[1..], s);
    }
  }

  lemma DistinctCons(name: string, rest: seq<string>)
    ensures Distinct([name] + rest) <==> Distinct(rest) && name !in rest
  {
    var all := [name] + rest;
    assert forall i :: 0 <= i < |rest| ==> all[i + 1] == rest[i];
    if Distinct(all) {
      forall i, j | 0 <= i < j < |rest| ensures rest[i] != rest[j] { assert all[i + 1] != all[j + 1]; }
      forall i | 0 <= i < |rest| ensures rest[i] != name { assert all[0] != all[i + 1]; }
    }
  }

  lemma DistinctConcat(x: seq<string>, y: seq<string>)
    ensures Distinct(x + y) <==> Distinct(x) && Distinct(y) && forall name :: name in y ==> name !in x
  {
    var all := x + y;
    assert forall i :: 0 <= i < |x| ==> all[i] == x[i];
    assert forall j :: 0 <= j < |y| ==> all[|x| + j] == y[j];
    if Distinct(all) {
      forall i, j | 0 <= i < j < |y| ensures y[i] != y[j] { assert all[|x| + i] != all[|x| + j]; }
      forall name | name in y ensures name !in x {
        var j :| 0 <= j < |y| && y[j] == name;
        forall i | 0 <= i < |x| ensures x[i] != name { assert all[i] != all[|x| + j]; }
      }
    }
    if Distinct(x) && Distinct(y) && forall name :: name in y ==> name !in x {
      forall i, j | 0 <= i < j < |all| ensures all[i] != all[j] {
        if i < |x| <= j { assert x[i] in x && y[j - |x|] in y; }
      }
    }
  }

  /** The declarations of one name agree when there is only one. */
  lemma {:induction false} DeclaredOnce(ss: seq<Stmt>, s: Stmt, t: Stmt)
    requires Distinct(AclNames(ss)) && s in ss && t in ss && s.Acl? && t.Acl? && s.name == t.name
    ensures s == t
  {
    var rest := ss[1..];
    assert ss == [ss[0]] + rest;
    if ss[0].Acl? {
      DistinctCons(ss[0].name, AclNames(rest));
      if s != ss[0] { AclNamesHave(rest, s); }
      if t != ss[0] { AclNamesHave(rest, t); }
    }
    if s != ss[0] && t != ss[0] { DeclaredOnce(rest, s, t); }
  }

  lemma AclMeans(ss: seq<Stmt>, s: Stmt, q: Request)
    requires Distinct(AclNames(ss)) && s in ss && s.Acl?
    ensures AclHolds(ss, s.name, q) <==> TestHolds(s.test, q)
  {
    var k :| 0 <= k < |ss| && ss[k] == s;
    if AclHolds(ss, s.name, q) {
      var i :| 0 <= i < |ss| && ss[i].Acl? && ss[i].name == s.name && TestHolds(ss[i].test, q);
      DeclaredOnce(ss, ss[i], s);
    }
  }

  // ---- what a path route takes ----

  /** What validation leaves of a path route's prefix. */
  predicate PrefixChar(c: char) {
    IsDigit(c) || 'a' <= c <= 'z' || 'A' <= c <= 'Z' || c == '-' || c == '_'
  }

  predicate ValidPathRoutes(prs: seq<PathRoute>) {
    forall pr :: pr in prs ==> pr.prefix != "" && forall i :: 0 <= i < |pr.prefix| ==> PrefixChar(pr.prefix[i])
  }

  /** Every port, or the ports of a narrow range. */
  predicate AnyPort(pr: PathRoute) {
    pr.minPort <= 0 || pr.maxPort <= 0 || pr.minPort > pr.maxPort || pr.maxPort - pr.minPort > 16
  }

  predicate PortOf(pr: PathRoute, d: string) {
    if AnyPort(pr) then d != [] && AllDigits(d) else d in Ports(pr.minPort, pr.maxPort)
  }

  function RouteHead(pr: PathRoute): string {
    "/" + pr.prefix + "/"
  }

  /** `/prefix/port`, or a path below it. */
  ghost predicate RouteTakes(pr: PathRoute, path: string) {
    exists d :: PortOf(pr, d) && AtOrBelow(path, RouteHead(pr) + d)
  }

  lemma {:induction false} SplitJoined(parts: seq<string>, c: char)
    requires parts != [] && forall i :: 0 <= i < |parts| ==> c !in parts[i]
    ensures Split(Join(parts, [c]), c) == parts
  {
    if |parts| == 1 {
      SplitWord(parts[0], c);
    } else {
      SplitJoined(parts[1..], c);
      SplitStep(parts[0], Join(parts[1..], [c]), c);
      HeadTail(parts);
    }
  }

  lemma {:induction false} SplitWord(w: string, c: char)
    requires c !in w
    ensures Split(w, c) == [w]
  {
    if w != [] {
      SplitWord(w[1..], c);
      HeadTail(w);
    }
  }

  lemma {:induction false} SplitStep(w: string, rest: string, c: char)
    requires c !in w
    ensures Split(w + [c] + rest, c) == [w] + Split(rest, c)
  {
    var s := w + [c] + rest;
    if w == [] {
      assert s[0] == c && s[1..] == rest;
    } else {
      SplitStep(w[1..], rest, c);
      assert s[0] == w[0] && s[1..] == w[1..] + [c] + rest;
      HeadTail(w);
      assert ([w[1..]] + Split(rest, c))[1..] == Split(rest, c);
    }
  }

  lemma {:induction false} PortsPlain(lo: int, hi: int)
    requires lo >= 0
    ensures forall i :: 0 <= i < |Ports(lo, hi)| ==> AllDigits(Ports(lo, hi)[i]) && Ports(lo, hi)[i] != []
    decreases hi - lo
  {
    if lo <= hi {
      DigitsOfItoa(lo);
      PortsPlain(lo + 1, hi);
    }
  }

  lemma PortStartAt(left: string, right: string)
    requires forall i :: 0 <= i < |left| ==> left[i] != '(' && left[i] != '['
    requires right != [] && (right[0] == '(' || right[0] == '[')
    ensures PortStart(left + right) == |left|
  {
    var i := PortStart(left + right);
    assert (left + right)[|left|] == right[0];
    assert forall k :: 0 <= k < |left| ==> (left + right)[k] == left[k];
  }

  lemma LiteralReads(pr: PathRoute, part: string)
    requires ValidPathRoutes([pr]) && part != [] && (part[0] == '(' || part[0] == '[')
    ensures var pattern := "^/" + pr.prefix + "/" + part + PATTERN_END;
      LiteralOf(pattern) == RouteHead(pr) && PortPart(pattern) == part
  {
    var left := "^/" + pr.prefix + "/";
    assert pr in [pr];
    forall i | 0 <= i < |left| ensures left[i] != '(' && left[i] != '[' {
      if 2 <= i < |left| - 1 { assert left[i] == pr.prefix[i - 2] && PrefixChar(pr.prefix[i - 2]); }
    }
    PortStartAt(left, part + PATTERN_END);
    assert left + (part + PATTERN_END) == "^/" + pr.prefix + "/" + part + PATTERN_END;
    LiteralSlices(left, part);
    assert left[1..] == RouteHead(pr);
  }

  lemma LiteralSlices(left: string, part: string)
    requires left != []
    ensures (left + (part + PATTERN_END))[1..|left|] == left[1..]
    ensures TrimSuffix((left + (part + PATTERN_END))[|left|..], PATTERN_END) == part
  {
    var rest := part + PATTERN_END;
    assert (left + rest)[|left|..] == rest;
    assert rest[|rest| - |PATTERN_END|..] == PATTERN_END && rest[..|rest| - |PATTERN_END|] == part;
  }

  lemma RangeReads(pr: PathRoute, d: string)
    requires !AnyPort(pr)
    ensures var part := PortPattern(pr.minPort, pr.maxPort);
      part != [] && part[0] == '(' && (TakesPort(part, d) <==> d in Ports(pr.minPort, pr.maxPort))
  {
    var ports := Ports(pr.minPort, pr.maxPort);
    var part := "(" + Join(ports, "|") + ")";
    PortsPlain(pr.minPort, pr.maxPort);
    forall i | 0 <= i < |ports| ensures '|' !in ports[i] { assert AllDigits(ports[i]); }
    SplitJoined(ports, '|');
    assert part[1..|part| - 1] == Join(ports, "|");
    assert part[0] == '(' && ANY_PORT[0] == '[';
  }

  lemma PortReads(pr: PathRoute, d: string)
    ensures var part := PortPattern(pr.minPort, pr.maxPort);
      part != [] && (part[0] == '(' || part[0] == '[') && (TakesPort(part, d) <==> PortOf(pr, d))
  {
    if AnyPort(pr) {
      assert PortPattern(pr.minPort, pr.maxPort) == ANY_PORT;
    } else {
      RangeReads(pr, d);
    }
  }

  /** The printed pattern of a path route takes exactly the route's paths. */
  lemma PatternIsRoute(pr: PathRoute, path: string)
    requires ValidPathRoutes([pr])
    ensures PatternTakes(PathPattern(pr), path) <==> RouteTakes(pr, path)
  {
    var part := PortPattern(pr.minPort, pr.maxPort);
    PortReads(pr, "");
    LiteralReads(pr, part);
    assert PathPattern(pr) == "^/" + pr.prefix + "/" + part + PATTERN_END;
    forall d ensures TakesPort(part, d) <==> PortOf(pr, d) { PortReads(pr, d); }
  }

  // ---- what HAProxy does with a request ----

  /** What the access rules say to a client: the first rule with its address decides, and
      a list with an allow rule refuses everybody else. */
  datatype Verdict = Refused | Admitted | Unlisted

  function Access(rules: seq<AccessRule>, from: set<string>): Verdict {
    match FirstListed(rules, from)
    case Some(r) => if r.action == "allow" then Admitted else Refused
    case None => if HasAllow(rules) then Refused else Unlisted
  }

  function FirstListed(rules: seq<AccessRule>, from: set<string>): Option<AccessRule> {
    if rules == [] then None else if rules[0].value in from then Some(rules[0]) else FirstListed(rules[1..], from)
  }

  /** The first listed rule that the lookup by id turns into a redirect, or into a proxy. */
  function FirstActing(rules: seq<RouteRule>, locs: seq<R.Loc>, path: string, redirects: bool): Option<R.Loc> {
    if locs == [] then None
    else if R.HasRedirect(rules, locs[0].rule.id) == redirects && HasPrefix(path, locs[0].path) then Some(locs[0])
    else FirstActing(rules, locs[1..], path, redirects)
  }

  ghost predicate RouteMatches(m: Mapping, path: string) {
    exists i :: 0 <= i < |m.pathRoutes| && RouteTakes(m.pathRoutes[i], path)
  }

  /** A path route that asks for an Upgrade header the request does not have. */
  ghost predicate Guarded(m: Mapping, q: Request) {
    !q.upgrade && exists i :: 0 <= i < |m.pathRoutes| && NeedsUpgrade(m.pathRoutes[i]) && RouteTakes(m.pathRoutes[i], q.path)
  }

  /** The frontend answers the request itself, with a 404. */
  ghost predicate TurnedAway(m: Mapping, q: Request) {
    || Guarded(m, q)
    || (OnlyRoutes(m) && !RouteMatches(m, q.path))
    || (m.pathPrefix != "" && !HasPrefix(q.path, m.pathPrefix))
  }

  ghost function Backend(m: Mapping, path: string): string {
    match FirstActing(m.routes, R.HaLocs(m.routes), path, false)
    case Some(l) => RuleBackend(m, l.rule)
    case None => if RouteMatches(m, path) then DynName(m) else BackendName(m)
  }

  ghost function Expected(m: Mapping, q: Request): Outcome {
    match Access(m.accessRules, q.from)
    case Refused => Denied
    case Admitted => Sent(Backend(m, q.path))
    case Unlisted =>
      match FirstActing(m.routes, R.HaLocs(m.routes), q.path, true)
      case Some(l) => Redirected(R.RedirectOf(m.routes, l.rule.id))
      case None => if TurnedAway(m, q) then Denied else Sent(Backend(m, q.path))
  }

  lemma OneTerm(all: seq<Stmt>, t: Term, q: Request)
    ensures CondHolds(all, [[t]], q) <==> TermHolds(all, t, q)
  {
    var c: Cond := [[t]];
    assert c[0] == [t];
    assert AllHold(all, c[0], q) <==> TermHolds(all, [t][0], q);
  }

  lemma AlwaysHolds(all: seq<Stmt>, q: Request)
    ensures CondHolds(all, ALWAYS, q)
  {
    assert AllHold(all, ALWAYS[0], q);
  }

  lemma {:induction false} AccessFirst(all: seq<Stmt>, rules: seq<AccessRule>, q: Request)
    ensures FirstHttp(all, AccessStmts(rules), q)
      == match FirstListed(rules, q.from) case Some(r) => Some(if r.action == "allow" then Allow else Deny) case None => None
  {
    if rules != [] {
      OneTerm(all, From(rules[0].value), q);
      AccessFirst(all, rules[1..], q);
    }
  }

  lemma {:induction false} AccessUses(all: seq<Stmt>, rules: seq<AccessRule>, q: Request)
    ensures FirstUse(all, AccessStmts(rules), q) == None && DefaultOf(AccessStmts(rules)) == None
    ensures FirstUse(all, WhitelistStmts(rules), q) == None && DefaultOf(WhitelistStmts(rules)) == None
  {
    if rules != [] { AccessUses(all, rules[1..], q); }
  }

  lemma AccessVerdict(all: seq<Stmt>, rules: seq<AccessRule>, q: Request)
    ensures FirstHttp(all, AccessStmts(rules) + WhitelistStmts(rules), q)
      == match Access(rules, q.from) case Refused => Some(Deny) case Admitted => Some(Allow) case Unlisted => None
  {
    AccessFirst(all, rules, q);
    AlwaysHolds(all, q);
    FirstHttpAppend(all, AccessStmts(rules), WhitelistStmts(rules), q);
  }

  // ---- the ACLs of a mapping ----

  lemma StatementsParts(m: Mapping)
    ensures forall s :: s in RuleStmts(m, R.HaLocs(m.routes)) || s in RouteStmts(m) || s in PrefixStmts(m) ==> s in Statements(m)
  {}

  lemma {:induction false} RuleStmtsHave(m: Mapping, locs: seq<R.Loc>, l: R.Loc)
    requires l in locs
    ensures Acl(RuleAcl(m, l.rule), Beg(l.path)) in RuleStmts(m, locs)
  {
    if l != locs[0] {
      assert l in locs[1..];
      RuleStmtsHave(m, locs[1..], l);
    }
  }

  lemma RuleAclMeans(m: Mapping, l: R.Loc, q: Request)
    requires Distinct(AclNames(Statements(m))) && l in R.HaLocs(m.routes)
    ensures AclHolds(Statements(m), RuleAcl(m, l.rule), q) <==> HasPrefix(q.path, l.path)
  {
    RuleStmtsHave(m, R.HaLocs(m.routes), l);
    StatementsParts(m);
    AclMeans(Statements(m), Acl(RuleAcl(m, l.rule), Beg(l.path)), q);
  }

  function RouteAclStmt(m: Mapping, pr: PathRoute): Stmt {
    Acl(RouteAcl(m, pr), Reg(PathPattern(pr)))
  }

  lemma RouteStmtsHave(m: Mapping, i: nat)
    requires i < |m.pathRoutes|
    ensures RouteAclStmt(m, m.pathRoutes[i]) in RouteStmts(m)
  {
    var s := RouteAclStmt(m, m.pathRoutes[i]);
    assert RouteAclStmts(m, m.pathRoutes)[i] == s && s in RouteAclStmts(m, m.pathRoutes);
  }

  lemma OneValid(prs: seq<PathRoute>, pr: PathRoute)
    requires ValidPathRoutes(prs) && pr in prs
    ensures ValidPathRoutes([pr])
  {
    assert forall x :: x in [pr] ==> x == pr;
  }

  lemma RouteAclMeans(m: Mapping, i: nat, q: Request)
    requires Distinct(AclNames(Statements(m))) && ValidPathRoutes(m.pathRoutes) && i < |m.pathRoutes|
    ensures AclHolds(Statements(m), RouteAcl(m, m.pathRoutes[i]), q) <==> RouteTakes(m.pathRoutes[i], q.path)
  {
    var pr := m.pathRoutes[i];
    RouteStmtsHave(m, i);
    StatementsParts(m);
    AclMeans(Statements(m), RouteAclStmt(m, pr), q);
    OneValid(m.pathRoutes, pr);
    PatternIsRoute(pr, q.path);
  }

  lemma UpAclMeans(m: Mapping, q: Request)
    requires Distinct(AclNames(Statements(m))) && SomeUpgrade(m.pathRoutes)
    ensures AclHolds(Statements(m), UpAcl(m), q) <==> q.upgrade
  {
    var s := Acl(UpAcl(m), Upgrading);
    assert s in UpgradeStmts(m);
    assert s in RouteStmts(m);
    StatementsParts(m);
    AclMeans(Statements(m), s, q);
  }

  lemma PathAclMeans(m: Mapping, q: Request)
    requires Distinct(AclNames(Statements(m))) && m.pathPrefix != ""
    ensures AclHolds(Statements(m), PathAcl(m), q) <==> HasPrefix(q.path, m.pathPrefix)
  {
    var s := Acl(PathAcl(m), Beg(m.pathPrefix));
    assert s in PrefixStmts(m);
    StatementsParts(m);
    AclMeans(Statements(m), s, q);
  }

  // ---- segment by segment ----

  /** Every ACL of the mapping means what the mapping says. */
  ghost predicate Means(m: Mapping, all: seq<Stmt>, q: Request) {
    && (forall l :: l in R.HaLocs(m.routes) ==> (AclHolds(all, RuleAcl(m, l.rule), q) <==> HasPrefix(q.path, l.path)))
    && (forall i :: 0 <= i < |m.pathRoutes| ==>
         (AclHolds(all, RouteAcl(m, m.pathRoutes[i]), q) <==> RouteTakes(m.pathRoutes[i], q.path)))
    && (SomeUpgrade(m.pathRoutes) ==> (AclHolds(all, UpAcl(m), q) <==> q.upgrade))
    && (m.pathPrefix != "" ==> (AclHolds(all, PathAcl(m), q) <==> HasPrefix(q.path, m.pathPrefix)))
  }

  lemma NamesMean(m: Mapping, q: Request)
    requires Distinct(AclNames(Statements(m))) && ValidPathRoutes(m.pathRoutes)
    ensures Means(m, Statements(m), q)
  {
    forall l | l in R.HaLocs(m.routes) ensures AclHolds(Statements(m), RuleAcl(m, l.rule), q) <==> HasPrefix(q.path, l.path) {
      RuleAclMeans(m, l, q);
    }
    forall i | 0 <= i < |m.pathRoutes|
      ensures AclHolds(Statements(m), RouteAcl(m, m.pathRoutes[i]), q) <==> RouteTakes(m.pathRoutes[i], q.path)
    {
      RouteAclMeans(m, i, q);
    }
    if SomeUpgrade(m.pathRoutes) { UpAclMeans(m, q); }
    if m.pathPrefix != "" { PathAclMeans(m, q); }
  }

  lemma {:induction false} RulesFirst(m: Mapping, all: seq<Stmt>, locs: seq<R.Loc>, q: Request)
    requires Means(m, all, q) && forall l :: l in locs ==> l in R.HaLocs(m.routes)
    ensures FirstHttp(all, RuleStmts(m, locs), q)
      == match FirstActing(m.routes, locs, q.path, true) case Some(l) => Some(Redirect(R.RedirectOf(m.routes, l.rule.id))) case None => None
    ensures FirstUse(all, RuleStmts(m, locs), q)
      == match FirstActing(m.routes, locs, q.path, false) case Some(l) => Some(RuleBackend(m, l.rule)) case None => None
    ensures DefaultOf(RuleStmts(m, locs)) == None
  {
    if locs != [] {
      var l := locs[0];
      var pair := [Acl(RuleAcl(m, l.rule), Beg(l.path)), RuleStmt(m, l.rule)];
      assert l in R.HaLocs(m.routes);
      OneTerm(all, Is(RuleAcl(m, l.rule)), q);
      RulesFirst(m, all, locs[1..], q);
      FirstHttpAppend(all, pair, RuleStmts(m, locs[1..]), q);
      FirstUseAppend(all, pair, RuleStmts(m, locs[1..]), q);
      DefaultAppend(pair, RuleStmts(m, locs[1..]));
      PairRuns(all, pair, q);
    }
  }

  lemma ConsRuns(all: seq<Stmt>, s: Stmt, rest: seq<Stmt>, q: Request)
    ensures FirstHttp(all, [s] + rest, q) == if s.HttpRule? && CondHolds(all, s.cond, q) then Some(s.action) else FirstHttp(all, rest, q)
    ensures FirstUse(all, [s] + rest, q) == if s.Use? && CondHolds(all, s.cond, q) then Some(s.backend) else FirstUse(all, rest, q)
    ensures DefaultOf([s] + rest) == if s.Default? then Some(s.backend) else DefaultOf(rest)
  {
    assert ([s] + rest)[1..] == rest;
  }

  lemma PairRuns(all: seq<Stmt>, pair: seq<Stmt>, q: Request)
    requires |pair| == 2 && pair[0].Acl? && !pair[1].Default?
    ensures FirstHttp(all, pair, q) == if pair[1].HttpRule? && CondHolds(all, pair[1].cond, q) then Some(pair[1].action) else None
    ensures FirstUse(all, pair, q) == if pair[1].Use? && CondHolds(all, pair[1].cond, q) then Some(pair[1].backend) else None
    ensures DefaultOf(pair) == None
  {
    assert pair == [pair[0]] + ([pair[1]] + []);
    ConsRuns(all, pair[0], [pair[1]] + [], q);
    ConsRuns(all, pair[1], [], q);
  }

  /** Only ACLs. */
  predicate Declarations(ss: seq<Stmt>) {
    forall i :: 0 <= i < |ss| ==> ss[i].Acl?
  }

  lemma {:induction false} DeclarationsRun(all: seq<Stmt>, ss: seq<Stmt>, q: Request)
    requires Declarations(ss)
    ensures FirstHttp(all, ss, q) == None && FirstUse(all, ss, q) == None && DefaultOf(ss) == None
  {
    if ss != [] { DeclarationsRun(all, ss[1..], q); }
  }

  lemma TwoTerms(all: seq<Stmt>, s: Term, t: Term, q: Request)
    ensures CondHolds(all, [[s, t]], q) <==> TermHolds(all, s, q) && TermHolds(all, t, q)
  {
    var c: Cond := [[s, t]];
    assert c[0] == [s, t] && [s, t][0] == s && [s, t][1] == t;
    assert AllHold(all, c[0], q) <==> TermHolds(all, s, q) && TermHolds(all, t, q);
  }

  /** Some path route from the `i`th on turns the request away. */
  ghost predicate GuardedFrom(m: Mapping, i: nat, q: Request) {
    !q.upgrade && exists k :: i <= k < |m.pathRoutes| && NeedsUpgrade(m.pathRoutes[k]) && RouteTakes(m.pathRoutes[k], q.path)
  }

  function GuardStmt(m: Mapping, pr: PathRoute): Stmt {
    HttpRule(Deny, [[Is(RouteAcl(m, pr)), Not(UpAcl(m))]])
  }

  lemma GuardRuns(m: Mapping, all: seq<Stmt>, i: nat, rest: seq<Stmt>, q: Request)
    requires Means(m, all, q) && SomeUpgrade(m.pathRoutes) && i < |m.pathRoutes|
    ensures FirstHttp(all, [GuardStmt(m, m.pathRoutes[i])] + rest, q)
      == if !q.upgrade && RouteTakes(m.pathRoutes[i], q.path) then Some(Deny) else FirstHttp(all, rest, q)
    ensures FirstUse(all, [GuardStmt(m, m.pathRoutes[i])] + rest, q) == FirstUse(all, rest, q)
    ensures DefaultOf([GuardStmt(m, m.pathRoutes[i])] + rest) == DefaultOf(rest)
  {
    TwoTerms(all, Is(RouteAcl(m, m.pathRoutes[i])), Not(UpAcl(m)), q);
    ConsRuns(all, GuardStmt(m, m.pathRoutes[i]), rest, q);
  }

  lemma {:induction false} GuardsFirst(m: Mapping, all: seq<Stmt>, i: nat, q: Request)
    requires Means(m, all, q) && SomeUpgrade(m.pathRoutes) && i <= |m.pathRoutes|
    ensures FirstHttp(all, GuardStmts(m, m.pathRoutes[i..]), q) == if GuardedFrom(m, i, q) then Some(Deny) else None
    ensures FirstUse(all, GuardStmts(m, m.pathRoutes[i..]), q) == None && DefaultOf(GuardStmts(m, m.pathRoutes[i..])) == None
    decreases |m.pathRoutes| - i
  {
    if i < |m.pathRoutes| {
      GuardsFirst(m, all, i + 1, q);
      GuardNext(m, all, i, GuardStmts(m, m.pathRoutes[i + 1..]), q);
      GuardStmtsCons(m, i);
    } else {
      assert m.pathRoutes[i..] == [];
    }
  }

  lemma GuardNext(m: Mapping, all: seq<Stmt>, i: nat, rest: seq<Stmt>, q: Request)
    requires Means(m, all, q) && SomeUpgrade(m.pathRoutes) && i < |m.pathRoutes|
    requires FirstHttp(all, rest, q) == (if GuardedFrom(m, i + 1, q) then Some(Deny) else None)
    requires FirstUse(all, rest, q) == None && DefaultOf(rest) == None
    ensures var guards := if NeedsUpgrade(m.pathRoutes[i]) then [GuardStmt(m, m.pathRoutes[i])] + rest else rest;
      && FirstHttp(all, guards, q) == (if GuardedFrom(m, i, q) then Some(Deny) else None)
      && FirstUse(all, guards, q) == None && DefaultOf(guards) == None
  {
    GuardRuns(m, all, i, rest, q);
    GuardStep(m, i, q);
  }

  lemma GuardStep(m: Mapping, i: nat, q: Request)
    requires i < |m.pathRoutes|
    ensures GuardedFrom(m, i, q) <==>
      (!q.upgrade && NeedsUpgrade(m.pathRoutes[i]) && RouteTakes(m.pathRoutes[i], q.path)) || GuardedFrom(m, i + 1, q)
  {}

  lemma GuardStmtsCons(m: Mapping, i: nat)
    requires i < |m.pathRoutes|
    ensures var rest := GuardStmts(m, m.pathRoutes[i + 1..]);
      GuardStmts(m, m.pathRoutes[i..]) == if NeedsUpgrade(m.pathRoutes[i]) then [GuardStmt(m, m.pathRoutes[i])] + rest else rest
  {
    var prs := m.pathRoutes[i..];
    assert prs[0] == m.pathRoutes[i] && prs[1..] == m.pathRoutes[i + 1..];
  }

  lemma UpgradeFirst(m: Mapping, all: seq<Stmt>, q: Request)
    requires Means(m, all, q)
    ensures FirstHttp(all, UpgradeStmts(m), q) == if Guarded(m, q) then Some(Deny) else None
    ensures FirstUse(all, UpgradeStmts(m), q) == None && DefaultOf(UpgradeStmts(m)) == None
  {
    if SomeUpgrade(m.pathRoutes) {
      GuardsFirst(m, all, 0, q);
      assert m.pathRoutes[0..] == m.pathRoutes;
      assert UpgradeStmts(m)[1..] == GuardStmts(m, m.pathRoutes);
    }
  }

  lemma AnyRouteHolds(m: Mapping, all: seq<Stmt>, q: Request)
    requires Means(m, all, q)
    ensures CondHolds(all, AnyRoute(m, m.pathRoutes), q) <==> RouteMatches(m, q.path)
  {
    var c := AnyRoute(m, m.pathRoutes);
    forall i | 0 <= i < |m.pathRoutes| ensures AllHold(all, c[i], q) <==> RouteTakes(m.pathRoutes[i], q.path) {
      assert c[i] == [Is(RouteAcl(m, m.pathRoutes[i]))];
      assert AllHold(all, c[i], q) <==> TermHolds(all, c[i][0], q);
    }
  }

  lemma NoRouteHolds(m: Mapping, all: seq<Stmt>, q: Request)
    requires Means(m, all, q)
    ensures CondHolds(all, [NoRoute(m, m.pathRoutes)], q) <==> !RouteMatches(m, q.path)
  {
    var ts := NoRoute(m, m.pathRoutes);
    forall i | 0 <= i < |ts| ensures TermHolds(all, ts[i], q) <==> !RouteTakes(m.pathRoutes[i], q.path) {
    }
    assert [ts][0] == ts;
    assert AllHold(all, ts, q) <==> !RouteMatches(m, q.path);
  }

  lemma RouteStmtsParts(m: Mapping)
    requires m.pathRoutes != []
    ensures RouteStmts(m) == RouteAclStmts(m, m.pathRoutes) + (UpgradeStmts(m) + RouteTail(m))
  {}

  lemma ThreeRuns(all: seq<Stmt>, x: seq<Stmt>, y: seq<Stmt>, z: seq<Stmt>, q: Request)
    requires FirstHttp(all, x, q) == None && FirstUse(all, x, q) == None && DefaultOf(x) == None
    requires FirstUse(all, y, q) == None && DefaultOf(y) == None
    ensures FirstHttp(all, x + (y + z), q) == if FirstHttp(all, y, q).Some? then FirstHttp(all, y, q) else FirstHttp(all, z, q)
    ensures FirstUse(all, x + (y + z), q) == FirstUse(all, z, q) && DefaultOf(x + (y + z)) == DefaultOf(z)
  {
    FirstHttpAppend(all, x, y + z, q);
    FirstHttpAppend(all, y, z, q);
    FirstUseAppend(all, x, y + z, q);
    FirstUseAppend(all, y, z, q);
    DefaultAppend(x, y + z);
    DefaultAppend(y, z);
  }

  lemma RoutePartsRun(m: Mapping, all: seq<Stmt>, q: Request)
    requires Means(m, all, q)
    ensures var parts := RouteAclStmts(m, m.pathRoutes) + (UpgradeStmts(m) + RouteTail(m));
      && FirstHttp(all, parts, q)
        == (if Guarded(m, q) || (m.targets == [] && !RouteMatches(m, q.path)) then Some(Deny) else None)
      && FirstUse(all, parts, q) == (if RouteMatches(m, q.path) then Some(DynName(m)) else None)
      && DefaultOf(parts) == None
  {
    DeclarationsRun(all, RouteAclStmts(m, m.pathRoutes), q);
    UpgradeFirst(m, all, q);
    TailRuns(m, all, q);
    ThreeRuns(all, RouteAclStmts(m, m.pathRoutes), UpgradeStmts(m), RouteTail(m), q);
  }

  lemma RoutesFirst(m: Mapping, all: seq<Stmt>, q: Request)
    requires Means(m, all, q)
    ensures FirstHttp(all, RouteStmts(m), q)
      == if Guarded(m, q) || (OnlyRoutes(m) && !RouteMatches(m, q.path)) then Some(Deny) else None
    ensures FirstUse(all, RouteStmts(m), q) == if RouteMatches(m, q.path) then Some(DynName(m)) else None
    ensures DefaultOf(RouteStmts(m)) == None
  {
    if m.pathRoutes != [] {
      RouteStmtsParts(m);
      RoutePartsRun(m, all, q);
    }
  }

  function RouteTail(m: Mapping): seq<Stmt> {
    [Use(DynName(m), AnyRoute(m, m.pathRoutes))] + (if m.targets == [] then [HttpRule(Deny, [NoRoute(m, m.pathRoutes)])] else [])
  }

  lemma TailRuns(m: Mapping, all: seq<Stmt>, q: Request)
    requires Means(m, all, q)
    ensures FirstHttp(all, RouteTail(m), q) == if m.targets == [] && !RouteMatches(m, q.path) then Some(Deny) else None
    ensures FirstUse(all, RouteTail(m), q) == if RouteMatches(m, q.path) then Some(DynName(m)) else None
    ensures DefaultOf(RouteTail(m)) == None
  {
    var only: seq<Stmt> := if m.targets == [] then [HttpRule(Deny, [NoRoute(m, m.pathRoutes)])] else [];
    AnyRouteHolds(m, all, q);
    NoRouteHolds(m, all, q);
    ConsRuns(all, Use(DynName(m), AnyRoute(m, m.pathRoutes)), only, q);
    if m.targets == [] {
      assert only == [HttpRule(Deny, [NoRoute(m, m.pathRoutes)])] + [];
      ConsRuns(all, only[0], [], q);
    }
  }

  lemma PrefixFirst(m: Mapping, all: seq<Stmt>, q: Request)
    requires Means(m, all, q)
    ensures FirstHttp(all, PrefixStmts(m), q)
      == if m.pathPrefix != "" && !HasPrefix(q.path, m.pathPrefix) then Some(Deny) else None
    ensures FirstUse(all, PrefixStmts(m), q)
      == if m.pathPrefix != "" && HasPrefix(q.path, m.pathPrefix) then Some(BackendName(m)) else None
    ensures DefaultOf(PrefixStmts(m)) == None
  {
    if m.pathPrefix != "" {
      OneTerm(all, Is(PathAcl(m)), q);
      OneTerm(all, Not(PathAcl(m)), q);
      var acl, use, deny := Acl(PathAcl(m), Beg(m.pathPrefix)), Use(BackendName(m), [[Is(PathAcl(m))]]), HttpRule(Deny, [[Not(PathAcl(m))]]);
      assert PrefixStmts(m) == [acl] + ([use] + ([deny] + []));
      ConsRuns(all, acl, [use] + ([deny] + []), q);
      ConsRuns(all, use, [deny] + [], q);
      ConsRuns(all, deny, [], q);
    }
  }

  /** What the rules after the access rules answer themselves. */
  lemma RoutingAnswers(m: Mapping, all: seq<Stmt>, q: Request)
    requires Means(m, all, q)
    ensures FirstHttp(all, Routing(m), q)
      == match FirstActing(m.routes, R.HaLocs(m.routes), q.path, true)
         case Some(l) => Some(Redirect(R.RedirectOf(m.routes, l.rule.id)))
         case None => if TurnedAway(m, q) then Some(Deny) else None
  {
    var rules := RuleStmts(m, R.HaLocs(m.routes));
    RulesFirst(m, all, R.HaLocs(m.routes), q);
    RoutesFirst(m, all, q);
    PrefixFirst(m, all, q);
    ConsRuns(all, Default(BackendName(m)), [], q);
    FirstHttpAppend(all, rules, RouteStmts(m) + (PrefixStmts(m) + LastStmt(m)), q);
    FirstHttpAppend(all, RouteStmts(m), PrefixStmts(m) + LastStmt(m), q);
    FirstHttpAppend(all, PrefixStmts(m), LastStmt(m), q);
  }

  function LastStmt(m: Mapping): seq<Stmt> {
    [Default(BackendName(m))] + []
  }

  function Routing(m: Mapping): seq<Stmt> {
    RuleStmts(m, R.HaLocs(m.routes)) + (RouteStmts(m) + (PrefixStmts(m) + LastStmt(m)))
  }

  /** The backend of what is let through. */
  lemma RoutingSends(m: Mapping, all: seq<Stmt>, q: Request)
    requires Means(m, all, q)
    ensures match FirstUse(all, Routing(m), q)
      case Some(backend) => backend == Backend(m, q.path)
      case None => Backend(m, q.path) == BackendName(m)
  {
    var rules := RuleStmts(m, R.HaLocs(m.routes));
    RulesFirst(m, all, R.HaLocs(m.routes), q);
    RoutesFirst(m, all, q);
    PrefixFirst(m, all, q);
    ConsRuns(all, Default(BackendName(m)), [], q);
    FirstUseAppend(all, rules, RouteStmts(m) + (PrefixStmts(m) + LastStmt(m)), q);
    FirstUseAppend(all, RouteStmts(m), PrefixStmts(m) + LastStmt(m), q);
    FirstUseAppend(all, PrefixStmts(m), LastStmt(m), q);
  }

  lemma RoutingDefault(m: Mapping, all: seq<Stmt>, q: Request)
    requires Means(m, all, q)
    ensures DefaultOf(Routing(m)) == Some(BackendName(m))
  {
    RulesFirst(m, all, R.HaLocs(m.routes), q);
    RoutesFirst(m, all, q);
    PrefixFirst(m, all, q);
    ConsRuns(all, Default(BackendName(m)), [], q);
    DefaultAppend(RuleStmts(m, R.HaLocs(m.routes)), RouteStmts(m) + (PrefixStmts(m) + LastStmt(m)));
    DefaultAppend(RouteStmts(m), PrefixStmts(m) + LastStmt(m));
    DefaultAppend(PrefixStmts(m), LastStmt(m));
  }

  lemma StatementsSplit(m: Mapping)
    ensures Statements(m) == AccessStmts(m.accessRules) + WhitelistStmts(m.accessRules) + Routing(m)
  {
    FiveParts(AccessStmts(m.accessRules) + WhitelistStmts(m.accessRules), RuleStmts(m, R.HaLocs(m.routes)), RouteStmts(m), PrefixStmts(m),
      [Default(BackendName(m))]);
  }

  lemma FiveParts(a: seq<Stmt>, b: seq<Stmt>, c: seq<Stmt>, d: seq<Stmt>, e: seq<Stmt>)
    ensures a + b + c + d + e == a + (b + (c + (d + (e + []))))
  {}

  lemma AccessSends(all: seq<Stmt>, rules: seq<AccessRule>, q: Request)
    ensures FirstUse(all, AccessStmts(rules) + WhitelistStmts(rules), q) == None
    ensures DefaultOf(AccessStmts(rules) + WhitelistStmts(rules)) == None
  {
    AccessUses(all, rules, q);
    FirstUseAppend(all, AccessStmts(rules), WhitelistStmts(rules), q);
    DefaultAppend(AccessStmts(rules), WhitelistStmts(rules));
  }

  lemma RunSplit(x: seq<Stmt>, y: seq<Stmt>, q: Request)
    requires FirstUse(x + y, x, q) == None && DefaultOf(x) == None
    ensures FirstHttp(x + y, x + y, q) == if FirstHttp(x + y, x, q).Some? then FirstHttp(x + y, x, q) else FirstHttp(x + y, y, q)
    ensures FirstUse(x + y, x + y, q) == FirstUse(x + y, y, q) && DefaultOf(x + y) == DefaultOf(y)
  {
    FirstHttpAppend(x + y, x, y, q);
    FirstUseAppend(x + y, x, y, q);
    DefaultAppend(x, y);
  }

  lemma StatementsRun(m: Mapping, q: Request)
    ensures FirstHttp(Statements(m), Statements(m), q)
      == match Access(m.accessRules, q.from)
         case Refused => Some(Deny)
         case Admitted => Some(Allow)
         case Unlisted => FirstHttp(Statements(m), Routing(m), q)
    ensures FirstUse(Statements(m), Statements(m), q) == FirstUse(Statements(m), Routing(m), q)
    ensures DefaultOf(Statements(m)) == DefaultOf(Routing(m))
  {
    StatementsSplit(m);
    AccessVerdict(Statements(m), m.accessRules, q);
    AccessSends(Statements(m), m.accessRules, q);
    RunSplit(AccessStmts(m.accessRules) + WhitelistStmts(m.accessRules), Routing(m), q);
  }

  /** What HAProxy does with every request to a printed frontend whose ACL names are each
      declared once. */
  lemma ServesAsExpected(m: Mapping, q: Request)
    requires IsHttp(m) && m.redirectTo == "" && ValidPathRoutes(m.pathRoutes) && AclsOnce(FrontendLines(m))
    ensures Serve(FrontendLines(m), q) == Expected(m, q)
  {
    FrontendRead(m);
    NamesMean(m, q);
    StatementsRun(m, q);
    RoutingAnswers(m, Statements(m), q);
    RoutingSends(m, Statements(m), q);
    RoutingDefault(m, Statements(m), q);
  }
}
