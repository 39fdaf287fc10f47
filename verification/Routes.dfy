/** Path-routing rules: their order in both renderers, what the HAProxy one emits, and
    the rule that should serve a request path. */
module Routes {
  import opened Text
  import opened Model

  // ---- longest prefix first ----

  /** A rule under the prefix it is rendered with. */
  datatype Loc = Loc(path: string, rule: RouteRule)

  /** Moves `x` left past strictly shorter prefixes. */
  function Insert(sorted: seq<Loc>, x: Loc): (r: seq<Loc>)
    ensures |r| == |sorted| + 1
  {
    if sorted != [] && |x.path| > |sorted[|sorted| - 1].path|
    then Insert(sorted[..|sorted| - 1], x) + [sorted[|sorted| - 1]]
    else sorted + [x]
  }

  /** The insertion sort both renderers run on their rule lists. */
  function Sorted(rules: seq<Loc>): (r: seq<Loc>)
    ensures |r| == |rules|
  {
    if rules == [] then []
    else Insert(Sorted(rules[..|rules| - 1]), rules[|rules| - 1])
  }

  lemma {:induction false} InsertPermutes(sorted: seq<Loc>, x: Loc)
    ensures multiset(Insert(sorted, x)) == multiset(sorted) + multiset{x}
  {
    if sorted != [] && |x.path| > |sorted[|sorted| - 1].path| {
      InsertPermutes(sorted[..|sorted| - 1], x);
      assert sorted == sorted[..|sorted| - 1] + [sorted[|sorted| - 1]];
    }
  }

  lemma {:induction false} SortedPermutes(rules: seq<Loc>)
    ensures multiset(Sorted(rules)) == multiset(rules)
  {
    if rules != [] {
      SortedPermutes(rules[..|rules| - 1]);
      InsertPermutes(Sorted(rules[..|rules| - 1]), rules[|rules| - 1]);
      assert rules == rules[..|rules| - 1] + [rules[|rules| - 1]];
    }
  }

  ghost predicate Descending(locs: seq<Loc>) {
    forall i, j :: 0 <= i < j < |locs| ==> |locs[i].path| >= |locs[j].path|
  }

  lemma {:induction false} InsertMembers(sorted: seq<Loc>, x: Loc)
    ensures forall y :: y in Insert(sorted, x) ==> y == x || y in sorted
  {
    if sorted != [] && |x.path| > |sorted[|sorted| - 1].path| {
      InsertMembers(sorted[..|sorted| - 1], x);
    }
  }

  lemma DescendingAppend(locs: seq<Loc>, last: Loc)
    requires Descending(locs) && forall y :: y in locs ==> |y.path| >= |last.path|
    ensures Descending(locs + [last])
  {}

  lemma {:induction false} InsertDescends(sorted: seq<Loc>, x: Loc)
    requires Descending(sorted)
    ensures Descending(Insert(sorted, x))
  {
    if sorted != [] && |x.path| > |sorted[|sorted| - 1].path| {
      var init, last := sorted[..|sorted| - 1], sorted[|sorted| - 1];
      InsertDescends(init, x);
      InsertMembers(init, x);
      DescendingAppend(Insert(init, x), last);
    } else {
      DescendingAppend(sorted, x);
    }
  }

  lemma {:induction false} SortedDescends(rules: seq<Loc>)
    ensures Descending(Sorted(rules))
  {
    if rules != [] {
      SortedDescends(rules[..|rules| - 1]);
      InsertDescends(Sorted(rules[..|rules| - 1]), rules[|rules| - 1]);
    }
  }

  lemma DescendingTail(locs: seq<Loc>)
    requires locs != [] && Descending(locs)
    ensures Descending(locs[1..])
    ensures forall x :: x in locs ==> x == locs[0] || (x in locs[1..] && |x.path| <= |locs[0].path|)
  {
    var rest := locs[1..];
    forall i, j | 0 <= i < j < |rest| ensures |rest[i].path| >= |rest[j].path| { assert rest[i] == locs[i + 1] && rest[j] == locs[j + 1]; }
    forall x | x in locs ensures x == locs[0] || (x in rest && |x.path| <= |locs[0].path|) {
      var i :| 0 <= i < |locs| && locs[i] == x;
      if i > 0 { assert rest[i - 1] == x; }
    }
  }

  lemma SortedMembers(rules: seq<Loc>, x: Loc)
    ensures x in Sorted(rules) <==> x in rules
  {
    SortedPermutes(rules);
    assert x in Sorted(rules) <==> x in multiset(Sorted(rules));
  }

  /** Where an element lands: after everything at least as long. */
  lemma {:induction false} InsertAt(sorted: seq<Loc>, x: Loc, j: nat)
    requires j <= |sorted|
    requires forall k :: j <= k < |sorted| ==> |x.path| > |sorted[k].path|
    requires j > 0 ==> |x.path| <= |sorted[j - 1].path|
    ensures Insert(sorted, x) == sorted[..j] + [x] + sorted[j..]
  {
    if j < |sorted| {
      var init := sorted[..|sorted| - 1];
      InsertAt(init, x, j);
      assert init[..j] == sorted[..j] && sorted[j..] == init[j..] + [sorted[|sorted| - 1]];
    }
  }

  /** The inner loop: one element sinks to its place in the sorted prefix. */
  method Sink(a: array<Loc>, i: nat)
    requires 0 < i < a.Length
    modifies a
    ensures a[..i + 1] == Insert(old(a[..i]), old(a[i]))
    ensures forall k :: i < k < a.Length ==> a[k] == old(a[k])
  {
    var j := i;
    ghost var prefix, x := a[..i], a[i];
    while j > 0 && |a[j].path| > |a[j - 1].path|
      invariant 0 <= j <= i && a[j] == x
      invariant forall k :: 0 <= k < j ==> a[k] == prefix[k]
      invariant forall k :: j < k <= i ==> a[k] == prefix[k - 1]
      invariant forall k :: i < k < a.Length ==> a[k] == old(a[k])
      invariant forall k :: j <= k < i ==> |x.path| > |prefix[k].path|
    {
      a[j], a[j - 1] := a[j - 1], a[j];
      j := j - 1;
    }
    InsertAt(prefix, x, j);
    assert a[..i + 1] == prefix[..j] + [x] + prefix[j..];
  }

  lemma SortedStep(rules: seq<Loc>, i: nat)
    requires i < |rules|
    ensures Sorted(rules[..i + 1]) == Insert(Sorted(rules[..i]), rules[i])
  {
    assert rules[..i + 1][..i] == rules[..i];
  }

  method SortInPlace(a: array<Loc>)
    modifies a
    ensures a[..] == Sorted(old(a[..]))
  {
    ghost var start := a[..];
    if a.Length == 0 {
      return;
    }
    var i := 1;
    SortedStep(start, 0);
    assert start[..0] == [] && a[..1] == [start[0]];
    while i < a.Length
      invariant 1 <= i <= a.Length
      invariant a[..i] == Sorted(start[..i])
      invariant forall k :: i <= k < a.Length ==> a[k] == start[k]
    {
      SortedStep(start, i);
      Sink(a, i);
      i := i + 1;
    }
    assert a[..i] == a[..] && start[..i] == start;
  }

  // ---- what the renderers emit ----

  datatype HaDirective =
    | Acl(name: string, prefix: string)
    | RedirectIf(url: string, acl: string)
    | UseBackendIf(backend: string, acl: string)

  datatype NgAction = Return301(url: string) | ProxyTo(host: string, port: int) | ProxyUpstream(name: string)

  /** `RouteRulePathForNginx`: a trailing wildcard is implied by prefix matching. */
  function NginxPath(p: string): string {
    if HasSuffix(p, "/*") then p[..|p| - 1] else p
  }

  function EnabledLocs(rules: seq<RouteRule>, nginx: bool): seq<Loc> {
    if rules == [] then []
    else
      var rest := EnabledLocs(rules[1..], nginx);
      var r := rules[0];
      if r.enabled then [Loc(if nginx then NginxPath(r.path) else r.path, r)] + rest else rest
  }

  /** `ruleHasRedirect`: looks the rule up again by id. */
  predicate HasRedirect(rules: seq<RouteRule>, id: nat) {
    rules != [] && ((rules[0].id == id && rules[0].redirect != "") || HasRedirect(rules[1..], id))
  }

  /** `ruleRedirect`: the first rule with that id decides. */
  function RedirectOf(rules: seq<RouteRule>, id: nat): string {
    if rules == [] then "" else if rules[0].id == id then rules[0].redirect else RedirectOf(rules[1..], id)
  }

  function RuleTag(id: nat): string {
    "_r" + Itoa(id % 100000)
  }

  function HaRuleDirectives(fe: string, be: string, rules: seq<RouteRule>, l: Loc): (ds: seq<HaDirective>)
    ensures |ds| == 2
  {
    var acl := fe + RuleTag(l.rule.id);
    [Acl(acl, l.path),
     if HasRedirect(rules, l.rule.id) then RedirectIf(RedirectOf(rules, l.rule.id), acl)
     else UseBackendIf(be + RuleTag(l.rule.id), acl)]
  }

  function HaDirectivesOf(fe: string, be: string, rules: seq<RouteRule>, locs: seq<Loc>): seq<HaDirective> {
    if locs == [] then []
    else HaRuleDirectives(fe, be, rules, locs[0]) + HaDirectivesOf(fe, be, rules, locs[1..])
  }

  /** `renderHARouteRules`. */
  function HaDirectives(fe: string, be: string, rules: seq<RouteRule>): seq<HaDirective> {
    HaDirectivesOf(fe, be, rules, Sorted(EnabledLocs(rules, false)))
  }

  function NgRuleAction(mapping: nat, r: RouteRule): NgAction {
    if r.redirect != "" then Return301(r.redirect)
    else if |r.targets| == 1 then ProxyTo(r.targets[0].host, r.targets[0].port)
    else ProxyUpstream(if r.targets == [] then "" else "pg_up_" + (Itoa(mapping) + ("_r" + Itoa(r.id))))
  }

  method CollectLocs(rules: seq<RouteRule>, nginx: bool) returns (locs: array<Loc>)
    ensures fresh(locs) && locs[..] == EnabledLocs(rules, nginx)
  {
    var found: seq<Loc> := [];
    assert rules[0..] == rules;
    for i := 0 to |rules|
      invariant EnabledLocs(rules, nginx) == found + EnabledLocs(rules[i..], nginx)
    {
      assert rules[i..][1..] == rules[i + 1..];
      var r := rules[i];
      if r.enabled {
        found := found + [Loc(if nginx then NginxPath(r.path) else r.path, r)];
      }
    }
    locs := new Loc[|found|](k requires 0 <= k < |found| => found[k]);
    assert locs[..] == found;
  }

  method RenderHaRules(fe: string, be: string, rules: seq<RouteRule>) returns (out: seq<HaDirective>)
    ensures out == HaDirectives(fe, be, rules)
  {
    var locs := CollectLocs(rules, false);
    SortInPlace(locs);
    var sorted := locs[..];
    out := [];
    assert sorted[0..] == sorted;
    for i := 0 to |sorted|
      invariant HaDirectives(fe, be, rules) == out + HaDirectivesOf(fe, be, rules, sorted[i..])
    {
      assert sorted[i..][1..] == sorted[i + 1..];
      out := out + HaRuleDirectives(fe, be, rules, sorted[i]);
    }
  }

  // ---- the rule that should serve a path ----

  predicate Matches(r: RouteRule, path: string) {
    r.enabled && HasPrefix(path, r.path)
  }

  /** The longest enabled rule whose prefix the path has. */
  ghost predicate Longest(rules: seq<RouteRule>, path: string, r: RouteRule) {
    r in rules && Matches(r, path) && forall s :: s in rules && Matches(s, path) ==> |s.path| <= |r.path|
  }

  ghost predicate NoneMatches(rules: seq<RouteRule>, path: string) {
    forall r :: r in rules ==> !Matches(r, path)
  }

  /** No control characters; the validator also refuses those outside ASCII. */
  predicate Printable(s: string) {
    forall i :: 0 <= i < |s| ==> s[i] >= ' ' && s[i] != '\U{7F}'
  }

  /** What validation leaves of one rule (internal/proxy/engine.go). */
  predicate ValidRule(r: RouteRule) {
    HasPrefix(r.path, "/") && Printable(r.path) && (r.redirect != "" || r.targets != [])
  }

  /** And of all: their paths differ. */
  ghost predicate ValidRules(rules: seq<RouteRule>) {
    && (forall r :: r in rules ==> ValidRule(r))
    && (forall i, j :: 0 <= i < j < |rules| ==> rules[i].path != rules[j].path)
  }

  lemma OneRuleValid(r: RouteRule)
    requires ValidRule(r)
    ensures ValidRules([r])
  {
    assert forall x :: x in [r] ==> x == r;
  }

  lemma TwoRulesValid(r: RouteRule, s: RouteRule)
    requires ValidRule(r) && ValidRule(s) && r.path != s.path
    ensures ValidRules([r, s])
  {
    assert forall x :: x in [r, s] ==> x == r || x == s;
  }

  /** For HAProxy it refuses wildcards too. */
  ghost predicate PlainRules(rules: seq<RouteRule>) {
    ValidRules(rules) && forall r :: r in rules ==> '*' !in r.path
  }

  /** The longest matching rule is unique, and there is one whenever any rule matches. */
  lemma LongestIsUnique(rules: seq<RouteRule>, path: string, r: RouteRule, s: RouteRule)
    requires ValidRules(rules) && Longest(rules, path, r) && Longest(rules, path, s)
    ensures r == s
  {
    assert r.path == path[..|r.path|] == s.path;
    var i :| 0 <= i < |rules| && rules[i] == r;
    var j :| 0 <= j < |rules| && rules[j] == s;
  }

  lemma {:induction false} LongestExists(rules: seq<RouteRule>, path: string) returns (r: RouteRule)
    requires !NoneMatches(rules, path)
    ensures Longest(rules, path, r)
  {
    var x :| x in rules && Matches(x, path);
    r := x;
    while !Longest(rules, path, r)
      invariant r in rules && Matches(r, path)
      decreases |path| - |r.path|
    {
      var s :| s in rules && Matches(s, path) && |s.path| > |r.path|;
      r := s;
    }
  }

  lemma {:induction false} LocMembers(rules: seq<RouteRule>, nginx: bool, l: Loc)
    ensures l in EnabledLocs(rules, nginx) <==>
      l.rule in rules && l.rule.enabled && l.path == (if nginx then NginxPath(l.rule.path) else l.rule.path)
  {
    if rules != [] {
      LocMembers(rules[1..], nginx, l);
      assert rules == [rules[0]] + rules[1..];
    }
  }

  // ---- the rules as HAProxy lists them ----

  function HaLocs(rules: seq<RouteRule>): seq<Loc> {
    Sorted(EnabledLocs(rules, false))
  }

  lemma HaLocMembers(rules: seq<RouteRule>, l: Loc)
    ensures l in HaLocs(rules) <==> l.rule in rules && l.rule.enabled && l.path == l.rule.path
  {
    SortedMembers(EnabledLocs(rules, false), l);
    LocMembers(rules, false, l);
  }

  /** A redirect rule that a longer proxying rule extends. */
  ghost predicate RedirectShadowsProxy(rules: seq<RouteRule>, r: RouteRule, p: RouteRule) {
    r in rules && p in rules && r.enabled && p.enabled && r.redirect != "" && p.redirect == ""
    && |r.path| < |p.path| && HasPrefix(p.path, r.path)
  }

  lemma PrefixesNest(path: string, p: string, q: string)
    requires HasPrefix(path, p) && HasPrefix(path, q) && |p| <= |q|
    ensures HasPrefix(q, p)
  {
    assert q[..|p|] == path[..|q|][..|p|] == path[..|p|];
  }

  lemma SameLengthSameRule(rules: seq<RouteRule>, path: string, f: RouteRule, r: RouteRule)
    requires ValidRules(rules) && Longest(rules, path, r) && f in rules && Matches(f, path) && |f.path| >= |r.path|
    ensures f == r
  {
    LongestIsUnique(rules, path, f, r);
  }

  // ---- nginx ----

  lemma PlainPath(rules: seq<RouteRule>, r: RouteRule)
    requires PlainRules(rules) && r in rules
    ensures NginxPath(r.path) == r.path
  {
    assert |r.path| >= 2 ==> r.path[|r.path| - 2..][1] == r.path[|r.path| - 1];
  }
}
