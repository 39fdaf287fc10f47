/** Bandwidth limits from policy to kernel (internal/api/ratelimit.go,
    internal/ratelimit/ratelimit.go, applier.go): the plan of a node, the difference from
    what is applied, and the reconcile loop with its persisted state. The kernel's own state
    is not modelled; what the loop asks of it is. */
module RateLimit {
  import opened Text

  datatype Rule = Rule(uuid: string, username: string, sourceIP: string, down: int, up: int)

  type Rules = map<string, Rule>

  predicate SameLimits(r: Rule, s: Rule) {
    r.down == s.down && r.up == s.up
  }

  // ---- the plan of a node ----

  datatype Policy = Policy(uuid: string, node: int, enabled: bool, down: int, up: int)

  datatype User = User(uuid: string, username: string, lastIP: string)

  /** `ipByUUID`: the last user with the id. */
  function FindUser(users: seq<User>, uuid: string): Option<User> {
    if users == [] then None
    else if users[|users| - 1].uuid == uuid then Some(users[|users| - 1])
    else FindUser(users[..|users| - 1], uuid)
  }

  /** A policy's rule, when it is for this node, limits something and its user has been seen. */
  function RuleOf(p: Policy, users: seq<User>, node: int): Option<Rule> {
    if p.node != node || !p.enabled || (p.down <= 0 && p.up <= 0) then None
    else match FindUser(users, p.uuid)
      case None => None
      case Some(u) => if u.lastIP == "" then None else Some(Rule(p.uuid, u.username, u.lastIP, p.down, p.up))
  }

  /** `buildNodePlan`. */
  function NodePlan(policies: seq<Policy>, users: seq<User>, node: int): seq<Rule> {
    if policies == [] then []
    else match RuleOf(policies[0], users, node)
      case Some(r) => [r] + NodePlan(policies[1..], users, node)
      case None => NodePlan(policies[1..], users, node)
  }

  lemma {:induction false} NodePlanRules(policies: seq<Policy>, users: seq<User>, node: int, r: Rule)
    ensures r in NodePlan(policies, users, node) <==> exists p :: p in policies && RuleOf(p, users, node) == Some(r)
  {
    if policies != [] {
      NodePlanRules(policies[1..], users, node, r);
      assert policies == [policies[0]] + policies[1..];
    }
  }

  // ---- what a plan asks for ----

  predicate IPChar(c: char) {
    '0' <= c <= '9' || c == '.' || c == ':'
  }

  /** `validIP`. */
  predicate ValidIP(s: string) {
    && s != "" && |s| <= 45
    && (forall i :: 0 <= i < |s| ==> IPChar(s[i]))
    && (Count(s, '.') == 3 || ':' in s)
  }

  predicate Enforceable(r: Rule) {
    r.sourceIP != "" && r.down > 0 && ValidIP(r.sourceIP)
  }

  /** The desired rules by address: the last enforceable rule wins. */
  function Desired(rules: seq<Rule>): Rules
    decreases |rules|
  {
    if rules == [] then map[]
    else
      var before := Desired(rules[..|rules| - 1]);
      var r := rules[|rules| - 1];
      if Enforceable(r) then before[r.sourceIP := r] else before
  }

  ghost predicate HasRule(rules: seq<Rule>, ip: string) {
    exists i :: 0 <= i < |rules| && Enforceable(rules[i]) && rules[i].sourceIP == ip
  }

  lemma HasRuleAppend(init: seq<Rule>, r: Rule, ip: string)
    ensures HasRule(init + [r], ip) <==> HasRule(init, ip) || (Enforceable(r) && r.sourceIP == ip)
  {
    var rules := init + [r];
    assert rules[|init|] == r && forall i :: 0 <= i < |init| ==> rules[i] == init[i];
    if HasRule(init, ip) {
      var i :| 0 <= i < |init| && Enforceable(init[i]) && init[i].sourceIP == ip;
      assert rules[i] == init[i];
    }
  }

  lemma {:induction false} DesiredAt(rules: seq<Rule>, ip: string)
    ensures ip in Desired(rules) <==> exists i :: 0 <= i < |rules| && Enforceable(rules[i]) && rules[i].sourceIP == ip
    ensures ip in Desired(rules) ==> Desired(rules)[ip] in rules && Enforceable(Desired(rules)[ip]) && Desired(rules)[ip].sourceIP == ip
    decreases |rules|
  {
    if rules != [] {
      var init := rules[..|rules| - 1];
      DesiredAt(init, ip);
      HasRuleAppend(init, rules[|rules| - 1], ip);
      assert rules == init + [rules[|rules| - 1]];
      assert HasRule(rules, ip) <==> ip in Desired(rules);
    }
  }

  /** A policy that gets an address limited: it must limit the download, whatever it says of
      the upload. */
  predicate Limits(p: Policy, users: seq<User>, node: int, ip: string) {
    && p.node == node && p.enabled && p.down > 0
    && FindUser(users, p.uuid).Some? && FindUser(users, p.uuid).value.lastIP == ip
  }

  /** From policies to enforcement: an address is limited exactly when it is valid and some
      enabled policy of the node limits the download of a user last seen there. Policies
      that only limit the upload are planned and never enforced. */
  lemma EnforcedIff(policies: seq<Policy>, users: seq<User>, node: int, ip: string)
    ensures ip in Desired(NodePlan(policies, users, node)) <==> ValidIP(ip) && exists p :: p in policies && Limits(p, users, node, ip)
  {
    var plan := NodePlan(policies, users, node);
    DesiredAt(plan, ip);
    if ip in Desired(plan) {
      var r := Desired(plan)[ip];
      NodePlanRules(policies, users, node, r);
      var p :| p in policies && RuleOf(p, users, node) == Some(r);
      assert Limits(p, users, node, ip);
    }
    if ValidIP(ip) && exists p :: p in policies && Limits(p, users, node, ip) {
      var p :| p in policies && Limits(p, users, node, ip);
      var r := RuleOf(p, users, node).value;
      NodePlanRules(policies, users, node, r);
      var i :| 0 <= i < |plan| && plan[i] == r;
      assert Enforceable(plan[i]);
    }
  }

  // ---- the difference ----

  /** The last rule of each address. */
  function ByIP(rules: seq<Rule>): Rules
    decreases |rules|
  {
    if rules == [] then map[] else ByIP(rules[..|rules| - 1])[rules[|rules| - 1].sourceIP := rules[|rules| - 1]]
  }

  function Added(cur: Rules, des: Rules): set<string> {
    des.Keys - cur.Keys
  }

  function Updated(cur: Rules, des: Rules): set<string> {
    set ip | ip in des && ip in cur && !SameLimits(cur[ip], des[ip])
  }

  function Removed(cur: Rules, des: Rules): set<string> {
    cur.Keys - des.Keys
  }

  /** Carrying the three sets out. */
  function Patched(cur: Rules, des: Rules): Rules {
    map ip | ip in des :: if ip in cur && SameLimits(cur[ip], des[ip]) then cur[ip] else des[ip]
  }

  ghost predicate SameOutside(cur: Rules, after: Rules, touched: set<string>) {
    forall ip :: ip !in touched ==> (ip in after <==> ip in cur) && (ip in cur ==> after[ip] == cur[ip])
  }

  /** The three sets are disjoint; carrying them out gives every address its desired limits
      and leaves all others alone; and every address in them had to change. */
  lemma DiffIsExact(cur: Rules, des: Rules)
    ensures Added(cur, des) !! Updated(cur, des) !! Removed(cur, des)
    ensures Patched(cur, des).Keys == des.Keys && forall ip :: ip in des ==> SameLimits(Patched(cur, des)[ip], des[ip])
    ensures SameOutside(cur, Patched(cur, des), Added(cur, des) + Updated(cur, des) + Removed(cur, des))
    ensures forall after: Rules, touched: set<string> ::
      after.Keys == des.Keys && (forall ip :: ip in des ==> SameLimits(after[ip], des[ip])) && SameOutside(cur, after, touched)
      ==> Added(cur, des) + Updated(cur, des) + Removed(cur, des) <= touched
  {
    forall after: Rules, touched: set<string> |
      after.Keys == des.Keys && (forall ip :: ip in des ==> SameLimits(after[ip], des[ip])) && SameOutside(cur, after, touched)
      ensures Added(cur, des) + Updated(cur, des) + Removed(cur, des) <= touched
    {
      forall ip | ip in Added(cur, des) + Updated(cur, des) + Removed(cur, des) ensures ip in touched {
        if ip in Added(cur, des) { assert ip in after; }
      }
    }
  }

  /** Once carried out, there is no difference left. */
  lemma NothingLeft(cur: Rules, des: Rules)
    ensures var after := Patched(cur, des); Added(after, des) == {} && Updated(after, des) == {} && Removed(after, des) == {}
  {}

  // ---- the programs ----

  lemma {:induction false} ByIPKeys(rules: seq<Rule>)
    ensures forall ip :: ip in ByIP(rules) ==> ByIP(rules)[ip].sourceIP == ip
    decreases |rules|
  {
    if rules != [] { ByIPKeys(rules[..|rules| - 1]); }
  }

  /** The rules of these addresses, each once. */
  ghost predicate Lists(out: seq<Rule>, rules: Rules, ips: set<string>) {
    && |out| == |ips| <= |rules|
    && (forall ip :: ip in ips ==> ip in rules && rules[ip] in out)
    && (forall r :: r in out ==> exists ip :: ip in ips && ip in rules && rules[ip] == r)
  }

  method Index(rules: seq<Rule>) returns (m: Rules)
    ensures m == ByIP(rules)
  {
    m := map[];
    for i := 0 to |rules|
      invariant m == ByIP(rules[..i])
    {
      assert rules[..i + 1][..i] == rules[..i];
      m := m[rules[i].sourceIP := rules[i]];
    }
    assert rules[..|rules|] == rules;
  }

  lemma Smaller(x: set<string>, y: set<string>)
    requires x <= y
    ensures |x| <= |y|
  {
    assert y == x + (y - x);
  }

  /** The rules of `rules` whose address is in `ips`, each once, in the order a map gives. */
  method Collect(rules: Rules, ips: set<string>) returns (out: seq<Rule>)
    requires ips <= rules.Keys
    ensures Lists(out, rules, ips)
  {
    out := [];
    var todo := ips;
    while todo != {}
      invariant todo <= ips && |out| == |ips| - |todo|
      invariant forall ip :: ip in ips - todo ==> rules[ip] in out
      invariant forall r :: r in out ==> exists ip :: ip in ips && ip in rules && rules[ip] == r
      decreases |todo|
    {
      var ip :| ip in todo;
      var rest := todo - {ip};
      out := out + [rules[ip]];
      todo := rest;
    }
    assert ips - todo == ips;
    Smaller(ips, rules.Keys);
  }

  /** `Diff`. */
  method Diff(current: seq<Rule>, desired: seq<Rule>) returns (add: seq<Rule>, update: seq<Rule>, remove: seq<Rule>)
    ensures var cur, des := ByIP(current), ByIP(desired);
      Lists(add, des, Added(cur, des)) && Lists(update, des, Updated(cur, des)) && Lists(remove, cur, Removed(cur, des))
  {
    var cur := Index(current);
    var des := Index(desired);
    add := Collect(des, Added(cur, des));
    update := Collect(des, Updated(cur, des));
    remove := Collect(cur, Removed(cur, des));
  }

  // ---- the reconcile loop ----

  datatype Applied = Applied(iface: string, rules: Rules)

  datatype Step = Remove(ip: string) | Apply(ip: string, rule: Rule)

  /** The interface found ("" for none), the addresses the kernel refuses, and whether the
      state file can be written. */
  datatype World = World(iface: string, refused: set<string>, saveFails: bool)

  /** What the loop starts from: nothing, after the interface has changed. */
  function Start(saved: Applied, w: World): Rules {
    if saved.iface != "" && saved.iface != w.iface then map[] else saved.rules
  }

  /** The steps a plan takes from `cur`. */
  function Removes(cur: Rules, des: Rules): set<Step> {
    set ip | ip in Removed(cur, des) :: Remove(ip)
  }

  function Applies(cur: Rules, des: Rules): set<Step> {
    set ip | ip in des && ip in Added(cur, des) + Updated(cur, des) :: Apply(ip, des[ip])
  }

  ghost predicate Once(steps: seq<Step>) {
    forall i, j :: 0 <= i < j < |steps| ==> steps[i] != steps[j]
  }

  predicate Refuses(cur: Rules, des: Rules, w: World) {
    exists ip :: ip in Added(cur, des) + Updated(cur, des) && ip in w.refused
  }

  predicate Missing(cur: Rules, des: Rules, ip: string)
    requires ip in des
  {
    ip !in cur || !SameLimits(cur[ip], des[ip])
  }

  /** The addresses outside `todo` have been looked at. */
  ghost predicate PartlyPatched(cur: Rules, des: Rules, todo: set<string>, rules: Rules) {
    && (forall ip :: ip in rules <==> ip in cur || (ip in des && ip !in todo))
    && (forall ip :: ip in rules ==> rules[ip] == if ip in des && ip !in todo then Patched(cur, des)[ip] else cur[ip])
  }

  lemma PatchStep(cur: Rules, des: Rules, todo: set<string>, rules: Rules, ip: string)
    requires PartlyPatched(cur, des, todo, rules) && ip in todo && ip in des
    ensures ip in rules && SameLimits(rules[ip], des[ip]) <==> !Missing(cur, des, ip)
    ensures PartlyPatched(cur, des, todo - {ip}, if Missing(cur, des, ip) then rules[ip := des[ip]] else rules)
  {
    assert ip in rules ==> rules[ip] == cur[ip];
  }

  lemma PatchEnd(cur: Rules, des: Rules, rules: Rules)
    requires cur.Keys <= des.Keys && PartlyPatched(cur, des, {}, rules)
    ensures rules == Patched(cur, des)
  {
    assert forall ip :: ip in rules <==> ip in des;
  }

  ghost predicate AppliedSoFar(cur: Rules, des: Rules, todo: set<string>, steps: seq<Step>) {
    forall s :: s in steps <==> s.Apply? && s.ip in des && s.ip !in todo && Missing(cur, des, s.ip) && s.rule == des[s.ip]
  }

  lemma AppliedStep(cur: Rules, des: Rules, todo: set<string>, steps: seq<Step>, ip: string)
    requires Once(steps) && AppliedSoFar(cur, des, todo, steps) && ip in todo && ip in des && Missing(cur, des, ip)
    ensures var longer := steps + [Apply(ip, des[ip])]; Once(longer) && AppliedSoFar(cur, des, todo - {ip}, longer)
  {
    assert Apply(ip, des[ip]) !in steps;
  }

  class Applier {
    var saved: Applied

    method FilterPlan(plan: seq<Rule>) returns (des: Rules)
      ensures des == Desired(plan)
    {
      des := map[];
      for i := 0 to |plan|
        invariant des == Desired(plan[..i])
      {
        assert plan[..i + 1][..i] == plan[..i];
        if plan[i].sourceIP == "" || plan[i].down <= 0 {
          continue;
        }
        if !ValidIP(plan[i].sourceIP) {
          continue;
        }
        des := des[plan[i].sourceIP := plan[i]];
      }
      assert plan[..|plan|] == plan;
    }

    /** The first loop: addresses that vanished. */
    method RemoveVanished(cur: Rules, des: Rules) returns (rules: Rules, steps: seq<Step>)
      ensures rules == map ip | ip in cur && ip in des :: cur[ip]
      ensures Once(steps) && forall s :: s in steps <==> s in Removes(cur, des)
    {
      rules, steps := cur, [];
      var todo := cur.Keys;
      while todo != {}
        invariant todo <= cur.Keys
        invariant rules == map ip | ip in cur && (ip in des || ip in todo) :: cur[ip]
        invariant Once(steps) && forall s :: s in steps <==> s.Remove? && s.ip in cur && s.ip !in des && s.ip !in todo
        decreases |todo|
      {
        var ip :| ip in todo;
        if ip !in des {
          rules := rules - {ip};
          steps := steps + [Remove(ip)];
        }
        todo := todo - {ip};
      }
    }

    /** The second loop: addresses that are new or have new limits; stops at a refusal. */
    method ApplyMissing(cur: Rules, des: Rules, refused: set<string>) returns (rules: Rules, steps: seq<Step>, ok: bool)
      requires cur.Keys <= des.Keys
      ensures ok <==> !exists ip :: ip in des && Missing(cur, des, ip) && ip in refused
      ensures ok ==> rules == Patched(cur, des)
      ensures Once(steps) && forall s :: s in steps ==> s in Applies(cur, des)
      ensures ok ==> forall s :: s in Applies(cur, des) ==> s in steps
    {
      rules, steps := cur, [];
      var todo := des.Keys;
      while todo != {}
        invariant todo <= des.Keys && PartlyPatched(cur, des, todo, rules)
        invariant forall ip :: ip in des && ip !in todo && Missing(cur, des, ip) ==> ip !in refused
        invariant Once(steps) && AppliedSoFar(cur, des, todo, steps)
        decreases |todo|
      {
        var ip :| ip in todo;
        PatchStep(cur, des, todo, rules, ip);
        if ip in rules && SameLimits(rules[ip], des[ip]) {
          todo := todo - {ip};
          continue;
        }
        if ip in refused {
          return rules, steps, false;
        }
        AppliedStep(cur, des, todo, steps, ip);
        rules := rules[ip := des[ip]];
        steps := steps + [Apply(ip, des[ip])];
        todo := todo - {ip};
      }
      PatchEnd(cur, des, rules);
      ok := true;
    }

    /** `ApplyPlan`: the persisted state changes only when everything worked. */
    method ApplyPlan(plan: seq<Rule>, w: World) returns (steps: seq<Step>, ok: bool)
      modifies this
      ensures var cur, des := Start(old(saved), w), Desired(plan);
        && (ok <==> w.iface != "" && !Refuses(cur, des, w) && !w.saveFails)
        && (ok ==> saved == Applied(w.iface, Patched(cur, des)))
        && (!ok ==> saved == old(saved))
        && Once(steps) && (forall s :: s in steps ==> s in Removes(cur, des) + Applies(cur, des))
        && (ok ==> forall s :: s in Removes(cur, des) + Applies(cur, des) ==> s in steps)
    {
      if w.iface == "" {
        return [], false;
      }
      var cur := Start(saved, w);
      var des := FilterPlan(plan);
      var kept, removes := RemoveVanished(cur, des);
      var rules, applies, done := ApplyMissing(kept, des, w.refused);
      RemovalChangesNothingElse(cur, des, kept);
      OnceAppend(removes, applies);
      steps := removes + applies;
      ok := done && !w.saveFails;
      if ok {
        saved := Applied(w.iface, rules);
      }
    }
  }

  lemma OnceAppend(x: seq<Step>, y: seq<Step>)
    requires Once(x) && Once(y) && (forall s :: s in x ==> s.Remove?) && forall s :: s in y ==> s.Apply?
    ensures Once(x + y)
  {
    forall i | 0 <= i < |x| ensures x[i].Remove? { assert x[i] in x; }
    forall i | 0 <= i < |y| ensures y[i].Apply? { assert y[i] in y; }
  }

  lemma RemovalChangesNothingElse(cur: Rules, des: Rules, kept: Rules)
    requires kept == map ip | ip in cur && ip in des :: cur[ip]
    ensures Patched(kept, des) == Patched(cur, des) && Applies(kept, des) == Applies(cur, des)
    ensures forall ip :: ip in des && (ip !in kept || !SameLimits(kept[ip], des[ip])) <==> ip in Added(cur, des) + Updated(cur, des)
  {}

  /** Repeating a plan that was applied asks nothing of the kernel. */
  lemma RepeatIsSilent(before: Applied, plan: seq<Rule>, w: World, again: World)
    requires w.iface != "" && again.iface == w.iface
    ensures var after := Applied(w.iface, Patched(Start(before, w), Desired(plan)));
      Removes(Start(after, again), Desired(plan)) == {} && Applies(Start(after, again), Desired(plan)) == {}
  {
    NothingLeft(Start(before, w), Desired(plan));
  }

  // ---- which rule, which rates ----

  ghost predicate LastFor(rules: seq<Rule>, ip: string, i: nat) {
    && i < |rules| && Enforceable(rules[i]) && rules[i].sourceIP == ip
    && forall j :: i < j < |rules| ==> !(Enforceable(rules[j]) && rules[j].sourceIP == ip)
  }

  /** The last enforceable rule of an address is the one that counts. */
  lemma {:induction false} DesiredIsLast(rules: seq<Rule>, ip: string, i: nat)
    requires LastFor(rules, ip, i)
    ensures ip in Desired(rules) && Desired(rules)[ip] == rules[i]
    decreases |rules|
  {
    if i < |rules| - 1 {
      var init := rules[..|rules| - 1];
      assert LastFor(init, ip, i);
      DesiredIsLast(init, ip, i);
    }
  }

  lemma {:induction false} ByIPIsLast(rules: seq<Rule>, i: nat)
    requires i < |rules| && forall j :: i < j < |rules| ==> rules[j].sourceIP != rules[i].sourceIP
    ensures rules[i].sourceIP in ByIP(rules) && ByIP(rules)[rules[i].sourceIP] == rules[i]
    decreases |rules|
  {
    if i < |rules| - 1 {
      assert forall j :: i < j < |rules| - 1 ==> rules[..|rules| - 1][j] == rules[j];
      ByIPIsLast(rules[..|rules| - 1], i);
    }
  }

  /** Of users with one id the last listed is looked up. */
  lemma {:induction false} FindsLastUser(users: seq<User>, i: nat)
    requires i < |users| && forall j :: i < j < |users| ==> users[j].uuid != users[i].uuid
    ensures FindUser(users, users[i].uuid) == Some(users[i])
    decreases |users|
  {
    if i < |users| - 1 {
      assert forall j :: i < j < |users| - 1 ==> users[..|users| - 1][j] == users[j];
      FindsLastUser(users[..|users| - 1], i);
    }
  }

  /** A limited address gets the rates of one policy that limits it, both of them, under the
      name of its user. */
  lemma EnforcedRates(policies: seq<Policy>, users: seq<User>, node: int, ip: string)
    requires ip in Desired(NodePlan(policies, users, node))
    ensures var r := Desired(NodePlan(policies, users, node))[ip];
      exists p :: p in policies && Limits(p, users, node, ip) && r == Rule(p.uuid, FindUser(users, p.uuid).value.username, ip, p.down, p.up)
  {
    var plan := NodePlan(policies, users, node);
    DesiredAt(plan, ip);
    var r := Desired(plan)[ip];
    NodePlanRules(policies, users, node, r);
    var p :| p in policies && RuleOf(p, users, node) == Some(r);
    assert Limits(p, users, node, ip);
  }

  /** Carrying a plan out leaves every address with exactly its download and upload rate. */
  lemma RatesReached(cur: Rules, des: Rules, ip: string)
    requires ip in des
    ensures ip in Patched(cur, des) && Patched(cur, des)[ip].down == des[ip].down && Patched(cur, des)[ip].up == des[ip].up
    ensures ip in cur && cur[ip].down == des[ip].down && cur[ip].up == des[ip].up ==> Patched(cur, des)[ip] == cur[ip]
  {}

  /** After the interface has changed, everything is applied afresh and nothing removed;
      otherwise the loop goes on from what is saved. */
  lemma InterfaceChange(saved: Applied, des: Rules, w: World)
    ensures saved.iface != "" && saved.iface != w.iface ==>
      Removes(Start(saved, w), des) == {} && forall s :: s in Applies(Start(saved, w), des) <==> s.Apply? && s.ip in des && s.rule == des[s.ip]
    ensures saved.iface == "" || saved.iface == w.iface ==> Start(saved, w) == saved.rules
  {}

  /** A plan has a rule of a policy exactly when that is enabled for the node, limits the
      download or the upload, and its user has been seen. */
  lemma PlannedIff(p: Policy, users: seq<User>, node: int)
    ensures NodePlan([p], users, node) != [] <==>
      && p.node == node && p.enabled && (p.down > 0 || p.up > 0)
      && FindUser(users, p.uuid).Some? && FindUser(users, p.uuid).value.lastIP != ""
  {
    assert [p][1..] == [];
  }

  // ---- addresses ----

  lemma DigitsAreIPChars(n: nat)
    ensures forall i :: 0 <= i < |Itoa(n)| ==> IPChar(Itoa(n)[i])
    ensures Count(Itoa(n), '.') == 0
  {
    CountAbsent(Itoa(n), '.');
    forall i | 0 <= i < |Itoa(n)| ensures IPChar(Itoa(n)[i]) { assert IsDigit(Itoa(n)[i]); }
  }

  lemma ShortNumber(n: nat)
    requires n < 256
    ensures 1 <= |Itoa(n)| <= 3
  {
    if n >= 10 { assert Itoa(n) == Itoa(n / 10) + [DigitChar(n % 10)]; }
    if n >= 100 { assert Itoa(n / 10) == Itoa(n / 100) + [DigitChar(n / 10 % 10)]; }
  }

  predicate AllIPChars(s: string) {
    forall i :: 0 <= i < |s| ==> IPChar(s[i])
  }

  lemma IPCharsAppend(x: string, y: string)
    requires AllIPChars(x) && AllIPChars(y)
    ensures AllIPChars(x + "." + y) && |x + "." + y| == |x| + 1 + |y|
  {}

  /** Every dotted quad is an address, */
  lemma QuadIsValid(a: nat, b: nat, c: nat, d: nat)
    requires a < 256 && b < 256 && c < 256 && d < 256
    ensures ValidIP(Itoa(a) + "." + Itoa(b) + "." + Itoa(c) + "." + Itoa(d))
  {
    NumberPart(a);
    NumberPart(b);
    NumberPart(c);
    NumberPart(d);
    JoinedQuad(Itoa(a), Itoa(b), Itoa(c), Itoa(d));
  }

  lemma NumberPart(n: nat)
    requires n < 256
    ensures AllIPChars(Itoa(n)) && Count(Itoa(n), '.') == 0 && 1 <= |Itoa(n)| <= 3
  {
    DigitsAreIPChars(n);
    ShortNumber(n);
  }

  lemma JoinedQuad(a: string, b: string, c: string, d: string)
    requires AllIPChars(a) && AllIPChars(b) && AllIPChars(c) && AllIPChars(d)
    requires Count(a, '.') == 0 && Count(b, '.') == 0 && Count(c, '.') == 0 && Count(d, '.') == 0
    requires 1 <= |a| <= 3 && 1 <= |b| <= 3 && 1 <= |c| <= 3 && 1 <= |d| <= 3
    ensures ValidIP(a + "." + b + "." + c + "." + d)
  {
    IPCharsAppend(a, b);
    IPCharsAppend(a + "." + b, c);
    IPCharsAppend(a + "." + b + "." + c, d);
    QuadDots(a, b, c, d);
  }

  lemma QuadDots(a: string, b: string, c: string, d: string)
    requires Count(a, '.') == 0 && Count(b, '.') == 0 && Count(c, '.') == 0 && Count(d, '.') == 0
    ensures Count(a + "." + b + "." + c + "." + d, '.') == 3
  {
    assert Count(".", '.') == 1 by { assert "."[1..] == []; }
    CountAppend(a, ".", '.');
    CountAppend(a + ".", b, '.');
    CountAppend(a + "." + b, ".", '.');
    CountAppend(a + "." + b + ".", c, '.');
    CountAppend(a + "." + b + "." + c, ".", '.');
    CountAppend(a + "." + b + "." + c + ".", d, '.');
  }

  /** so is every text of the right characters with a colon, */
  lemma ColonIsValid(s: string, i: nat)
    requires i < |s| <= 45 && s[i] == ':' && forall j :: 0 <= j < |s| ==> IsDigit(s[j]) || s[j] == '.' || s[j] == ':'
    ensures ValidIP(s)
  {
    assert forall j :: 0 <= j < |s| ==> IPChar(s[j]);
  }

  /** and no text with any other character, or too long, is one. */
  lemma OthersAreNot(s: string, i: nat)
    requires i < |s| && (|s| > 45 || !(IsDigit(s[i]) || s[i] == '.' || s[i] == ':'))
    ensures !ValidIP(s)
  {
    if |s| <= 45 { assert !IPChar(s[i]); }
  }
}
