/** Whom a printed HAProxy frontend lets in, over tcp and over http. */
module HAProxyAccess {
  import opened Text
  import opened Model
  import opened AccessLists
  import opened HAProxyRender
  import opened HAProxyReading
  import HS = HAProxyRoutes

  // ---- tcp ----

  /** `tcp-request connection accept|reject`, with its condition. */
  datatype Gate = Gate(accept: bool, cond: Cond) | NoGate

  function ReadGate(l: Line): Gate {
    if |l| >= 3 && l[0] == "tcp-request" && l[1] == "connection" && l[2] == "accept" then Gate(true, ReadCond(l[3..]))
    else if |l| >= 3 && l[0] == "tcp-request" && l[1] == "connection" && l[2] == "reject" then Gate(false, ReadCond(l[3..]))
    else NoGate
  }

  /** The first gate whose condition holds decides; without one the connection is taken. */
  ghost predicate Connects(lines: seq<Line>, q: Request) {
    lines == []
    || (if ReadGate(lines[0]).Gate? && CondHolds([], ReadGate(lines[0]).cond, q) then ReadGate(lines[0]).accept else Connects(lines[1..], q))
  }

  lemma GateRead(r: AccessRule)
    ensures ReadGate(AccessLine(r, true)) == Gate(r.action == "allow", [[From(r.value)]])
  {
    var l := AccessLine(r, true);
    assert l == ["tcp-request", "connection", if r.action == "allow" then "accept" else "reject", "if", "{", "src", r.value, "}"];
    assert l[3..] == ["if", "{", "src", r.value, "}"];
    assert l[3..][1..] == ["{", "src", r.value, "}"];
    assert l[3..][1..][4..] == [];
    LastTerm(From(r.value));
  }

  lemma ClosingRead()
    ensures ReadGate(["tcp-request", "connection", "reject"]) == Gate(false, ALWAYS)
  {
    var l: Line := ["tcp-request", "connection", "reject"];
    assert l[3..] == [];
  }

  /** Lines that are no gates. */
  predicate NoGates(lines: seq<Line>) {
    forall i :: 0 <= i < |lines| ==> ReadGate(lines[i]) == NoGate
  }

  lemma {:induction false} NoGatesConnect(lines: seq<Line>, q: Request)
    requires NoGates(lines)
    ensures Connects(lines, q)
  {
    if lines != [] { NoGatesConnect(lines[1..], q); }
  }

  lemma GateStep(r: AccessRule, rest: seq<Line>, q: Request)
    ensures Connects([AccessLine(r, true)] + rest, q) <==> if r.value in q.from then r.action == "allow" else Connects(rest, q)
  {
    GateRead(r);
    HS.OneTerm([], From(r.value), q);
    assert ([AccessLine(r, true)] + rest)[1..] == rest;
  }

  lemma {:induction false} GatesConnect(rules: seq<AccessRule>, rest: seq<Line>, q: Request)
    ensures Connects(AccessLinesOf(rules, true) + rest, q)
      <==> AllowedFirst(rules, q.from) || (InNone(rules, q.from) && Connects(rest, q))
  {
    if rules == [] {
      assert AccessLinesOf(rules, true) + rest == rest;
    } else {
      var more := AccessLinesOf(rules[1..], true) + rest;
      assert AccessLinesOf(rules, true) + rest == [AccessLine(rules[0], true)] + more;
      GateStep(rules[0], more, q);
      GatesConnect(rules[1..], rest, q);
      FirstInCons(rules, q.from);
    }
  }

  /** A printed tcp frontend takes a connection exactly when the access list lets the
      client in. */
  lemma TcpEntersIff(m: Mapping, q: Request)
    requires m.protocol == Tcp
    ensures Connects(FrontendLines(m), q) <==> MayEnter(m.accessRules, q.from)
  {
    var closing: seq<Line> := if HasAllow(m.accessRules) then [["tcp-request", "connection", "reject"]] else [];
    var last: seq<Line> := [["default_backend", BackendName(m)]];
    assert FrontendLines(m) == AccessLinesOf(m.accessRules, true) + (closing + last);
    GatesConnect(m.accessRules, closing + last, q);
    NoGatesConnect(last, q);
    ClosingRead();
    HS.AlwaysHolds([], q);
    assert HasAllow(m.accessRules) <==> IsWhitelist(m.accessRules);
    if HasAllow(m.accessRules) {
      assert (closing + last)[0] == ["tcp-request", "connection", "reject"];
    } else {
      assert closing + last == last;
    }
  }

  // ---- http ----

  /** The first http-request rules of a printed http frontend deny exactly the clients the
      access list keeps out; those an allow rule admits skip all later ones. */
  lemma HttpEntersIff(m: Mapping, all: seq<Stmt>, q: Request)
    ensures FirstHttp(all, Read(AccessLines(m, false)), q) == Some(Deny) <==> !MayEnter(m.accessRules, q.from)
    ensures FirstHttp(all, Read(AccessLines(m, false)), q) == Some(Allow) <==> AllowedFirst(m.accessRules, q.from)
  {
    var access := AccessLinesOf(m.accessRules, false);
    var white: seq<Line> := if HasAllow(m.accessRules) then [["http-request", "deny"]] else [];
    AccessRead(m.accessRules);
    WhitelistRead(m.accessRules);
    ReadAppend(access, white);
    HS.AccessVerdict(all, m.accessRules, q);
    VerdictIff(m.accessRules, q.from);
  }

  lemma {:induction false} ListedIff(rules: seq<AccessRule>, from: set<string>)
    ensures HS.FirstListed(rules, from) == None <==> InNone(rules, from)
    ensures HS.FirstListed(rules, from).Some? && HS.FirstListed(rules, from).value.action == "allow" <==> AllowedFirst(rules, from)
  {
    if rules != [] {
      ListedIff(rules[1..], from);
      FirstInCons(rules, from);
    }
  }

  lemma VerdictIff(rules: seq<AccessRule>, from: set<string>)
    ensures HS.Access(rules, from) == HS.Refused <==> !MayEnter(rules, from)
    ensures HS.Access(rules, from) == HS.Admitted <==> AllowedFirst(rules, from)
  {
    ListedIff(rules, from);
    assert HasAllow(rules) <==> IsWhitelist(rules);
  }

  // ---- mappings that redirect as a whole ----

  lemma RedirectLine(m: Mapping)
    requires IsHttp(m) && m.redirectTo != ""
    ensures Read(RoutingLines(m)) == [HttpRule(Redirect(m.redirectTo), ALWAYS)]
  {
    RedirectLineRead(m.redirectTo, []);
    var l: Line := ["http-request", "redirect", "location", m.redirectTo, "code", "301"];
    assert l + [] == l;
  }

  lemma RedirectRuns(m: Mapping, all: seq<Stmt>, q: Request)
    requires IsHttp(m) && m.redirectTo != ""
    ensures FirstHttp(all, Read(FrontendLines(m)), q) ==
      if !MayEnter(m.accessRules, q.from) then Some(Deny)
      else if AllowedFirst(m.accessRules, q.from) then Some(Allow)
      else Some(Redirect(m.redirectTo))
  {
    HttpEntersIff(m, all, q);
    AccessAnswers(m, all, q);
    ReadAppend(AccessLines(m, false), RoutingLines(m));
    RedirectLine(m);
    FirstHttpAppend(all, Read(AccessLines(m, false)), Read(RoutingLines(m)), q);
    HS.AlwaysHolds(all, q);
  }

  lemma AccessAnswers(m: Mapping, all: seq<Stmt>, q: Request)
    ensures FirstHttp(all, Read(AccessLines(m, false)), q) in {None, Some(Allow), Some(Deny)}
  {
    var access := AccessLinesOf(m.accessRules, false);
    var white: seq<Line> := if HasAllow(m.accessRules) then [["http-request", "deny"]] else [];
    AccessRead(m.accessRules);
    WhitelistRead(m.accessRules);
    ReadAppend(access, white);
    HS.AccessVerdict(all, m.accessRules, q);
  }

  lemma NoBackendThere(m: Mapping, all: seq<Stmt>, q: Request)
    requires IsHttp(m) && m.redirectTo != ""
    ensures FirstUse(all, Read(FrontendLines(m)), q) == None && DefaultOf(Read(FrontendLines(m))) == None
  {
    var access := AccessLinesOf(m.accessRules, false);
    var white: seq<Line> := if HasAllow(m.accessRules) then [["http-request", "deny"]] else [];
    AccessRead(m.accessRules);
    WhitelistRead(m.accessRules);
    ReadAppend(access, white);
    ReadAppend(AccessLines(m, false), RoutingLines(m));
    RedirectLine(m);
    HS.AccessSends(all, m.accessRules, q);
    var last := [HttpRule(Redirect(m.redirectTo), ALWAYS)];
    FirstUseAppend(all, AccessStmts(m.accessRules) + WhitelistStmts(m.accessRules), last, q);
    DefaultAppend(AccessStmts(m.accessRules) + WhitelistStmts(m.accessRules), last);
    assert last[1..] == [];
  }

  /** A mapping that redirects as a whole redirects exactly the clients that no rule names:
      those kept out are denied, and those an allow rule lets in get nothing at all. */
  lemma RedirectServes(m: Mapping, q: Request)
    requires IsHttp(m) && m.redirectTo != ""
    ensures Serve(FrontendLines(m), q) ==
      if !MayEnter(m.accessRules, q.from) then Denied
      else if AllowedFirst(m.accessRules, q.from) then NoBackend
      else Redirected(m.redirectTo)
  {
    RedirectRuns(m, Read(FrontendLines(m)), q);
    NoBackendThere(m, Read(FrontendLines(m)), q);
  }
}
