/** Reading the rules of a printed HAProxy frontend: its ACLs, its http-request rules and
    its choice of a backend. */
module HAProxyReading {
  import opened Text
  import opened Model
  import opened HAProxyRender
  import R = Routes

  // ---- statements ----

  /** `path_beg`, `path_reg`, and whether an Upgrade header is there. */
  datatype Test = Beg(prefix: string) | Reg(pattern: string) | Upgrading

  datatype Action = Allow | Deny | Redirect(url: string)

  /** One word of a condition: a named ACL, its negation, or `{ src value }`. */
  datatype Term = Is(name: string) | Not(name: string) | From(value: string)

  /** Any of several conjunctions. */
  type Cond = seq<seq<Term>>

  const ALWAYS: Cond := [[]]

  datatype Stmt =
    | Acl(name: string, test: Test)
    | HttpRule(action: Action, cond: Cond)
    | Use(backend: string, cond: Cond)
    | Default(backend: string)
    | Other

  function ReadWord(w: string): Term {
    if w != "" && w[0] == '!' then Not(w[1..]) else Is(w)
  }

  /** The words after `if`: juxtaposition is "and", `||` separates alternatives. */
  function ReadTerms(words: seq<string>): (c: Cond)
    ensures c != []
  {
    if words == [] then [[]]
    else if words[0] == "||" then [[]] + ReadTerms(words[1..])
    else if words[0] == "{" && |words| >= 4 && words[1] == "src" then
      var rest := ReadTerms(words[4..]);
      [[From(words[2])] + rest[0]] + rest[1..]
    else
      var rest := ReadTerms(words[1..]);
      [[ReadWord(words[0])] + rest[0]] + rest[1..]
  }

  function ReadCond(words: seq<string>): Cond {
    if words == [] then ALWAYS else if words[0] == "if" then ReadTerms(words[1..]) else []
  }

  function ReadAcl(l: Line): Stmt
    requires |l| >= 3
  {
    if l[2] == "path_beg" && |l| == 4 then Acl(l[1], Beg(l[3]))
    else if l[2] == "path_reg" && |l| == 4 then Acl(l[1], Reg(l[3]))
    else if l[2] == "req.hdr(Upgrade)" then Acl(l[1], Upgrading)
    else Other
  }

  function ReadHttp(l: Line): Stmt
    requires |l| >= 2
  {
    if l[1] == "allow" then HttpRule(Allow, ReadCond(l[2..]))
    else if l[1] == "deny" then HttpRule(Deny, ReadCond(if |l| >= 4 && l[2] == "deny_status" && l[3] == "404" then l[4..] else l[2..]))
    else if l[1] == "redirect" && |l| >= 6 && l[2] == "location" && l[4] == "code" && l[5] == "301" then HttpRule(Redirect(l[3]), ReadCond(l[6..]))
    else Other
  }

  function ReadLine(l: Line): Stmt {
    if |l| >= 3 && l[0] == "acl" then ReadAcl(l)
    else if |l| >= 2 && l[0] == "http-request" then ReadHttp(l)
    else if |l| >= 2 && l[0] == "use_backend" then Use(l[1], ReadCond(l[2..]))
    else if |l| >= 2 && l[0] == "default_backend" then Default(l[1])
    else Other
  }

  function Read(lines: seq<Line>): (ss: seq<Stmt>)
    ensures |ss| == |lines| && forall i :: 0 <= i < |lines| ==> ss[i] == ReadLine(lines[i])
  {
    if lines == [] then [] else [ReadLine(lines[0])] + Read(lines[1..])
  }

  lemma ReadAppend(x: seq<Line>, y: seq<Line>)
    ensures Read(x + y) == Read(x) + Read(y)
  {}

  // ---- patterns ----

  /** Where the port part of a pattern starts. */
  function PortStart(s: string): (i: nat)
    ensures i <= |s|
    ensures i < |s| ==> s[i] == '(' || s[i] == '['
    ensures forall k :: 0 <= k < i ==> s[k] != '(' && s[k] != '['
  {
    if s == [] || s[0] == '(' || s[0] == '[' then 0 else 1 + PortStart(s[1..])
  }

  const PATTERN_END := "(/.*)?$"
  const ANY_PORT := "[0-9]+"

  /** The literal of `^literal(ports)(/.*)?$`. */
  function LiteralOf(pattern: string): string {
    var i := PortStart(pattern);
    if i >= 1 then pattern[1..i] else ""
  }

  function PortPart(pattern: string): string {
    TrimSuffix(pattern[PortStart(pattern)..], PATTERN_END)
  }

  /** A text for the port that the port part takes: any digits, or one of the alternatives. */
  predicate TakesPort(part: string, d: string) {
    if part == ANY_PORT then d != [] && AllDigits(d)
    else |part| >= 2 && d in Split(part[1..|part| - 1], '|')
  }

  /** The path is `head`, or continues below it. */
  predicate AtOrBelow(path: string, head: string) {
    HasPrefix(path, head) && (|path| == |head| || path[|head|] == '/')
  }

  ghost predicate PatternTakes(pattern: string, path: string) {
    exists d :: TakesPort(PortPart(pattern), d) && AtOrBelow(path, LiteralOf(pattern) + d)
  }

  // ---- running a frontend ----

  /** A request: its path, the configured source values its client is in, and whether it
      has an Upgrade header. */
  datatype Request = Request(path: string, from: set<string>, upgrade: bool)

  datatype Outcome = Denied | Redirected(url: string) | Sent(backend: string) | NoBackend

  ghost predicate TestHolds(t: Test, q: Request) {
    match t
    case Beg(prefix) => HasPrefix(q.path, prefix)
    case Reg(pattern) => PatternTakes(pattern, q.path)
    case Upgrading => q.upgrade
  }

  /** An ACL holds when any line declaring its name does. */
  ghost predicate AclHolds(all: seq<Stmt>, name: string, q: Request) {
    exists i :: 0 <= i < |all| && all[i].Acl? && all[i].name == name && TestHolds(all[i].test, q)
  }

  ghost predicate TermHolds(all: seq<Stmt>, t: Term, q: Request) {
    match t
    case Is(name) => AclHolds(all, name, q)
    case Not(name) => !AclHolds(all, name, q)
    case From(value) => value in q.from
  }

  ghost predicate AllHold(all: seq<Stmt>, ts: seq<Term>, q: Request) {
    forall i :: 0 <= i < |ts| ==> TermHolds(all, ts[i], q)
  }

  ghost predicate CondHolds(all: seq<Stmt>, c: Cond, q: Request) {
    exists i :: 0 <= i < |c| && AllHold(all, c[i], q)
  }

  /** The first http-request rule whose condition holds; every action ends the rules. */
  ghost function FirstHttp(all: seq<Stmt>, ss: seq<Stmt>, q: Request): Option<Action> {
    if ss == [] then None
    else if ss[0].HttpRule? && CondHolds(all, ss[0].cond, q) then Some(ss[0].action)
    else FirstHttp(all, ss[1..], q)
  }

  /** The first `use_backend` whose condition holds. */
  ghost function FirstUse(all: seq<Stmt>, ss: seq<Stmt>, q: Request): Option<string> {
    if ss == [] then None
    else if ss[0].Use? && CondHolds(all, ss[0].cond, q) then Some(ss[0].backend)
    else FirstUse(all, ss[1..], q)
  }

  function DefaultOf(ss: seq<Stmt>): Option<string> {
    if ss == [] then None else if ss[0].Default? then Some(ss[0].backend) else DefaultOf(ss[1..])
  }

  /** HAProxy runs the http-request rules in order, and selects a backend only for what
      they let through. */
  ghost function Run(ss: seq<Stmt>, q: Request): Outcome {
    match FirstHttp(ss, ss, q)
    case Some(Deny) => Denied
    case Some(Redirect(url)) => Redirected(url)
    case _ =>
      match FirstUse(ss, ss, q)
      case Some(backend) => Sent(backend)
      case None => match DefaultOf(ss) case Some(backend) => Sent(backend) case None => NoBackend
  }

  /** What the printed frontend of an http mapping does with a request. */
  function FrontendLines(m: Mapping): seq<Line> {
    AccessLines(m, m.protocol == Tcp) + RoutingLines(m)
  }

  ghost function Serve(lines: seq<Line>, q: Request): Outcome {
    Run(Read(lines), q)
  }

  lemma {:induction false} FirstHttpAppend(all: seq<Stmt>, x: seq<Stmt>, y: seq<Stmt>, q: Request)
    ensures FirstHttp(all, x + y, q) == if FirstHttp(all, x, q).Some? then FirstHttp(all, x, q) else FirstHttp(all, y, q)
  {
    if x == [] {
      assert x + y == y;
    } else {
      assert (x + y)[1..] == x[1..] + y;
      FirstHttpAppend(all, x[1..], y, q);
    }
  }

  lemma {:induction false} FirstUseAppend(all: seq<Stmt>, x: seq<Stmt>, y: seq<Stmt>, q: Request)
    ensures FirstUse(all, x + y, q) == if FirstUse(all, x, q).Some? then FirstUse(all, x, q) else FirstUse(all, y, q)
  {
    if x == [] {
      assert x + y == y;
    } else {
      assert (x + y)[1..] == x[1..] + y;
      FirstUseAppend(all, x[1..], y, q);
    }
  }

  lemma {:induction false} DefaultAppend(x: seq<Stmt>, y: seq<Stmt>)
    ensures DefaultOf(x + y) == if DefaultOf(x).Some? then DefaultOf(x) else DefaultOf(y)
  {
    if x == [] {
      assert x + y == y;
    } else {
      assert (x + y)[1..] == x[1..] + y;
      DefaultAppend(x[1..], y);
    }
  }

  // ---- what the printed lines say ----

  /** A word that names an ACL. */
  predicate PlainWord(w: string) {
    w != "" && w[0] != '!' && w[0] != '{' && w[0] != '|'
  }

  lemma WordRead(w: string, rest: seq<string>)
    requires PlainWord(w)
    ensures ReadTerms([w] + rest) == [[Is(w)] + ReadTerms(rest)[0]] + ReadTerms(rest)[1..]
  {
    assert ([w] + rest)[1..] == rest;
    assert "||"[0] == '|' && "{"[0] == '{';
  }

  lemma NegatedRead(w: string, rest: seq<string>)
    ensures ReadTerms(["!" + w] + rest) == [[Not(w)] + ReadTerms(rest)[0]] + ReadTerms(rest)[1..]
  {
    var n := "!" + w;
    assert ([n] + rest)[1..] == rest && n[0] == '!' && n[1..] == w;
    assert "||"[0] == '|' && "{"[0] == '{';
  }

  lemma OrRead(rest: seq<string>)
    ensures ReadTerms(["||"] + rest) == [[]] + ReadTerms(rest)
  {
    assert (["||"] + rest)[1..] == rest;
  }

  lemma LastTerm(t: Term)
    ensures [[t] + ReadTerms([])[0]] + ReadTerms([])[1..] == [[t]]
  {
    assert [t] + [] == [t];
  }

  lemma OneWord(w: string)
    requires PlainWord(w)
    ensures ReadCond(["if", w]) == [[Is(w)]] && ReadCond(["if", "!" + w]) == [[Not(w)]]
  {
    assert ["if", w][1..] == [w] + [] && ["if", "!" + w][1..] == ["!" + w] + [];
    WordRead(w, []);
    NegatedRead(w, []);
    LastTerm(Is(w));
    LastTerm(Not(w));
  }

  function RuleAcl(m: Mapping, r: RouteRule): string {
    FrontendName(m) + R.RuleTag(r.id)
  }

  function RuleBackend(m: Mapping, r: RouteRule): string {
    BackendName(m) + R.RuleTag(r.id)
  }

  function RouteAcl(m: Mapping, pr: PathRoute): string {
    FrontendName(m) + "_" + pr.prefix
  }

  function UpAcl(m: Mapping): string {
    FrontendName(m) + "_up"
  }

  function PathAcl(m: Mapping): string {
    FrontendName(m) + "_path"
  }

  function DynName(m: Mapping): string {
    BackendName(m) + "_dyn"
  }

  lemma NamesArePlain(m: Mapping, suffix: string)
    ensures PlainWord(FrontendName(m) + suffix)
  {
    assert FrontendName(m)[0] == "fe_pg"[0] == 'f';
  }

  function AccessStmt(r: AccessRule): Stmt {
    HttpRule(if r.action == "allow" then Allow else Deny, [[From(r.value)]])
  }

  function AccessStmts(rules: seq<AccessRule>): (ss: seq<Stmt>)
    ensures |ss| == |rules| && forall i :: 0 <= i < |rules| ==> ss[i] == AccessStmt(rules[i])
  {
    if rules == [] then [] else [AccessStmt(rules[0])] + AccessStmts(rules[1..])
  }

  function WhitelistStmts(rules: seq<AccessRule>): seq<Stmt> {
    if HasAllow(rules) then [HttpRule(Deny, ALWAYS)] else []
  }

  /** The rule is looked up by its id, so another rule's redirect may be found. */
  function RuleStmt(m: Mapping, r: RouteRule): Stmt {
    if R.HasRedirect(m.routes, r.id) then HttpRule(Redirect(R.RedirectOf(m.routes, r.id)), [[Is(RuleAcl(m, r))]])
    else Use(RuleBackend(m, r), [[Is(RuleAcl(m, r))]])
  }

  function RuleStmts(m: Mapping, locs: seq<R.Loc>): seq<Stmt> {
    if locs == [] then []
    else [Acl(RuleAcl(m, locs[0].rule), Beg(locs[0].path)), RuleStmt(m, locs[0].rule)] + RuleStmts(m, locs[1..])
  }

  function RouteAclStmts(m: Mapping, prs: seq<PathRoute>): (ss: seq<Stmt>)
    ensures |ss| == |prs| && forall i :: 0 <= i < |prs| ==> ss[i] == Acl(RouteAcl(m, prs[i]), Reg(PathPattern(prs[i])))
  {
    if prs == [] then [] else [Acl(RouteAcl(m, prs[0]), Reg(PathPattern(prs[0])))] + RouteAclStmts(m, prs[1..])
  }

  predicate SomeUpgrade(prs: seq<PathRoute>) {
    exists i :: 0 <= i < |prs| && NeedsUpgrade(prs[i])
  }

  function GuardStmts(m: Mapping, prs: seq<PathRoute>): seq<Stmt> {
    if prs == [] then []
    else if NeedsUpgrade(prs[0]) then [HttpRule(Deny, [[Is(RouteAcl(m, prs[0])), Not(UpAcl(m))]])] + GuardStmts(m, prs[1..])
    else GuardStmts(m, prs[1..])
  }

  function UpgradeStmts(m: Mapping): seq<Stmt> {
    if SomeUpgrade(m.pathRoutes) then [Acl(UpAcl(m), Upgrading)] + GuardStmts(m, m.pathRoutes) else []
  }

  function AnyRoute(m: Mapping, prs: seq<PathRoute>): (c: Cond)
    ensures |c| == |prs| && forall i :: 0 <= i < |prs| ==> c[i] == [Is(RouteAcl(m, prs[i]))]
  {
    if prs == [] then [] else [[Is(RouteAcl(m, prs[0]))]] + AnyRoute(m, prs[1..])
  }

  function NoRoute(m: Mapping, prs: seq<PathRoute>): (ts: seq<Term>)
    ensures |ts| == |prs| && forall i :: 0 <= i < |prs| ==> ts[i] == Not(RouteAcl(m, prs[i]))
  {
    if prs == [] then [] else [Not(RouteAcl(m, prs[0]))] + NoRoute(m, prs[1..])
  }

  /** Without targets, a mapping with path routes serves nothing else. */
  predicate OnlyRoutes(m: Mapping) {
    m.pathRoutes != [] && m.targets == []
  }

  function RouteStmts(m: Mapping): seq<Stmt> {
    if m.pathRoutes == [] then []
    else
      RouteAclStmts(m, m.pathRoutes) + UpgradeStmts(m) + [Use(DynName(m), AnyRoute(m, m.pathRoutes))]
      + (if m.targets == [] then [HttpRule(Deny, [NoRoute(m, m.pathRoutes)])] else [])
  }

  function PrefixStmts(m: Mapping): seq<Stmt> {
    if m.pathPrefix == "" then []
    else [Acl(PathAcl(m), Beg(m.pathPrefix)), Use(BackendName(m), [[Is(PathAcl(m))]]), HttpRule(Deny, [[Not(PathAcl(m))]])]
  }

  /** The frontend of an http mapping that does not redirect as a whole. */
  function Statements(m: Mapping): seq<Stmt> {
    AccessStmts(m.accessRules) + WhitelistStmts(m.accessRules) + RuleStmts(m, R.HaLocs(m.routes))
    + RouteStmts(m) + PrefixStmts(m) + [Default(BackendName(m))]
  }

  lemma AccessLineRead(r: AccessRule)
    ensures ReadLine(AccessLine(r, false)) == AccessStmt(r)
  {
    var l := AccessLine(r, false);
    assert l == ["http-request", if r.action == "allow" then "allow" else "deny", "if", "{", "src", r.value, "}"];
    assert l[2..] == ["if", "{", "src", r.value, "}"];
    assert l[2..][1..] == ["{", "src", r.value, "}"];
    assert l[2..][1..][4..] == [];
    LastTerm(From(r.value));
  }

  lemma {:induction false} AccessRead(rules: seq<AccessRule>)
    ensures Read(AccessLinesOf(rules, false)) == AccessStmts(rules)
  {
    if rules != [] {
      AccessLineRead(rules[0]);
      ReadAppend([AccessLine(rules[0], false)], AccessLinesOf(rules[1..], false));
      AccessRead(rules[1..]);
    }
  }

  lemma WhitelistRead(rules: seq<AccessRule>)
    ensures Read(if HasAllow(rules) then [["http-request", "deny"]] else []) == WhitelistStmts(rules)
  {
    var l: Line := ["http-request", "deny"];
    assert l[2..] == [];
  }

  lemma AclLineRead(name: string, prefix: string)
    ensures ReadLine(["acl", name, "path_beg", prefix]) == Acl(name, Beg(prefix))
  {}

  lemma RegLineRead(name: string, pattern: string)
    ensures ReadLine(["acl", name, "path_reg", pattern]) == Acl(name, Reg(pattern))
  {}

  lemma UpLineRead(name: string)
    ensures ReadLine(["acl", name, "req.hdr(Upgrade)", "-m", "found"]) == Acl(name, Upgrading)
  {}

  lemma UseLineRead(backend: string, words: seq<string>)
    ensures ReadLine(["use_backend", backend] + words) == Use(backend, ReadCond(words))
  {
    assert (["use_backend", backend] + words)[2..] == words;
  }

  lemma DenyLineRead(words: seq<string>)
    ensures ReadLine(["http-request", "deny", "deny_status", "404"] + words) == HttpRule(Deny, ReadCond(words))
  {
    assert (["http-request", "deny", "deny_status", "404"] + words)[4..] == words;
  }

  lemma RedirectLineRead(url: string, words: seq<string>)
    ensures ReadLine(["http-request", "redirect", "location", url, "code", "301"] + words) == HttpRule(Redirect(url), ReadCond(words))
  {
    assert (["http-request", "redirect", "location", url, "code", "301"] + words)[6..] == words;
  }

  lemma RuleLineRead(m: Mapping, l: R.Loc)
    ensures var ds := R.HaRuleDirectives(FrontendName(m), BackendName(m), m.routes, l);
      Read([DirectiveLine(ds[0]), DirectiveLine(ds[1])]) == [Acl(RuleAcl(m, l.rule), Beg(l.path)), RuleStmt(m, l.rule)]
  {
    var acl, id := RuleAcl(m, l.rule), l.rule.id;
    NamesArePlain(m, R.RuleTag(id));
    OneWord(acl);
    AclLineRead(acl, l.path);
    UseLineRead(RuleBackend(m, l.rule), ["if", acl]);
    assert ["use_backend", RuleBackend(m, l.rule), "if", acl] == ["use_backend", RuleBackend(m, l.rule)] + ["if", acl];
    var url := R.RedirectOf(m.routes, id);
    RedirectLineRead(url, ["if", acl]);
    assert ["http-request", "redirect", "location", url, "code", "301", "if", acl]
        == ["http-request", "redirect", "location", url, "code", "301"] + ["if", acl];
  }

  lemma {:induction false} RulesRead(m: Mapping, locs: seq<R.Loc>)
    ensures Read(DirectiveLines(R.HaDirectivesOf(FrontendName(m), BackendName(m), m.routes, locs))) == RuleStmts(m, locs)
  {
    if locs != [] {
      var ds := R.HaRuleDirectives(FrontendName(m), BackendName(m), m.routes, locs[0]);
      var rest := R.HaDirectivesOf(FrontendName(m), BackendName(m), m.routes, locs[1..]);
      PairLines(ds, rest);
      RuleLineRead(m, locs[0]);
      ReadAppend([DirectiveLine(ds[0]), DirectiveLine(ds[1])], DirectiveLines(rest));
      RulesRead(m, locs[1..]);
    }
  }

  lemma PairLines(ds: seq<R.HaDirective>, rest: seq<R.HaDirective>)
    requires |ds| == 2
    ensures DirectiveLines(ds + rest) == [DirectiveLine(ds[0]), DirectiveLine(ds[1])] + DirectiveLines(rest)
  {
    assert (ds + rest)[1..][1..] == rest;
    assert (ds + rest)[0] == ds[0] && (ds + rest)[1..][0] == ds[1];
  }

  lemma {:induction false} RouteAclsRead(m: Mapping, prs: seq<PathRoute>)
    ensures Read(PathAcls(FrontendName(m), prs)) == RouteAclStmts(m, prs)
  {
    if prs != [] {
      RegLineRead(RouteAcl(m, prs[0]), PathPattern(prs[0]));
      ReadAppend([["acl", RouteAcl(m, prs[0]), "path_reg", PathPattern(prs[0])]], PathAcls(FrontendName(m), prs[1..]));
      RouteAclsRead(m, prs[1..]);
    }
  }

  lemma GuardLineRead(m: Mapping, pr: PathRoute)
    ensures ReadLine(["http-request", "deny", "deny_status", "404", "if", RouteAcl(m, pr), "!" + FrontendName(m) + "_up"])
      == HttpRule(Deny, [[Is(RouteAcl(m, pr)), Not(UpAcl(m))]])
  {
    var words := ["if", RouteAcl(m, pr), "!" + UpAcl(m)];
    assert "!" + FrontendName(m) + "_up" == "!" + UpAcl(m);
    assert ["http-request", "deny", "deny_status", "404", "if", RouteAcl(m, pr), "!" + UpAcl(m)]
        == ["http-request", "deny", "deny_status", "404"] + words;
    DenyLineRead(words);
    assert words[1..] == [RouteAcl(m, pr)] + (["!" + UpAcl(m)] + []);
    assert RouteAcl(m, pr) == FrontendName(m) + ("_" + pr.prefix);
    NamesArePlain(m, "_" + pr.prefix);
    WordRead(RouteAcl(m, pr), ["!" + UpAcl(m)] + []);
    NegatedRead(UpAcl(m), []);
    LastTerm(Not(UpAcl(m)));
    assert [Is(RouteAcl(m, pr))] + [Not(UpAcl(m))] == [Is(RouteAcl(m, pr)), Not(UpAcl(m))];
  }

  lemma {:induction false} GuardsRead(m: Mapping, prs: seq<PathRoute>)
    ensures Read(UpgradeGuards(FrontendName(m), prs)) == GuardStmts(m, prs)
  {
    if prs != [] {
      GuardLineRead(m, prs[0]);
      var head: seq<Line> := if NeedsUpgrade(prs[0])
        then [["http-request", "deny", "deny_status", "404", "if", RouteAcl(m, prs[0]), "!" + FrontendName(m) + "_up"]] else [];
      ReadAppend(head, UpgradeGuards(FrontendName(m), prs[1..]));
      GuardsRead(m, prs[1..]);
    }
  }

  lemma UpgradeRead(m: Mapping)
    ensures Read(UpgradeLines(m)) == UpgradeStmts(m)
  {
    UpLineRead(UpAcl(m));
    GuardsRead(m, m.pathRoutes);
    ReadAppend([["acl", UpAcl(m), "req.hdr(Upgrade)", "-m", "found"]], UpgradeGuards(FrontendName(m), m.pathRoutes));
  }

  lemma {:induction false} AnyRead(m: Mapping, prs: seq<PathRoute>)
    requires prs != []
    ensures ReadTerms(AnyOf(FrontendName(m), prs)) == AnyRoute(m, prs)
  {
    var name, rest := RouteAcl(m, prs[0]), AnyOf(FrontendName(m), prs[1..]);
    assert name == FrontendName(m) + ("_" + prs[0].prefix);
    NamesArePlain(m, "_" + prs[0].prefix);
    if |prs| > 1 {
      assert AnyOf(FrontendName(m), prs) == [name] + (["||"] + rest);
      WordRead(name, ["||"] + rest);
      OrRead(rest);
      AnyRead(m, prs[1..]);
      assert [Is(name)] + [] == [Is(name)];
    } else {
      assert AnyOf(FrontendName(m), prs) == [name] + [];
      WordRead(name, []);
      LastTerm(Is(name));
    }
  }

  lemma {:induction false} NoneRead(m: Mapping, prs: seq<PathRoute>)
    ensures ReadTerms(NoneOf(FrontendName(m), prs)) == [NoRoute(m, prs)]
  {
    if prs != [] {
      var rest := NoneOf(FrontendName(m), prs[1..]);
      assert "!" + FrontendName(m) + "_" + prs[0].prefix == "!" + RouteAcl(m, prs[0]);
      assert NoneOf(FrontendName(m), prs) == ["!" + RouteAcl(m, prs[0])] + rest;
      NegatedRead(RouteAcl(m, prs[0]), rest);
      NoneRead(m, prs[1..]);
    }
  }

  function UpgradeLines(m: Mapping): seq<Line> {
    if SomeUpgrade(m.pathRoutes)
    then [["acl", UpAcl(m), "req.hdr(Upgrade)", "-m", "found"]] + UpgradeGuards(FrontendName(m), m.pathRoutes) else []
  }

  function DynUse(m: Mapping): seq<Line> {
    [["use_backend", DynName(m), "if"] + AnyOf(FrontendName(m), m.pathRoutes)]
  }

  function OnlyLines(m: Mapping): seq<Line> {
    if m.targets == [] then [["http-request", "deny", "deny_status", "404", "if"] + NoneOf(FrontendName(m), m.pathRoutes)] else []
  }

  lemma RouteLineParts(m: Mapping)
    requires m.pathRoutes != []
    ensures PathRouteLines(m) == PathAcls(FrontendName(m), m.pathRoutes) + UpgradeLines(m) + DynUse(m) + OnlyLines(m)
  {}

  lemma ReadFour(a: seq<Line>, b: seq<Line>, c: seq<Line>, d: seq<Line>)
    ensures Read(a + b + c + d) == Read(a) + Read(b) + Read(c) + Read(d)
  {
    ReadAppend(a, b);
    ReadAppend(a + b, c);
    ReadAppend(a + b + c, d);
  }

  lemma OneLine(l: Line)
    ensures Read([l]) == [ReadLine(l)]
  {}

  lemma RoutesRead(m: Mapping)
    ensures Read(PathRouteLines(m)) == RouteStmts(m)
  {
    if m.pathRoutes != [] {
      RouteLineParts(m);
      ReadFour(PathAcls(FrontendName(m), m.pathRoutes), UpgradeLines(m), DynUse(m), OnlyLines(m));
      RouteAclsRead(m, m.pathRoutes);
      UpgradeRead(m);
      DynRead(m);
      OnlyRead(m);
      OneLine(DynUse(m)[0]);
      if m.targets == [] { OneLine(OnlyLines(m)[0]); }
    }
  }

  lemma DynRead(m: Mapping)
    requires m.pathRoutes != []
    ensures ReadLine(["use_backend", DynName(m), "if"] + AnyOf(FrontendName(m), m.pathRoutes)) == Use(DynName(m), AnyRoute(m, m.pathRoutes))
  {
    var words := ["if"] + AnyOf(FrontendName(m), m.pathRoutes);
    assert ["use_backend", DynName(m), "if"] + AnyOf(FrontendName(m), m.pathRoutes) == ["use_backend", DynName(m)] + words;
    UseLineRead(DynName(m), words);
    assert words[1..] == AnyOf(FrontendName(m), m.pathRoutes);
    AnyRead(m, m.pathRoutes);
  }

  lemma OnlyRead(m: Mapping)
    ensures ReadLine(["http-request", "deny", "deny_status", "404", "if"] + NoneOf(FrontendName(m), m.pathRoutes))
      == HttpRule(Deny, [NoRoute(m, m.pathRoutes)])
  {
    var words := ["if"] + NoneOf(FrontendName(m), m.pathRoutes);
    assert ["http-request", "deny", "deny_status", "404", "if"] + NoneOf(FrontendName(m), m.pathRoutes)
        == ["http-request", "deny", "deny_status", "404"] + words;
    DenyLineRead(words);
    assert words[1..] == NoneOf(FrontendName(m), m.pathRoutes);
    NoneRead(m, m.pathRoutes);
  }

  lemma PrefixRead(m: Mapping)
    ensures Read(PathPrefixLines(m)) == PrefixStmts(m)
  {
    if m.pathPrefix != "" {
      var acl := PathAcl(m);
      NamesArePlain(m, "_path");
      OneWord(acl);
      AclLineRead(acl, m.pathPrefix);
      UseLineRead(BackendName(m), ["if", acl]);
      DenyLineRead(["if", "!" + acl]);
      assert ["use_backend", BackendName(m), "if", acl] == ["use_backend", BackendName(m)] + ["if", acl];
      assert "!" + FrontendName(m) + "_path" == "!" + acl;
      assert ["http-request", "deny", "deny_status", "404", "if", "!" + acl]
          == ["http-request", "deny", "deny_status", "404"] + ["if", "!" + acl];
    }
  }

  lemma DefaultRead(m: Mapping)
    ensures Read([["default_backend", BackendName(m)]]) == [Default(BackendName(m))]
  {}

  /** The printed frontend says exactly these statements, in this order. */
  lemma FrontendRead(m: Mapping)
    requires IsHttp(m) && m.redirectTo == ""
    ensures Read(FrontendLines(m)) == Statements(m)
  {
    var access := AccessLinesOf(m.accessRules, false);
    var white: seq<Line> := if HasAllow(m.accessRules) then [["http-request", "deny"]] else [];
    var rules := DirectiveLines(R.HaDirectives(FrontendName(m), BackendName(m), m.routes));
    var last: seq<Line> := [["default_backend", BackendName(m)]];
    AccessRead(m.accessRules);
    WhitelistRead(m.accessRules);
    RulesRead(m, R.HaLocs(m.routes));
    RoutesRead(m);
    PrefixRead(m);
    DefaultRead(m);
    Regroup(access, white, rules, PathRouteLines(m), PathPrefixLines(m), last);
    ReadAppend(access, white);
    ReadAppend(access + white, rules);
    ReadAppend(access + white + rules, PathRouteLines(m));
    ReadAppend(access + white + rules + PathRouteLines(m), PathPrefixLines(m));
    ReadAppend(access + white + rules + PathRouteLines(m) + PathPrefixLines(m), last);
  }

  lemma Regroup(a: seq<Line>, b: seq<Line>, c: seq<Line>, d: seq<Line>, e: seq<Line>, f: seq<Line>)
    ensures (a + b) + (c + d + e + f) == a + b + c + d + e + f
  {}
}
