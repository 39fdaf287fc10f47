/** What a printed diff looks like: three lines of context, deletions before insertions,
    the two labels, and the line ends of the texts. */
module DiffLayout {
  import opened Text
  import opened DiffScript
  import opened Hunks
  import opened UnifiedDiff
  import Lcs

  // ---- deletions first ----

  /** No deletion directly follows an insertion. */
  ghost predicate DeletionsFirst(ops: seq<Op>) {
    forall i :: 0 <= i < |ops| - 1 && ops[i].Ins? ==> !ops[i + 1].Del?
  }

  lemma InsertionsOnly(lines: seq<string>)
    ensures DeletionsFirst(Inss(lines)) && DeletionsFirst(Dels(lines)) && DeletionsFirst(Eqs(lines))
  {}

  lemma DeletionsFirstCons(op: Op, ops: seq<Op>)
    requires DeletionsFirst(ops) && (op.Ins? && ops != [] ==> !ops[0].Del?)
    ensures DeletionsFirst([op] + ops)
  {}

  lemma DeletionsFirstConcat(x: seq<Op>, y: seq<Op>)
    requires DeletionsFirst(x) && DeletionsFirst(y) && (x != [] && y != [] && x[|x| - 1].Ins? ==> !y[0].Del?)
    ensures DeletionsFirst(x + y)
  {
    var all := x + y;
    forall i | 0 <= i < |all| - 1 && all[i].Ins? ensures !all[i + 1].Del? {
      if i + 1 < |x| {
        assert all[i] == x[i] && all[i + 1] == x[i + 1];
      } else if i >= |x| {
        assert all[i] == y[i - |x|] && all[i + 1] == y[i - |x| + 1];
      }
    }
  }

  /** A longer text has no shorter common subsequence. */
  lemma LengthGrows(a: seq<string>, b: seq<string>)
    requires b != []
    ensures Lcs.Length(a, b[1..]) <= Lcs.Length(a, b)
  {
    Lcs.LengthIsAttained(a, b[1..]);
    var s :| Lcs.Subseq(s, a) && Lcs.Subseq(s, b[1..]) && |s| == Lcs.Length(a, b[1..]);
    Lcs.SubseqWiden(s, b);
    Lcs.LengthIsUpperBound(s, a, b);
  }

  /** After an insertion the walk keeps or inserts. */
  lemma NoDeletionNext(a: seq<string>, b: seq<string>)
    requires a != [] && b != [] && a[0] != b[0] && Lcs.Length(a[1..], b) < Lcs.Length(a, b[1..])
    ensures Greedy(a, b[1..]) != [] && !Greedy(a, b[1..])[0].Del?
  {
    LengthGrows(a[1..], b);
    assert b[1..] != [];
  }

  lemma {:induction false} GreedyDeletionsFirst(a: seq<string>, b: seq<string>)
    ensures DeletionsFirst(Greedy(a, b))
    decreases |a| + |b|
  {
    if a == [] || b == [] {
      InsertionsOnly(if a == [] then b else a);
    } else if a[0] == b[0] {
      GreedyDeletionsFirst(a[1..], b[1..]);
      DeletionsFirstCons(Eq(a[0]), Greedy(a[1..], b[1..]));
    } else if Lcs.Length(a[1..], b) >= Lcs.Length(a, b[1..]) {
      GreedyDeletionsFirst(a[1..], b);
      DeletionsFirstCons(Del(a[0]), Greedy(a[1..], b));
    } else {
      GreedyDeletionsFirst(a, b[1..]);
      NoDeletionNext(a, b);
      DeletionsFirstCons(Ins(b[0]), Greedy(a, b[1..]));
    }
  }

  lemma ScriptDeletionsFirst(a: seq<string>, b: seq<string>)
    ensures DeletionsFirst(Script(a, b))
  {
    var p := CommonPrefix(a, b);
    var q := CommonSuffix(a[p..], b[p..]);
    ScriptSlices(a, b, p, q);
    var head, middle, tail := Eqs(a[..p]), Greedy(a[p..|a| - q], b[p..|b| - q]), Eqs(a[|a| - q..]);
    GreedyDeletionsFirst(a[p..|a| - q], b[p..|b| - q]);
    InsertionsOnly(a[..p]);
    InsertionsOnly(a[|a| - q..]);
    DeletionsFirstConcat(head, middle);
    DeletionsFirstConcat(head + middle, tail);
  }

  // ---- three lines of context ----

  /** One of six ops in a row is a change. */
  ghost predicate SixChange(ops: seq<Op>, i: int) {
    exists j :: 0 <= i <= j < i + 6 && j < |ops| && !ops[j].Eq?
  }

  /** Any six ops in a row between the first and the last change hold one. */
  ghost predicate Tight(ops: seq<Op>, g: (nat, nat)) {
    forall i :: g.0 <= i && i + 6 <= g.1 ==> SixChange(ops, i)
  }

  ghost predicate AllTight(ops: seq<Op>, gs: seq<(nat, nat)>) {
    && (forall k :: 0 <= k < |gs| ==> gs[k].0 <= gs[k].1 < |ops| && Tight(ops, gs[k]) && !ops[gs[k].0].Eq? && !ops[gs[k].1].Eq?)
    && (forall k :: 0 <= k < |gs| - 1 ==> gs[k + 1].0 > gs[k].1 + 6 && AllEq(ops, gs[k].1 + 1, gs[k + 1].0))
  }

  lemma TightGrows(ops: seq<Op>, start: nat, prev: nat, i: nat)
    requires start <= prev < i < |ops| && i <= prev + 6 && Tight(ops, (start, prev)) && !ops[prev].Eq?
    ensures Tight(ops, (start, i))
  {
    forall j | start <= j && j + 6 <= i ensures SixChange(ops, j) {
      if j + 6 > prev { assert j <= prev < j + 6 && !ops[prev].Eq?; }
    }
  }

  lemma AllTightCons(ops: seq<Op>, g: (nat, nat), rest: seq<(nat, nat)>)
    requires g.0 <= g.1 < |ops| && Tight(ops, g) && !ops[g.0].Eq? && !ops[g.1].Eq? && AllTight(ops, rest)
    requires rest != [] && rest[0].0 > g.1 + 6 && AllEq(ops, g.1 + 1, rest[0].0)
    ensures AllTight(ops, [g] + rest)
  {
    var gs := [g] + rest;
    forall k | 0 <= k < |gs| - 1 ensures gs[k + 1].0 > gs[k].1 + 6 && AllEq(ops, gs[k].1 + 1, gs[k + 1].0) {
      if k > 0 { assert gs[k] == rest[k - 1] && gs[k + 1] == rest[k]; }
    }
  }

  lemma {:induction false} GroupsAtTight(ops: seq<Op>, i: nat, start: nat, prev: nat)
    requires start <= prev < i <= |ops| && AllEq(ops, prev + 1, i)
    requires Tight(ops, (start, prev)) && !ops[start].Eq? && !ops[prev].Eq?
    ensures AllTight(ops, GroupsAt(ops, i, start, prev))
    ensures GroupsAt(ops, i, start, prev) != [] && GroupsAt(ops, i, start, prev)[0].0 == start
    decreases |ops| - i
  {
    if i == |ops| {
    } else if ops[i].Eq? {
      GroupsAtTight(ops, i + 1, start, prev);
    } else if i <= prev + 6 {
      TightGrows(ops, start, prev, i);
      GroupsAtTight(ops, i + 1, start, i);
    } else {
      GroupsAtTight(ops, i + 1, i, i);
      AllTightCons(ops, (start, prev), GroupsAt(ops, i + 1, i, i));
    }
  }

  lemma GroupsTight(ops: seq<Op>)
    ensures AllTight(ops, Groups(ops))
  {
    var k := FirstChange(ops, 0);
    if k < |ops| { GroupsAtTight(ops, k + 1, k, k); }
  }

  predicate IsContext(line: string) {
    line != [] && line[0] == ' '
  }

  ghost predicate SixLines(lines: seq<string>, i: int) {
    exists j :: 0 <= i <= j < i + 6 && j < |lines| && !IsContext(lines[j])
  }

  /** The hunk's lines: `lead` unchanged ones, changes from there to the last `trail`
      unchanged ones, and no six unchanged ones in a row between changes. */
  ghost predicate Laid(lines: seq<string>, lead: nat, trail: nat) {
    && lead + trail < |lines|
    && (forall i :: 0 <= i < lead ==> IsContext(lines[i]))
    && !IsContext(lines[lead]) && !IsContext(lines[|lines| - trail - 1])
    && (forall i :: |lines| - trail <= i < |lines| ==> IsContext(lines[i]))
    && (forall i :: lead <= i && i + 6 < |lines| - trail ==> SixLines(lines, i))
  }

  lemma {:induction false} OpLinesAt(ops: seq<Op>)
    ensures forall i :: 0 <= i < |ops| ==> OpLines(ops)[i] == OpLine(ops[i])
  {
    if ops != [] { OpLinesAt(ops[1..]); }
  }

  lemma ContextIff(op: Op)
    ensures IsContext(OpLine(op)) <==> op.Eq?
  {}

  lemma {:induction false} HunksOfAt(ops: seq<Op>, gs: seq<(nat, nat)>, k: nat)
    requires forall i :: 0 <= i < |gs| ==> gs[i].0 <= gs[i].1 < |ops|
    requires k < |gs|
    ensures HunksOf(ops, gs)[k] == HunkOf(ops, gs[k])
  {
    if k > 0 { HunksOfAt(ops, gs[1..], k - 1); }
  }

  function AtMostThree(n: int): nat {
    if n < 0 then 0 else if n < 3 then n else 3
  }

  /** Every printed hunk begins and ends with three unchanged lines, or with all there are,
      and no two changes of one hunk are more than five unchanged lines apart. */
  lemma HunkHasThree(ops: seq<Op>, k: nat)
    requires k < |Groups(ops)|
    ensures Groups(ops)[k].0 <= Groups(ops)[k].1 < |ops|
    ensures Laid(OpLines(ScriptHunks(ops)[k].body), AtMostThree(Groups(ops)[k].0), AtMostThree(|ops| - 1 - Groups(ops)[k].1))
  {
    GroupsTight(ops);
    HunkIs(ops, k);
    SidesEq(ops, k);
    WindowLaid(ops, Groups(ops)[k]);
  }

  /** Around a group everything in the window is unchanged. */
  lemma SidesEq(ops: seq<Op>, k: nat)
    requires k < |Groups(ops)|
    ensures Groups(ops)[k].0 <= Groups(ops)[k].1 < |ops|
    ensures AllEq(ops, Groups(ops)[k].0 - AtMostThree(Groups(ops)[k].0), Groups(ops)[k].0)
    ensures AllEq(ops, Groups(ops)[k].1 + 1, Groups(ops)[k].1 + 1 + AtMostThree(|ops| - 1 - Groups(ops)[k].1))
  {
    GroupsTight(ops);
    GroupsCover(ops);
    CoverSides(ops, 0, Groups(ops), k);
  }

  lemma {:induction false} CoverSides(ops: seq<Op>, p: nat, gs: seq<(nat, nat)>, k: nat)
    requires Covers(ops, p, gs) && k < |gs|
    ensures gs[k].0 <= gs[k].1 < |ops| && AllEq(ops, gs[k].0 - AtMostThree(gs[k].0), gs[k].0)
    ensures AllEq(ops, gs[k].1 + 1, gs[k].1 + 1 + AtMostThree(|ops| - 1 - gs[k].1))
    decreases gs
  {
    if k > 0 { CoverSides(ops, To(ops, gs[0]), gs[1..], k - 1); }
  }

  /** Op by op, the body of a hunk is its window of the script. */
  lemma BodyAt(ops: seq<Op>, g: (nat, nat))
    requires g.0 <= g.1 < |ops|
    ensures var body := HunkOf(ops, g).body;
      && |body| == AtMostThree(g.0) + (g.1 - g.0 + 1) + AtMostThree(|ops| - 1 - g.1)
      && forall i :: 0 <= i < |body| ==> body[i] == ops[g.0 - AtMostThree(g.0) + i]
  {}

  lemma LinesAt(body: seq<Op>)
    ensures forall i :: 0 <= i < |body| ==> (IsContext(OpLines(body)[i]) <==> body[i].Eq?)
  {
    OpLinesAt(body);
    forall i | 0 <= i < |body| ensures IsContext(OpLines(body)[i]) <==> body[i].Eq? { ContextIff(body[i]); }
  }

  lemma WindowLaid(ops: seq<Op>, g: (nat, nat))
    requires g.0 <= g.1 < |ops| && Tight(ops, g) && !ops[g.0].Eq? && !ops[g.1].Eq?
    requires AllEq(ops, g.0 - AtMostThree(g.0), g.0) && AllEq(ops, g.1 + 1, g.1 + 1 + AtMostThree(|ops| - 1 - g.1))
    ensures Laid(OpLines(HunkOf(ops, g).body), AtMostThree(g.0), AtMostThree(|ops| - 1 - g.1))
  {
    BodyAt(ops, g);
    LinesAt(HunkOf(ops, g).body);
    BodyLaid(ops, g, HunkOf(ops, g).body, OpLines(HunkOf(ops, g).body));
  }

  lemma BodyLaid(ops: seq<Op>, g: (nat, nat), body: seq<Op>, lines: seq<string>)
    requires g.0 <= g.1 < |ops| && Tight(ops, g) && !ops[g.0].Eq? && !ops[g.1].Eq?
    requires AllEq(ops, g.0 - AtMostThree(g.0), g.0) && AllEq(ops, g.1 + 1, g.1 + 1 + AtMostThree(|ops| - 1 - g.1))
    requires |body| == AtMostThree(g.0) + (g.1 - g.0 + 1) + AtMostThree(|ops| - 1 - g.1) == |lines|
    requires forall i :: 0 <= i < |body| ==> body[i] == ops[g.0 - AtMostThree(g.0) + i]
    requires forall i :: 0 <= i < |body| ==> (IsContext(lines[i]) <==> body[i].Eq?)
    ensures Laid(lines, AtMostThree(g.0), AtMostThree(|ops| - 1 - g.1))
  {
    var s := g.0 - AtMostThree(g.0);
    forall i | AtMostThree(g.0) <= i && i + 6 < |lines| - AtMostThree(|ops| - 1 - g.1) ensures SixLines(lines, i) {
      assert SixChange(ops, s + i);
      var j :| s + i <= j < s + i + 6 && j < |ops| && !ops[j].Eq?;
      assert body[j - s] == ops[j] && !IsContext(lines[j - s]);
    }
  }

  /** In a printed hunk the deleted lines of a change come before the inserted ones. */
  lemma HunkDeletionsFirst(a: seq<string>, b: seq<string>, k: nat, i: nat)
    requires k < |Groups(Script(a, b))| && i + 1 < |ScriptHunks(Script(a, b))[k].body|
    ensures var lines := OpLines(ScriptHunks(Script(a, b))[k].body);
      lines[i] != [] && lines[i + 1] != [] && !(lines[i][0] == '+' && lines[i + 1][0] == '-')
  {
    var ops := Script(a, b);
    ScriptDeletionsFirst(a, b);
    GroupsTight(ops);
    HunkIs(ops, k);
    BodyAt(ops, Groups(ops)[k]);
    MarksOf(ops, ScriptHunks(ops)[k].body, Groups(ops)[k].0 - AtMostThree(Groups(ops)[k].0), i);
  }

  lemma HunkIs(ops: seq<Op>, k: nat)
    requires k < |Groups(ops)|
    ensures Groups(ops)[k].0 <= Groups(ops)[k].1 < |ops| && ScriptHunks(ops)[k] == HunkOf(ops, Groups(ops)[k])
  {
    GroupsTight(ops);
    GroupsCover(ops);
    CoversInRange(ops, 0, Groups(ops));
    HunksOfAt(ops, Groups(ops), k);
  }

  lemma MarksOf(ops: seq<Op>, body: seq<Op>, s: nat, i: nat)
    requires DeletionsFirst(ops) && s + |body| <= |ops| && i + 1 < |body|
    requires forall k :: 0 <= k < |body| ==> body[k] == ops[s + k]
    ensures var lines := OpLines(body);
      lines[i] != [] && lines[i + 1] != [] && !(lines[i][0] == '+' && lines[i + 1][0] == '-')
  {
    OpLinesAt(body);
    assert body[i] == ops[s + i] && body[i + 1] == ops[s + i + 1];
  }

  // ---- headers and labels ----

  /** The first two lines name the old and the new file. */
  lemma LabelsFirst(a: seq<string>, b: seq<string>, oldLabel: string, newLabel: string)
    requires Groups(Script(a, b)) != []
    ensures var lines := DiffLines(ScriptHunks(Script(a, b)), oldLabel, newLabel);
      |lines| > 2 && lines[0] == "--- " + oldLabel && lines[1] == "+++ " + newLabel
  {}

  lemma FieldStep(literal: string, literals: seq<string>, n: nat, ns: seq<nat>, end: string)
    requires |literals| == |ns|
    ensures Fields([literal] + literals, [n] + ns, end) == literal + (Itoa(n) + Fields(literals, ns, end))
  {
    assert ([literal] + literals)[1..] == literals && ([n] + ns)[1..] == ns;
  }

  lemma HeaderText(h: Hunk)
    ensures Header(h) == "@@ -" + (Itoa(h.aStart) + ("," + (Itoa(h.aCount) + (" +" + (Itoa(h.bStart) + ("," + (Itoa(h.bCount) + " @@")))))))
  {
    FieldStep(",", [], h.bCount, [], " @@");
    FieldStep(" +", [","] + [], h.bStart, [h.bCount] + [], " @@");
    FieldStep(",", [" +"] + ([","] + []), h.aCount, [h.bStart] + ([h.bCount] + []), " @@");
    FieldStep("@@ -", [","] + ([" +"] + ([","] + [])), h.aStart, [h.aCount] + ([h.bStart] + ([h.bCount] + [])), " @@");
    assert HEADER == ["@@ -"] + ([","] + ([" +"] + ([","] + [])));
    assert [h.aStart, h.aCount, h.bStart, h.bCount] == [h.aStart] + ([h.aCount] + ([h.bStart] + ([h.bCount] + [])));
  }

  // ---- line ends ----

  /** Every CR LF is one line end. */
  lemma {:induction false} UnixAt(x: string, y: string)
    ensures Unix(x + "\r\n" + y) == Unix(x) + "\n" + Unix(y)
    decreases |x|
  {
    var s := x + "\r\n" + y;
    if x == "" {
      assert s[2..] == y;
    } else if |x| >= 2 && x[0] == '\r' && x[1] == '\n' {
      UnixAt(x[2..], y);
      assert s[2..] == x[2..] + "\r\n" + y;
    } else {
      UnixAt(x[1..], y);
      assert s[1..] == x[1..] + "\r\n" + y && s[0] == x[0];
    }
  }

  /** And nothing else changes. */
  lemma {:induction false} UnixFixed(s: string)
    requires forall i :: 0 <= i < |s| - 1 && s[i] == '\r' ==> s[i + 1] != '\n'
    ensures Unix(s) == s
  {
    if s != [] {
      UnixFixed(s[1..]);
      HeadTail(s);
    }
  }
}
