/** Grouping an edit script into unified-diff hunks, and why patching with those hunks
    works: the format is "Diff -u or -U Output Format" of the POSIX.1-2017 diff utility. */
module Hunks {
  import opened Text
  import opened DiffScript

  /** Lines of context on either side of a change. */
  const CTX: int := 3

  datatype Hunk = Hunk(aStart: nat, aCount: nat, bStart: nat, bCount: nat, body: seq<Op>)

  // ---- grouping ----

  predicate AllEq(ops: seq<Op>, lo: nat, hi: nat)
    requires hi <= |ops|
  {
    forall i :: lo <= i < hi ==> ops[i].Eq?
  }

  /** First op of the hunk around a group of changes. */
  function From(g: (nat, nat)): nat {
    if g.0 < CTX then 0 else g.0 - CTX
  }

  /** One past the last op of the hunk around a group of changes. */
  function To(ops: seq<Op>, g: (nat, nat)): nat {
    if g.1 + CTX + 1 > |ops| then |ops| else g.1 + CTX + 1
  }

  /** The groups still to come when the scan is at `i` and (start, prev) is open. */
  function GroupsAt(ops: seq<Op>, i: nat, start: nat, prev: nat): seq<(nat, nat)>
    requires i <= |ops|
    decreases |ops| - i
  {
    if i == |ops| then [(start, prev)]
    else if ops[i].Eq? then GroupsAt(ops, i + 1, start, prev)
    else if i - prev <= 2 * CTX then GroupsAt(ops, i + 1, start, i)
    else [(start, prev)] + GroupsAt(ops, i + 1, i, i)
  }

  function FirstChange(ops: seq<Op>, i: nat): (k: nat)
    requires i <= |ops|
    ensures i <= k <= |ops| && AllEq(ops, i, k)
    ensures k < |ops| ==> !ops[k].Eq?
    decreases |ops| - i
  {
    if i < |ops| && ops[i].Eq? then FirstChange(ops, i + 1) else i
  }

  function Groups(ops: seq<Op>): seq<(nat, nat)> {
    var k := FirstChange(ops, 0);
    if k == |ops| then [] else GroupsAt(ops, k + 1, k, k)
  }

  /** From position `p` on: the hunks come in order without overlap, every change is in
      one of them, and each change is surrounded by its context. */
  ghost predicate Covers(ops: seq<Op>, p: nat, gs: seq<(nat, nat)>)
    decreases gs
  {
    && p <= |ops|
    && if gs == [] then AllEq(ops, p, |ops|) else
       var g := gs[0];
       && g.0 <= g.1 < |ops|
       && p <= From(g) && AllEq(ops, p, g.0)
       && !ops[g.0].Eq? && !ops[g.1].Eq?
       && AllEq(ops, g.1 + 1, To(ops, g))
       && Covers(ops, To(ops, g), gs[1..])
  }

  lemma {:induction false} GroupsAtCovers(ops: seq<Op>, p: nat, i: nat, start: nat, prev: nat)
    requires start <= prev < i <= |ops|
    requires p <= From((start, prev)) && AllEq(ops, p, start)
    requires !ops[start].Eq? && !ops[prev].Eq? && AllEq(ops, prev + 1, i)
    ensures Covers(ops, p, GroupsAt(ops, i, start, prev))
    decreases |ops| - i
  {
    var g: (nat, nat) := (start, prev);
    if i == |ops| {
      var gs: seq<(nat, nat)> := [g];
      assert gs[1..] == [];
      assert Covers(ops, To(ops, g), []);
    } else if ops[i].Eq? {
      GroupsAtCovers(ops, p, i + 1, start, prev);
    } else if i - prev <= 2 * CTX {
      GroupsAtCovers(ops, p, i + 1, start, i);
    } else {
      var rest := GroupsAt(ops, i + 1, i, i);
      assert To(ops, g) == prev + CTX + 1 <= From((i, i));
      GroupsAtCovers(ops, To(ops, g), i + 1, i, i);
      assert ([g] + rest)[1..] == rest;
    }
  }

  /** The program's grouping covers every script. */
  lemma GroupsCover(ops: seq<Op>)
    ensures Covers(ops, 0, Groups(ops))
  {
    var k := FirstChange(ops, 0);
    if k < |ops| { GroupsAtCovers(ops, 0, k + 1, k, k); }
  }

  predicate InHunk(ops: seq<Op>, gs: seq<(nat, nat)>, k: int, i: nat) {
    0 <= k < |gs| && From(gs[k]) <= i < To(ops, gs[k])
  }

  lemma {:induction false} SomeHunkHas(ops: seq<Op>, p: nat, gs: seq<(nat, nat)>, i: nat) returns (k: nat)
    requires Covers(ops, p, gs) && p <= i < |ops| && !ops[i].Eq?
    ensures InHunk(ops, gs, k, i)
    decreases gs
  {
    var g := gs[0];
    if i < To(ops, g) {
      k := 0;
    } else {
      k := SomeHunkHas(ops, To(ops, g), gs[1..], i);
      k := k + 1;
    }
  }

  lemma {:induction false} HunksInOrder(ops: seq<Op>, p: nat, gs: seq<(nat, nat)>, j: nat, k: nat)
    requires Covers(ops, p, gs) && j <= k < |gs|
    ensures p <= From(gs[k])
    ensures j < k ==> To(ops, gs[j]) <= From(gs[k])
    decreases gs
  {
    if k > 0 {
      HunksInOrder(ops, To(ops, gs[0]), gs[1..], if j > 0 then j - 1 else 0, k - 1);
    }
  }

  /** Every changed op is printed in exactly one hunk. */
  lemma ChangeInExactlyOneHunk(ops: seq<Op>, i: nat)
    requires i < |ops| && !ops[i].Eq?
    ensures exists k :: InHunk(ops, Groups(ops), k, i)
    ensures forall j, k :: InHunk(ops, Groups(ops), j, i) && InHunk(ops, Groups(ops), k, i) ==> j == k
  {
    var gs := Groups(ops);
    GroupsCover(ops);
    var k0 := SomeHunkHas(ops, 0, gs, i);
    forall j, k | InHunk(ops, gs, j, i) && InHunk(ops, gs, k, i) ensures j == k {
      if j < k { HunksInOrder(ops, 0, gs, j, k); }
      if k < j { HunksInOrder(ops, 0, gs, k, j); }
    }
  }

  // ---- hunks ----

  function HunkOf(ops: seq<Op>, g: (nat, nat)): Hunk
    requires g.0 <= g.1 < |ops|
  {
    var s, e := From(g), To(ops, g);
    var before, body := ops[..s], ops[s..e];
    Hunk(1 + |OldSide(before)|, |OldSide(body)|, 1 + |NewSide(before)|, |NewSide(body)|, body)
  }

  function HunksOf(ops: seq<Op>, gs: seq<(nat, nat)>): (hs: seq<Hunk>)
    requires forall i :: 0 <= i < |gs| ==> gs[i].0 <= gs[i].1 < |ops|
    ensures |hs| == |gs|
  {
    if gs == [] then [] else [HunkOf(ops, gs[0])] + HunksOf(ops, gs[1..])
  }

  lemma {:induction false} CoversInRange(ops: seq<Op>, p: nat, gs: seq<(nat, nat)>)
    requires Covers(ops, p, gs)
    ensures forall i :: 0 <= i < |gs| ==> gs[i].0 <= gs[i].1 < |ops|
    decreases gs
  {
    if gs != [] {
      CoversInRange(ops, To(ops, gs[0]), gs[1..]);
      forall i | 0 <= i < |gs| ensures gs[i].0 <= gs[i].1 < |ops| {
        if i > 0 { assert gs[i] == gs[1..][i - 1]; }
      }
    }
  }

  /** All the hunks of a script. */
  function ScriptHunks(ops: seq<Op>): (hs: seq<Hunk>)
    ensures |hs| == |Groups(ops)|
  {
    GroupsCover(ops);
    CoversInRange(ops, 0, Groups(ops));
    HunksOf(ops, Groups(ops))
  }

  // ---- patching ----

  /** An independent patch program. `used` old lines are consumed and `made` new lines
      are written. It refuses a hunk that is out of order, whose counts or new start are
      wrong, or whose context and deleted lines are not what the old text has there. */
  function Patch(lines: seq<string>, used: nat, made: nat, hunks: seq<Hunk>): Option<seq<string>>
    requires used <= |lines|
    decreases |hunks|
  {
    if hunks == [] then Some(lines[used..])
    else
      var h := hunks[0];
      var copied := h.aStart - 1 - used;
      var end := h.aStart - 1 + h.aCount;
      if copied < 0 || end > |lines| || h.bStart - 1 != made + copied then None
      else if OldSide(h.body) != lines[h.aStart - 1..end] || |NewSide(h.body)| != h.bCount then None
      else match Patch(lines, end, made + copied + h.bCount, hunks[1..])
        case None => None
        case Some(rest) => Some(lines[used..h.aStart - 1] + NewSide(h.body) + rest)
  }

  lemma {:induction false} EqRunTexts(ops: seq<Op>)
    requires AllEq(ops, 0, |ops|)
    ensures OldSide(ops) == NewSide(ops)
  {
    if ops != [] { EqRunTexts(ops[1..]); }
  }

  /** Where the slice [lo, hi) of a script sits on one of its sides. */
  lemma SliceTexts(ops: seq<Op>, lo: nat, hi: nat, d: bool, i: bool)
    requires lo <= hi <= |ops|
    ensures var x := |Texts(ops[..lo], d, i)|;
      var y := |Texts(ops[..hi], d, i)|;
      x <= y <= |Texts(ops, d, i)| && y == x + |Texts(ops[lo..hi], d, i)|
      && Texts(ops, d, i)[x..y] == Texts(ops[lo..hi], d, i)
      && Texts(ops, d, i)[y..] == Texts(ops[hi..], d, i)
  {
    assert ops == ops[..hi] + ops[hi..] && ops[..hi] == ops[..lo] + ops[lo..hi];
    TextsAppend(ops[..hi], ops[hi..], d, i);
    TextsAppend(ops[..lo], ops[lo..hi], d, i);
  }

  lemma PatchStep(lines: seq<string>, used: nat, made: nat, h: Hunk, later: seq<Hunk>, rest: seq<string>)
    requires used <= h.aStart - 1 && h.aStart - 1 + h.aCount <= |lines|
    requires h.bStart - 1 == made + h.aStart - 1 - used
    requires OldSide(h.body) == lines[h.aStart - 1..h.aStart - 1 + h.aCount] && |NewSide(h.body)| == h.bCount
    requires Patch(lines, h.aStart - 1 + h.aCount, h.bStart - 1 + h.bCount, later) == Some(rest)
    ensures Patch(lines, used, made, [h] + later) == Some(lines[used..h.aStart - 1] + NewSide(h.body) + rest)
  {
    var hs := [h] + later;
    assert hs[1..] == later;
  }

  /** A hunk says where it is, on both sides, relative to the boundary before it. */
  lemma HunkFits(ops: seq<Op>, p: nat, g: (nat, nat))
    requires g.0 <= g.1 < |ops| && p <= From(g) && AllEq(ops, p, g.0)
    ensures var h, s, e := HunkOf(ops, g), From(g), To(ops, g);
      var used, made := |OldSide(ops[..p])|, |NewSide(ops[..p])|;
      && used <= h.aStart - 1 && h.bStart - 1 == made + h.aStart - 1 - used
      && h.aStart - 1 <= |OldSide(ops)| && OldSide(ops)[used..h.aStart - 1] == NewSide(ops[p..s])
      && h.aStart - 1 + h.aCount == |OldSide(ops[..e])| <= |OldSide(ops)|
      && h.bStart - 1 + h.bCount == |NewSide(ops[..e])|
      && OldSide(h.body) == OldSide(ops)[h.aStart - 1..h.aStart - 1 + h.aCount]
  {
    var s, e := From(g), To(ops, g);
    SliceTexts(ops, p, s, true, false);
    SliceTexts(ops, p, s, false, true);
    SliceTexts(ops, s, e, true, false);
    SliceTexts(ops, s, e, false, true);
    EqRunTexts(ops[p..s]);
  }

  /** One hunk carries the patch from boundary `p` to the end of the hunk. */
  lemma PatchThroughHunk(ops: seq<Op>, p: nat, g: (nat, nat), later: seq<Hunk>)
    requires g.0 <= g.1 < |ops| && p <= From(g) && AllEq(ops, p, g.0)
    requires var e := To(ops, g);
      |OldSide(ops[..e])| <= |OldSide(ops)| &&
      Patch(OldSide(ops), |OldSide(ops[..e])|, |NewSide(ops[..e])|, later) == Some(NewSide(ops[e..]))
    ensures |OldSide(ops[..p])| <= |OldSide(ops)|
    ensures Patch(OldSide(ops), |OldSide(ops[..p])|, |NewSide(ops[..p])|, [HunkOf(ops, g)] + later) == Some(NewSide(ops[p..]))
  {
    HunkFits(ops, p, g);
    NewSideSplits(ops, p, From(g), To(ops, g));
    PatchStep(OldSide(ops), |OldSide(ops[..p])|, |NewSide(ops[..p])|, HunkOf(ops, g), later, NewSide(ops[To(ops, g)..]));
  }

  /** Patching from a hunk boundary on writes exactly the rest of the new side. */
  lemma {:induction false} PatchFrom(ops: seq<Op>, p: nat, gs: seq<(nat, nat)>)
    requires Covers(ops, p, gs)
    requires forall i :: 0 <= i < |gs| ==> gs[i].0 <= gs[i].1 < |ops|
    ensures |OldSide(ops[..p])| <= |OldSide(ops)|
    ensures Patch(OldSide(ops), |OldSide(ops[..p])|, |NewSide(ops[..p])|, HunksOf(ops, gs)) == Some(NewSide(ops[p..]))
    decreases gs
  {
    if gs == [] {
      SliceTexts(ops, 0, p, true, false);
      EqRunTexts(ops[p..]);
    } else {
      var g := gs[0];
      PatchFrom(ops, To(ops, g), gs[1..]);
      PatchThroughHunk(ops, p, g, HunksOf(ops, gs[1..]));
    }
  }

  lemma NewSideSplits(ops: seq<Op>, p: nat, s: nat, e: nat)
    requires p <= s <= e <= |ops|
    ensures NewSide(ops[p..]) == NewSide(ops[p..s]) + NewSide(ops[s..e]) + NewSide(ops[e..])
  {
    assert ops[p..] == ops[p..s] + ops[s..e] + ops[e..];
    TextsAppend(ops[p..s] + ops[s..e], ops[e..], false, true);
    TextsAppend(ops[p..s], ops[s..e], false, true);
  }

  /** The hunks of a script patch its old side into its new side. */
  lemma HunksPatch(ops: seq<Op>)
    ensures Patch(OldSide(ops), 0, 0, ScriptHunks(ops)) == Some(NewSide(ops))
  {
    GroupsCover(ops);
    CoversInRange(ops, 0, Groups(ops));
    PatchFrom(ops, 0, Groups(ops));
    assert ops[0..] == ops && ops[..0] == [];
  }
}
