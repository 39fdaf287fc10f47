/** The line diff of internal/ops/diff.go: an edit script computed with a table of
    common-subsequence lengths after trimming what both sides share at either end. */
module DiffScript {
  import Lcs

  datatype Op = Eq(text: string) | Del(text: string) | Ins(text: string)

  // ---- what a script means ----

  /** The texts of the kept lines, with the deleted and/or the inserted ones. */
  function Texts(ops: seq<Op>, deleted: bool, inserted: bool): seq<string> {
    if ops == [] then []
    else if ops[0].Eq? || (ops[0].Del? && deleted) || (ops[0].Ins? && inserted)
    then [ops[0].text] + Texts(ops[1..], deleted, inserted)
    else Texts(ops[1..], deleted, inserted)
  }

  /** The lines a script consumes: kept and deleted ones. */
  function OldSide(ops: seq<Op>): seq<string> {
    Texts(ops, true, false)
  }

  /** The lines a script produces: kept and inserted ones. */
  function NewSide(ops: seq<Op>): seq<string> {
    Texts(ops, false, true)
  }

  /** The lines on both sides. */
  function Kept(ops: seq<Op>): seq<string> {
    Texts(ops, false, false)
  }

  /** How many lines a script deletes or inserts. */
  function Changes(ops: seq<Op>): nat {
    if ops == [] then 0 else (if ops[0].Eq? then 0 else 1) + Changes(ops[1..])
  }

  lemma {:induction false} TextsAppend(x: seq<Op>, y: seq<Op>, d: bool, i: bool)
    ensures Texts(x + y, d, i) == Texts(x, d, i) + Texts(y, d, i)
  {
    if x == [] {
      assert x + y == y;
    } else {
      TextsAppend(x[1..], y, d, i);
      assert (x + y)[1..] == x[1..] + y;
      assert (x + y)[0] == x[0];
    }
  }

  /** Every script obeys the same balance, so keeping most is changing least. */
  lemma {:induction false} Balance(ops: seq<Op>)
    ensures |OldSide(ops)| + |NewSide(ops)| == 2 * |Kept(ops)| + Changes(ops)
  {
    if ops != [] { Balance(ops[1..]); }
  }

  /** What a script keeps is common to both sides, in order. */
  lemma {:induction false} KeptIsCommon(ops: seq<Op>, d: bool, i: bool)
    ensures Lcs.Subseq(Kept(ops), Texts(ops, d, i))
  {
    if ops != [] {
      KeptIsCommon(ops[1..], d, i);
      var k, t := Kept(ops), Texts(ops, d, i);
      if ops[0].Eq? {
        assert k[1..] == Kept(ops[1..]) && t[1..] == Texts(ops[1..], d, i);
      } else {
        assert k == Kept(ops[1..]);
        if t != Texts(ops[1..], d, i) {
          assert t[1..] == Texts(ops[1..], d, i);
          Lcs.SubseqWiden(k, t);
        }
      }
    }
  }

  // ---- the script the program computes ----

  function Eqs(lines: seq<string>): (r: seq<Op>)
    ensures |r| == |lines|
  {
    seq(|lines|, i requires 0 <= i < |lines| => Eq(lines[i]))
  }

  function Dels(lines: seq<string>): (r: seq<Op>)
    ensures |r| == |lines|
  {
    seq(|lines|, i requires 0 <= i < |lines| => Del(lines[i]))
  }

  function Inss(lines: seq<string>): (r: seq<Op>)
    ensures |r| == |lines|
  {
    seq(|lines|, i requires 0 <= i < |lines| => Ins(lines[i]))
  }

  lemma {:induction false} EqsTexts(lines: seq<string>, d: bool, i: bool)
    ensures Texts(Eqs(lines), d, i) == lines
  {
    if lines != [] {
      EqsTexts(lines[1..], d, i);
      assert Eqs(lines)[1..] == Eqs(lines[1..]);
    }
  }

  lemma {:induction false} DelsTexts(lines: seq<string>, d: bool, i: bool)
    ensures Texts(Dels(lines), d, i) == if d then lines else []
  {
    if lines != [] {
      DelsTexts(lines[1..], d, i);
      assert Dels(lines)[1..] == Dels(lines[1..]);
    }
  }

  lemma {:induction false} InssTexts(lines: seq<string>, d: bool, i: bool)
    ensures Texts(Inss(lines), d, i) == if i then lines else []
  {
    if lines != [] {
      InssTexts(lines[1..], d, i);
      assert Inss(lines)[1..] == Inss(lines[1..]);
    }
  }

  /** How many lines both lists share at the front, `k` of them already counted. */
  function CommonPrefix(a: seq<string>, b: seq<string>, k: nat := 0): (n: nat)
    requires k <= |a| && k <= |b|
    ensures k <= n <= |a| && n <= |b|
    decreases |a| - k
  {
    if k < |a| && k < |b| && a[k] == b[k] then CommonPrefix(a, b, k + 1) else k
  }

  /** How many lines both lists share at the back, `k` of them already counted. */
  function CommonSuffix(a: seq<string>, b: seq<string>, k: nat := 0): (n: nat)
    requires k <= |a| && k <= |b|
    ensures k <= n <= |a| && n <= |b|
    decreases |a| - k
  {
    if k < |a| && k < |b| && a[|a| - 1 - k] == b[|b| - 1 - k] then CommonSuffix(a, b, k + 1) else k
  }

  lemma {:induction false} PrefixAgrees(a: seq<string>, b: seq<string>, k: nat)
    requires k <= |a| && k <= |b| && a[..k] == b[..k]
    ensures var n := CommonPrefix(a, b, k);
      a[..n] == b[..n] && (n < |a| && n < |b| ==> a[n] != b[n])
    decreases |a| - k
  {
    if k < |a| && k < |b| && a[k] == b[k] {
      assert a[..k + 1] == a[..k] + [a[k]] && b[..k + 1] == b[..k] + [b[k]];
      PrefixAgrees(a, b, k + 1);
    }
  }

  /** The last `k` lines of both lists are the same. */
  predicate EndsAgree(a: seq<string>, b: seq<string>, k: nat) {
    k <= |a| && k <= |b| && a[|a| - k..] == b[|b| - k..]
  }

  lemma EndsAgreeStep(a: seq<string>, b: seq<string>, k: nat)
    requires EndsAgree(a, b, k) && k < |a| && k < |b|
    requires a[|a| - 1 - k] == b[|b| - 1 - k]
    ensures EndsAgree(a, b, k + 1)
  {
    assert a[|a| - (k + 1)..] == [a[|a| - 1 - k]] + a[|a| - k..];
    assert b[|b| - (k + 1)..] == [b[|b| - 1 - k]] + b[|b| - k..];
  }

  lemma {:induction false} SuffixAgrees(a: seq<string>, b: seq<string>, k: nat)
    requires EndsAgree(a, b, k)
    ensures var n := CommonSuffix(a, b, k);
      EndsAgree(a, b, n) && (n < |a| && n < |b| ==> a[|a| - 1 - n] != b[|b| - 1 - n])
    decreases |a| - k
  {
    if k < |a| && k < |b| && a[|a| - 1 - k] == b[|b| - 1 - k] {
      EndsAgreeStep(a, b, k);
      SuffixAgrees(a, b, k + 1);
    }
  }

  /** The walk over the table: ties prefer a deletion. */
  function Greedy(a: seq<string>, b: seq<string>): seq<Op>
    decreases |a| + |b|
  {
    if a == [] then Inss(b)
    else if b == [] then Dels(a)
    else if a[0] == b[0] then [Eq(a[0])] + Greedy(a[1..], b[1..])
    else if Lcs.Length(a[1..], b) >= Lcs.Length(a, b[1..]) then [Del(a[0])] + Greedy(a[1..], b)
    else [Ins(b[0])] + Greedy(a, b[1..])
  }

  function Assemble(a: seq<string>, b: seq<string>, p: nat, q: nat): seq<Op>
    requires p + q <= |a| && p + q <= |b|
  {
    Eqs(a[..p]) + Greedy(a[p..|a| - q], b[p..|b| - q]) + Eqs(a[|a| - q..])
  }

  /** `diffOps`: trim, walk, put the trimmed ends back. */
  function Script(a: seq<string>, b: seq<string>): seq<Op> {
    var p := CommonPrefix(a, b);
    Assemble(a, b, p, CommonSuffix(a[p..], b[p..]))
  }

  lemma ScriptSlices(a: seq<string>, b: seq<string>, p: nat, q: nat)
    requires p == CommonPrefix(a, b) && q == CommonSuffix(a[p..], b[p..])
    ensures p + q <= |a| && p + q <= |b| && Script(a, b) == Assemble(a, b, p, q)
  {}

  lemma AssembleParts(a: seq<string>, b: seq<string>, p: nat, q: nat, head: seq<Op>, middle: seq<Op>, tail: seq<Op>)
    requires p + q <= |a| && p + q <= |b|
    requires head == Eqs(a[..p]) && middle == Greedy(a[p..|a| - q], b[p..|b| - q]) && tail == Eqs(a[|a| - q..])
    ensures head + middle + tail == Assemble(a, b, p, q)
  {}

  lemma {:induction false} GreedyReplays(a: seq<string>, b: seq<string>)
    ensures OldSide(Greedy(a, b)) == a && NewSide(Greedy(a, b)) == b
    ensures |Kept(Greedy(a, b))| == Lcs.Length(a, b)
    decreases |a| + |b|
  {
    var g := Greedy(a, b);
    if a == [] {
      InssTexts(b, true, false);
      InssTexts(b, false, true);
      InssTexts(b, false, false);
    } else if b == [] {
      DelsTexts(a, true, false);
      DelsTexts(a, false, true);
      DelsTexts(a, false, false);
    } else if a[0] == b[0] {
      GreedyReplays(a[1..], b[1..]);
      assert g[1..] == Greedy(a[1..], b[1..]);
    } else if Lcs.Length(a[1..], b) >= Lcs.Length(a, b[1..]) {
      GreedyReplays(a[1..], b);
      assert g[1..] == Greedy(a[1..], b);
    } else {
      GreedyReplays(a, b[1..]);
      assert g[1..] == Greedy(a, b[1..]);
    }
  }

  lemma SandwichTexts(pre: seq<string>, mid: seq<Op>, suf: seq<string>, d: bool, i: bool)
    ensures Texts(Eqs(pre) + mid + Eqs(suf), d, i) == pre + Texts(mid, d, i) + suf
  {
    TextsAppend(Eqs(pre) + mid, Eqs(suf), d, i);
    TextsAppend(Eqs(pre), mid, d, i);
    EqsTexts(pre, d, i);
    EqsTexts(suf, d, i);
  }

  lemma ThreeParts(a: seq<string>, p: nat, q: nat)
    requires p + q <= |a|
    ensures a == a[..p] + a[p..|a| - q] + a[|a| - q..]
  {}

  lemma DropThenEnd(a: seq<string>, p: nat, q: nat)
    requires p + q <= |a|
    ensures a[p..][|a[p..]| - q..] == a[|a| - q..]
  {}

  /** The trimmed ends are the same lines on both sides. */
  lemma TrimSplits(a: seq<string>, b: seq<string>, p: nat, q: nat)
    requires p <= |a| && p <= |b| && a[..p] == b[..p]
    requires EndsAgree(a[p..], b[p..], q)
    ensures p + q <= |a| && p + q <= |b|
    ensures a == a[..p] + a[p..|a| - q] + a[|a| - q..]
    ensures b == a[..p] + b[p..|b| - q] + a[|a| - q..]
  {
    DropThenEnd(a, p, q);
    DropThenEnd(b, p, q);
    ThreeParts(a, p, q);
    ThreeParts(b, p, q);
  }

  /** The script is the walk over the middle between two common ends. */
  lemma ScriptParts(a: seq<string>, b: seq<string>)
    returns (pre: seq<string>, ca: seq<string>, cb: seq<string>, suf: seq<string>)
    ensures a == pre + ca + suf && b == pre + cb + suf
    ensures Script(a, b) == Eqs(pre) + Greedy(ca, cb) + Eqs(suf)
  {
    var p := CommonPrefix(a, b);
    var q := CommonSuffix(a[p..], b[p..]);
    PrefixAgrees(a, b, 0);
    SuffixAgrees(a[p..], b[p..], 0);
    TrimSplits(a, b, p, q);
    pre, ca, cb, suf := a[..p], a[p..|a| - q], b[p..|b| - q], a[|a| - q..];
  }

  /** The script consumes exactly the old lines, produces exactly the new ones and
      keeps as many lines as the longest common subsequence of the UNTRIMMED lists. */
  lemma ScriptReplays(a: seq<string>, b: seq<string>)
    ensures OldSide(Script(a, b)) == a
    ensures NewSide(Script(a, b)) == b
    ensures |Kept(Script(a, b))| == Lcs.Length(a, b)
  {
    var pre, ca, cb, suf := ScriptParts(a, b);
    var mid := Greedy(ca, cb);
    SandwichTexts(pre, mid, suf, true, false);
    SandwichTexts(pre, mid, suf, false, true);
    SandwichTexts(pre, mid, suf, false, false);
    GreedyReplays(ca, cb);
    TrimmedLength(pre, ca, cb, suf);
  }

  /** Trimming never loses optimality. */
  lemma TrimmedLength(pre: seq<string>, ca: seq<string>, cb: seq<string>, suf: seq<string>)
    ensures Lcs.Length(pre + ca + suf, pre + cb + suf) == |pre| + Lcs.Length(ca, cb) + |suf|
  {
    assert pre + ca + suf == pre + (ca + suf) && pre + cb + suf == pre + (cb + suf);
    Lcs.TrimPrefix(pre, ca + suf, cb + suf);
    Lcs.TrimSuffix(ca, cb, suf);
  }

  /** No edit script between the same two lists keeps more lines or changes fewer. */
  lemma ScriptIsShortest(a: seq<string>, b: seq<string>, other: seq<Op>)
    requires OldSide(other) == a && NewSide(other) == b
    ensures |Kept(other)| <= |Kept(Script(a, b))|
    ensures Changes(Script(a, b)) <= Changes(other)
  {
    ScriptReplays(a, b);
    KeptIsCommon(other, true, false);
    KeptIsCommon(other, false, true);
    Lcs.LengthIsUpperBound(Kept(other), a, b);
    Balance(other);
    Balance(Script(a, b));
  }

  /** The script changes nothing exactly when the lists are equal. */
  lemma {:induction false} NoChangesMeansEqual(ops: seq<Op>)
    requires forall i :: 0 <= i < |ops| ==> ops[i].Eq?
    ensures OldSide(ops) == NewSide(ops)
  {
    if ops != [] { NoChangesMeansEqual(ops[1..]); }
  }

  lemma EqualMeansNoChanges(a: seq<string>)
    ensures Script(a, a) == Eqs(a)
  {
    PrefixOfSelf(a);
    assert a[|a|..] == [];
    assert a[..|a|] == a;
    assert Script(a, a) == Eqs(a) + [] + [];
  }

  lemma {:induction false} PrefixOfSelf(a: seq<string>, k: nat := 0)
    requires k <= |a|
    ensures CommonPrefix(a, a, k) == |a|
    decreases |a| - k
  {
    if k < |a| { PrefixOfSelf(a, k + 1); }
  }

  // ---- the program ----

  /** The common-subsequence length of the two tails that start at `i` and `j`. */
  function TailLength(a: seq<string>, b: seq<string>, i: nat, j: nat): nat
    requires i <= |a| && j <= |b|
  {
    Lcs.Length(a[i..], b[j..])
  }

  lemma TailLengthStep(a: seq<string>, b: seq<string>, i: nat, j: nat)
    requires i < |a| && j < |b|
    ensures TailLength(a, b, i, j) ==
      if a[i] == b[j] then TailLength(a, b, i + 1, j + 1) + 1
      else if TailLength(a, b, i + 1, j) >= TailLength(a, b, i, j + 1) then TailLength(a, b, i + 1, j)
      else TailLength(a, b, i, j + 1)
  {
    assert a[i..][1..] == a[i + 1..] && b[j..][1..] == b[j + 1..];
  }

  /** `lcsTable`: filled from the bottom right corner. */
  method LcsTable(a: seq<string>, b: seq<string>) returns (t: array2<int>)
    ensures t.Length0 == |a| + 1 && t.Length1 == |b| + 1
    ensures forall i, j :: 0 <= i <= |a| && 0 <= j <= |b| ==> t[i, j] == TailLength(a, b, i, j)
  {
    var n, m := |a|, |b|;
    t := new int[n + 1, m + 1]((i, j) => 0);
    var i := n - 1;
    while i >= 0
      invariant -1 <= i < n
      invariant forall k :: 0 <= k <= n ==> t[k, m] == 0
      invariant forall k, l :: i < k <= n && 0 <= l <= m ==> t[k, l] == TailLength(a, b, k, l)
    {
      var j := m - 1;
      while j >= 0
        invariant -1 <= j < m
        invariant forall k :: 0 <= k <= n ==> t[k, m] == 0
        invariant forall k, l :: i < k <= n && 0 <= l <= m ==> t[k, l] == TailLength(a, b, k, l)
        invariant forall l :: j < l <= m ==> t[i, l] == TailLength(a, b, i, l)
      {
        TailLengthStep(a, b, i, j);
        if a[i] == b[j] {
          t[i, j] := t[i + 1, j + 1] + 1;
        } else if t[i + 1, j] >= t[i, j + 1] {
          t[i, j] := t[i + 1, j];
        } else {
          t[i, j] := t[i, j + 1];
        }
        j := j - 1;
      }
      i := i - 1;
    }
  }

  /** The walk's next op, and where it leaves both positions. */
  function NextOp(ca: seq<string>, cb: seq<string>, i: nat, j: nat): (Op, nat, nat)
    requires i < |ca| && j < |cb|
  {
    if ca[i] == cb[j] then (Eq(ca[i]), i + 1, j + 1)
    else if TailLength(ca, cb, i + 1, j) >= TailLength(ca, cb, i, j + 1) then (Del(ca[i]), i + 1, j)
    else (Ins(cb[j]), i, j + 1)
  }

  lemma GreedyStep(ca: seq<string>, cb: seq<string>, i: nat, j: nat)
    requires i < |ca| && j < |cb|
    ensures var (op, i', j') := NextOp(ca, cb, i, j);
      i' <= |ca| && j' <= |cb| && Greedy(ca[i..], cb[j..]) == [op] + Greedy(ca[i'..], cb[j'..])
  {
    assert ca[i..][1..] == ca[i + 1..] && cb[j..][1..] == cb[j + 1..];
  }

  /** The walk of `diffOps` over the middle that was not trimmed. */
  method Walk(ca: seq<string>, cb: seq<string>) returns (ops: seq<Op>)
    ensures ops == Greedy(ca, cb)
  {
    ops := [];
    var lcs := LcsTable(ca, cb);
    var i, j := 0, 0;
    assert ca[0..] == ca && cb[0..] == cb;
    while i < |ca| && j < |cb|
      invariant 0 <= i <= |ca| && 0 <= j <= |cb|
      invariant Greedy(ca, cb) == ops + Greedy(ca[i..], cb[j..])
      invariant forall k, l :: 0 <= k <= |ca| && 0 <= l <= |cb| ==> lcs[k, l] == TailLength(ca, cb, k, l)
      decreases |ca| - i + |cb| - j
    {
      ghost var next, before := NextOp(ca, cb, i, j), ops;
      GreedyStep(ca, cb, i, j);
      Regroup(ops, next.0, Greedy(ca[next.1..], cb[next.2..]));
      if ca[i] == cb[j] {
        ops := ops + [Eq(ca[i])];
        i, j := i + 1, j + 1;
      } else if lcs[i + 1, j] >= lcs[i, j + 1] {
        ops := ops + [Del(ca[i])];
        i := i + 1;
      } else {
        ops := ops + [Ins(cb[j])];
        j := j + 1;
      }
      assert ops == before + [next.0] && i == next.1 && j == next.2;
    }
    var tail := Drain(ca[i..], cb[j..]);
    ops := ops + tail;
  }

  lemma Regroup(ops: seq<Op>, op: Op, rest: seq<Op>)
    ensures ops + ([op] + rest) == ops + [op] + rest
  {}

  /** What is left on one side when the other is used up. */
  method Drain(ca: seq<string>, cb: seq<string>) returns (ops: seq<Op>)
    ensures ca == [] || cb == [] ==> ops == Greedy(ca, cb)
  {
    ops := [];
    for i := 0 to |ca|
      invariant ops == Dels(ca)[..i]
    {
      ops := ops + [Del(ca[i])];
    }
    assert ops == Dels(ca);
    for j := 0 to |cb|
      invariant ops == Dels(ca) + Inss(cb)[..j]
    {
      ops := ops + [Ins(cb[j])];
    }
    assert Inss(cb)[..|cb|] == Inss(cb);
  }

  method CountPrefix(a: seq<string>, b: seq<string>) returns (pre: nat)
    ensures pre == CommonPrefix(a, b)
  {
    pre := 0;
    while pre < |a| && pre < |b| && a[pre] == b[pre]
      invariant pre <= |a| && pre <= |b|
      invariant CommonPrefix(a, b) == CommonPrefix(a, b, pre)
    {
      pre := pre + 1;
    }
  }

  method CountSuffix(a: seq<string>, b: seq<string>, pre: nat) returns (suf: nat)
    requires pre <= |a| && pre <= |b|
    ensures suf == CommonSuffix(a[pre..], b[pre..])
  {
    var ta, tb := a[pre..], b[pre..];
    suf := 0;
    while suf < |ta| && suf < |tb| && ta[|ta| - 1 - suf] == tb[|tb| - 1 - suf]
      invariant suf <= |ta| && suf <= |tb|
      invariant CommonSuffix(ta, tb) == CommonSuffix(ta, tb, suf)
    {
      suf := suf + 1;
    }
  }

  method KeepAll(lines: seq<string>) returns (ops: seq<Op>)
    ensures ops == Eqs(lines)
  {
    ops := [];
    for i := 0 to |lines|
      invariant ops == Eqs(lines)[..i]
    {
      ops := ops + [Eq(lines[i])];
    }
  }

  method DiffOps(a: seq<string>, b: seq<string>) returns (ops: seq<Op>)
    ensures ops == Script(a, b)
  {
    var n, m := |a|, |b|;
    var pre := CountPrefix(a, b);
    var suf := CountSuffix(a, b, pre);
    ScriptSlices(a, b, pre, suf);
    var head := KeepAll(a[..pre]);
    var middle := Walk(a[pre..n - suf], b[pre..m - suf]);
    var tail := KeepAll(a[n - suf..]);
    AssembleParts(a, b, pre, suf, head, middle, tail);
    ops := head + middle + tail;
  }
}
