/** Longest common subsequences: the independent yardstick for the line diff.
    `Subseq` says what a subsequence is; `Lcs` is the recurrence the diff's table
    is filled with; the lemmas prove that the recurrence measures the former. */
module Lcs {

  /** `s` can be obtained from `t` by dropping elements. */
  predicate Subseq<T(==)>(s: seq<T>, t: seq<T>) {
    if s == [] then true
    else if t == [] then false
    else (s[0] == t[0] && Subseq(s[1..], t[1..])) || Subseq(s, t[1..])
  }

  function Length<T(==)>(a: seq<T>, b: seq<T>): nat
    decreases |a| + |b|
  {
    if a == [] || b == [] then 0
    else if a[0] == b[0] then Length(a[1..], b[1..]) + 1
    else if Length(a[1..], b) >= Length(a, b[1..]) then Length(a[1..], b)
    else Length(a, b[1..])
  }

  lemma {:induction false} SubseqRefl<T>(s: seq<T>)
    ensures Subseq(s, s)
  {
    if s != [] { SubseqRefl(s[1..]); }
  }

  lemma {:induction false} SubseqDropHead<T>(s: seq<T>, t: seq<T>)
    requires s != [] && Subseq(s, t)
    ensures Subseq(s[1..], t)
  {
    if s[0] == t[0] && Subseq(s[1..], t[1..]) {
      SubseqWiden(s[1..], t);
    } else {
      SubseqDropHead(s, t[1..]);
      SubseqWiden(s[1..], t);
    }
  }

  lemma SubseqWiden<T>(s: seq<T>, t: seq<T>)
    requires t != [] && Subseq(s, t[1..])
    ensures Subseq(s, t)
  {}

  lemma {:induction false} SubseqSnoc<T>(s: seq<T>, t: seq<T>, x: T)
    requires Subseq(s, t)
    ensures Subseq(s + [x], t + [x])
  {
    if t == [] {
      assert s + [x] == [x] == t + [x];
      SubseqRefl([x]);
    } else if s == [] {
      assert (t + [x])[1..] == t[1..] + [x];
      SubseqSnoc(s, t[1..], x);
      SubseqWiden(s + [x], t + [x]);
    } else {
      assert (t + [x])[1..] == t[1..] + [x];
      assert (s + [x])[1..] == s[1..] + [x];
      if s[0] == t[0] && Subseq(s[1..], t[1..]) {
        SubseqSnoc(s[1..], t[1..], x);
      } else {
        SubseqSnoc(s, t[1..], x);
      }
    }
  }

  /** Dropping the last element of both sides keeps a subsequence one. */
  lemma {:induction false} SubseqInit<T>(s: seq<T>, t: seq<T>, x: T)
    requires s != [] && Subseq(s, t + [x])
    ensures Subseq(s[..|s| - 1], t)
  {
    if t == [] {
      var rest := (t + [x])[1..];
      assert rest == [];
      assert Subseq(s[1..], rest) && s[1..] == [];
      assert s[..|s| - 1] == [];
    } else {
      assert (t + [x])[1..] == t[1..] + [x];
      if s[0] == t[0] && Subseq(s[1..], t[1..] + [x]) {
        if |s| > 1 {
          SubseqInit(s[1..], t[1..], x);
          assert s[1..][..|s[1..]| - 1] == s[..|s| - 1][1..];
        } else {
          assert s[..|s| - 1] == [];
        }
      } else {
        SubseqInit(s, t[1..], x);
        SubseqWiden(s[..|s| - 1], t);
      }
    }
  }

  /** No common subsequence is longer than `Length`. */
  lemma {:induction false} LengthIsUpperBound<T>(s: seq<T>, a: seq<T>, b: seq<T>)
    requires Subseq(s, a) && Subseq(s, b)
    ensures |s| <= Length(a, b)
    decreases |a| + |b|
  {
    if s == [] {
    } else if a[0] == b[0] {
      SubseqTails(s, a, b);
      LengthIsUpperBound(s[1..], a[1..], b[1..]);
    } else if Subseq(s, a[1..]) {
      LengthIsUpperBound(s, a[1..], b);
    } else {
      LengthIsUpperBound(s, a, b[1..]);
    }
  }

  lemma SubseqTails<T>(s: seq<T>, a: seq<T>, b: seq<T>)
    requires s != [] && Subseq(s, a) && Subseq(s, b)
    ensures Subseq(s[1..], a[1..]) && Subseq(s[1..], b[1..])
  {
    SubseqTail(s, a);
    SubseqTail(s, b);
  }

  lemma SubseqTail<T>(s: seq<T>, a: seq<T>)
    requires s != [] && Subseq(s, a)
    ensures Subseq(s[1..], a[1..])
  {
    if Subseq(s, a[1..]) { SubseqDropHead(s, a[1..]); }
  }

  /** A common subsequence of exactly that length. */
  function Witness<T(==)>(a: seq<T>, b: seq<T>): seq<T>
    decreases |a| + |b|
  {
    if a == [] || b == [] then []
    else if a[0] == b[0] then [a[0]] + Witness(a[1..], b[1..])
    else if Length(a[1..], b) >= Length(a, b[1..]) then Witness(a[1..], b)
    else Witness(a, b[1..])
  }

  /** `Length` is attained. */
  lemma {:induction false} LengthIsAttained<T>(a: seq<T>, b: seq<T>)
    ensures var w := Witness(a, b);
      Subseq(w, a) && Subseq(w, b) && |w| == Length(a, b)
    decreases |a| + |b|
  {
    if a == [] || b == [] {
    } else if a[0] == b[0] {
      LengthIsAttained(a[1..], b[1..]);
      var w := Witness(a, b);
      assert w[1..] == Witness(a[1..], b[1..]);
    } else if Length(a[1..], b) >= Length(a, b[1..]) {
      LengthIsAttained(a[1..], b);
      SubseqWiden(Witness(a, b), a);
    } else {
      LengthIsAttained(a, b[1..]);
      SubseqWiden(Witness(a, b), b);
    }
  }

  /** Trimming a common prefix costs exactly its length. */
  lemma {:induction false} TrimPrefix<T>(p: seq<T>, a: seq<T>, b: seq<T>)
    ensures Length(p + a, p + b) == |p| + Length(a, b)
  {
    if p == [] {
      assert p + a == a && p + b == b;
    } else {
      TrimPrefix(p[1..], a, b);
      assert (p + a)[1..] == p[1..] + a && (p + b)[1..] == p[1..] + b;
    }
  }

  lemma TrimLast<T>(a: seq<T>, b: seq<T>, x: T)
    ensures Length(a + [x], b + [x]) == Length(a, b) + 1
  {
    LengthIsAttained(a, b);
    var w := Witness(a, b);
    SubseqSnoc(w, a, x);
    SubseqSnoc(w, b, x);
    LengthIsUpperBound(w + [x], a + [x], b + [x]);
    LengthIsAttained(a + [x], b + [x]);
    var v := Witness(a + [x], b + [x]);
    SubseqInit(v, a, x);
    SubseqInit(v, b, x);
    LengthIsUpperBound(v[..|v| - 1], a, b);
  }

  /** Trimming a common suffix costs exactly its length. */
  lemma {:induction false} TrimSuffix<T>(a: seq<T>, b: seq<T>, q: seq<T>)
    ensures Length(a + q, b + q) == Length(a, b) + |q|
    decreases |q|
  {
    if q == [] {
      assert a + q == a && b + q == b;
    } else {
      var x := q[|q| - 1];
      var r := q[..|q| - 1];
      TrimSuffix(a, b, r);
      TrimLast(a + r, b + r, x);
      assert a + q == a + r + [x] && b + q == b + r + [x];
    }
  }
}
