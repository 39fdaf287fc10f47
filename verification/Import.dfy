/** What both config importers share: mapping candidates, problems found, and names
    that no other mapping has. */
module Import {
  import opened Text
  import opened Model

  /** The part of a mapping an importer fills in. */
  datatype Candidate = Candidate(
    name: string,
    enabled: bool,
    engine: Engine,
    protocol: Protocol,
    listenIP: string,
    listenPort: int,
    serverNames: seq<string>,
    redirectTo: string,
    targets: seq<Target>,
    balance: string,
    pathPrefix: string)

  /** A section that could not be converted. */
  datatype Issue = Issue(section: string)

  datatype Converted = Converted(out: seq<Candidate>, issues: seq<Issue>, taken: set<string>)

  // ---- unique names ----

  function Numbered(base: string, i: nat): string {
    base + "-" + Itoa(i)
  }

  lemma NumberedInjective(base: string, i: nat, j: nat)
    requires Numbered(base, i) == Numbered(base, j)
    ensures i == j
  {
    assert Numbered(base, i)[|base| + 1..] == Itoa(i) && Numbered(base, j)[|base| + 1..] == Itoa(j);
    ItoaInjective(i, j);
  }

  ghost predicate AllTaken(base: string, taken: set<string>, i: nat, k: nat) {
    forall j: nat :: i <= j < k ==> Numbered(base, j) in taken
  }

  /** `name` is the first of base-i, base-(i+1), ... that is free. */
  ghost predicate IsFirstFree(base: string, taken: set<string>, i: nat, name: string) {
    && name !in taken
    && exists k: nat :: k >= i && name == Numbered(base, k) && AllTaken(base, taken, i, k)
  }

  /** The search ends because each step rules out another of the finitely many taken
      names: the numbered names are all different. */
  function FirstFree(base: string, taken: set<string>, i: nat): (name: string)
    ensures IsFirstFree(base, taken, i, name)
    decreases |taken|
  {
    var name := Numbered(base, i);
    if name !in taken then
      assert AllTaken(base, taken, i, i);
      name
    else
      var found := FirstFree(base, taken - {name}, i + 1);
      FirstFreeStep(base, taken, i, found);
      found
  }

  lemma FirstFreeStep(base: string, taken: set<string>, i: nat, found: string)
    requires Numbered(base, i) in taken
    requires IsFirstFree(base, taken - {Numbered(base, i)}, i + 1, found)
    ensures IsFirstFree(base, taken, i, found)
  {
    var rest := taken - {Numbered(base, i)};
    var k: nat :| k >= i + 1 && found == Numbered(base, k) && AllTaken(base, rest, i + 1, k);
    if found == Numbered(base, i) { NumberedInjective(base, k, i); }
    assert AllTaken(base, taken, i, k);
  }

  /** `uniqueMappingName` as a function. */
  function UniqueName(base: string, taken: set<string>): (name: string)
    ensures name !in taken
    ensures base !in taken ==> name == base
  {
    if base !in taken then base else FirstFree(base, taken, 2)
  }

  lemma FreeIsLeast(base: string, taken: set<string>, i: nat, k: nat)
    requires i <= k && Numbered(base, k) !in taken && AllTaken(base, taken, i, k)
    ensures FirstFree(base, taken, i) == Numbered(base, k)
  {
    var m: nat :| m >= i && FirstFree(base, taken, i) == Numbered(base, m) && AllTaken(base, taken, i, m);
  }

  /** A taken name gets the least number from 2 on that makes it free. */
  lemma NumberIsLeast(base: string, taken: set<string>, k: nat)
    requires base in taken && k >= 2 && base + ("-" + Itoa(k)) !in taken
    requires forall j: nat :: 2 <= j < k ==> base + ("-" + Itoa(j)) in taken
    ensures UniqueName(base, taken) == base + ("-" + Itoa(k))
  {
    assert forall j: nat :: Numbered(base, j) == base + ("-" + Itoa(j));
    FreeIsLeast(base, taken, 2, k);
  }

  /** `uniqueMappingName`: it stops, and on the least free number. */
  method UniqueMappingName(base: string, taken: set<string>) returns (name: string)
    ensures name == UniqueName(base, taken)
  {
    if base !in taken {
      return base;
    }
    var i := 2;
    name := Numbered(base, i);
    ghost var tried: set<string> := {};
    while name in taken
      invariant i >= 2 && name == Numbered(base, i)
      invariant AllTaken(base, taken, 2, i)
      invariant tried == set j | 2 <= j < i :: Numbered(base, j)
      invariant tried <= taken && |tried| == i - 2
      decreases |taken| + 2 - i
    {
      assert name !in tried by {
        if name in tried {
          var j :| 2 <= j < i && Numbered(base, j) == name;
          NumberedInjective(base, j, i);
        }
      }
      Bounded(tried + {name}, taken);
      tried := tried + {name};
      i := i + 1;
      name := Numbered(base, i);
    }
    FreeIsLeast(base, taken, 2, i);
  }

  /** A subset is no larger. */
  lemma {:induction false} Bounded(s: set<string>, t: set<string>)
    requires s <= t
    ensures |s| <= |t|
    decreases s
  {
    if s != {} {
      var x :| x in s;
      Bounded(s - {x}, t - {x});
    }
  }

  // ---- names of a whole import ----

  /** Every candidate's name is new, to the store and to the other candidates. */
  ghost predicate FreshNames(before: set<string>, c: Converted) {
    && before <= c.taken
    && (forall i :: 0 <= i < |c.out| ==> c.out[i].name !in before && c.out[i].name in c.taken)
    && (forall i, j :: 0 <= i < j < |c.out| ==> c.out[i].name != c.out[j].name)
  }

  /** Adds a candidate under a free name, as both converters do. */
  function AddCandidate(c: Converted, base: string, candidate: Candidate): Converted {
    var name := UniqueName(base, c.taken);
    Converted(c.out + [candidate.(name := name)], c.issues, c.taken + {name})
  }

  lemma AddCandidateFresh(before: set<string>, c: Converted, base: string, candidate: Candidate)
    requires FreshNames(before, c)
    ensures FreshNames(before, AddCandidate(c, base, candidate))
  {}

  /** Candidates with their names blanked out. */
  function Anonymous(out: seq<Candidate>): seq<Candidate> {
    if out == [] then [] else [out[0].(name := "")] + Anonymous(out[1..])
  }

  lemma AnonymousCons(c: Candidate, rest: seq<Candidate>)
    ensures Anonymous([c] + rest) == Anonymous([c]) + Anonymous(rest)
  {
    assert ([c] + rest)[1..] == rest && [c][1..] == [];
  }

  lemma {:induction false} AnonymousAppend(x: seq<Candidate>, y: seq<Candidate>)
    ensures Anonymous(x + y) == Anonymous(x) + Anonymous(y)
  {
    if x == [] {
      assert x + y == y;
    } else {
      AnonymousAppend(x[1..], y);
      AnonymousCons(x[0], x[1..]);
      AnonymousCons(x[0], x[1..] + y);
      HeadTail(x);
      assert x + y == [x[0]] + (x[1..] + y);
    }
  }
}
