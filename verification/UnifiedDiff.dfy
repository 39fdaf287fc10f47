/** The whole of `UnifiedDiff`: two texts in, the lines of a unified diff out, and a
    reader of that format which patches the old text into the new one. */
module UnifiedDiff {
  import opened Text
  import opened DiffScript
  import opened Hunks

  // ---- texts ----

  /** `strings.ReplaceAll(s, "\r\n", "\n")`. */
  function Unix(s: string): string {
    if s == [] then []
    else if |s| >= 2 && s[0] == '\r' && s[1] == '\n' then ['\n'] + Unix(s[2..])
    else [s[0]] + Unix(s[1..])
  }

  function Lines(text: string): seq<string> {
    Split(Unix(text), '\n')
  }

  // ---- printing ----

  function OpLine(op: Op): (line: string)
    ensures |line| == |op.text| + 1 && line[1..] == op.text
  {
    match op
    case Eq(t) => " " + t
    case Del(t) => "-" + t
    case Ins(t) => "+" + t
  }

  function OpLines(ops: seq<Op>): (lines: seq<string>)
    ensures |lines| == |ops|
  {
    if ops == [] then [] else [OpLine(ops[0])] + OpLines(ops[1..])
  }

  const HEADER: seq<string> := ["@@ -", ",", " +", ","]

  /** Numbers, each after its literal, and what ends the line. */
  function Fields(literals: seq<string>, ns: seq<nat>, end: string): (s: string)
    requires |literals| == |ns|
    ensures literals == [] ==> s == end
    ensures literals != [] ==> HasPrefix(s, literals[0])
  {
    if literals == [] then end else literals[0] + (Itoa(ns[0]) + Fields(literals[1..], ns[1..], end))
  }

  /** `@@ -aStart,aCount +bStart,bCount @@` */
  function Header(h: Hunk): string {
    Fields(HEADER, [h.aStart, h.aCount, h.bStart, h.bCount], " @@")
  }

  function OneHunk(h: Hunk): seq<string> {
    [Header(h)] + OpLines(h.body)
  }

  function HunkLines(hs: seq<Hunk>): seq<string> {
    if hs == [] then [] else OneHunk(hs[0]) + HunkLines(hs[1..])
  }

  function DiffLines(hs: seq<Hunk>, oldLabel: string, newLabel: string): seq<string> {
    if hs == [] then [] else ["--- " + oldLabel, "+++ " + newLabel] + HunkLines(hs)
  }

  // ---- reading ----

  function LeadingDigits(s: string): (k: nat)
    ensures k <= |s| && AllDigits(s[..k]) && (k < |s| ==> !IsDigit(s[k]))
  {
    if s == [] || !IsDigit(s[0]) then 0
    else
      var k := LeadingDigits(s[1..]);
      assert s[..k + 1] == [s[0]] + s[1..][..k];
      k + 1
  }

  function ReadNumber(s: string): Option<(nat, string)> {
    var k := LeadingDigits(s);
    if k == 0 then None else Some((DigitsValue(s[..k]), s[k..]))
  }

  function Expect(s: string, literal: string): Option<string> {
    if HasPrefix(s, literal) then Some(s[|literal|..]) else None
  }

  /** A number that must follow a literal. */
  function ReadField(s: string, literal: string): Option<(nat, string)> {
    match Expect(s, literal)
    case None => None
    case Some(rest) => ReadNumber(rest)
  }

  /** Numbers, each after its literal. */
  function ReadFields(s: string, literals: seq<string>): Option<(seq<nat>, string)> {
    if literals == [] then Some(([], s))
    else match ReadField(s, literals[0])
      case None => None
      case Some((n, rest)) =>
        match ReadFields(rest, literals[1..])
        case None => None
        case Some((ns, end)) => Some(([n] + ns, end))
  }

  function ReadHeader(s: string): Option<(nat, nat, nat, nat)> {
    match ReadFields(s, HEADER)
    case None => None
    case Some((ns, end)) =>
      if |ns| == 4 && end == " @@" then Some((ns[0], ns[1], ns[2], ns[3])) else None
  }

  function ReadOp(line: string): Option<Op> {
    if line == [] then None
    else if line[0] == ' ' then Some(Eq(line[1..]))
    else if line[0] == '-' then Some(Del(line[1..]))
    else if line[0] == '+' then Some(Ins(line[1..]))
    else None
  }

  /** The body ends when both counts of the header are used up. */
  function ReadBody(lines: seq<string>, a: nat, b: nat): (r: Option<(seq<Op>, seq<string>)>)
    ensures r.Some? ==> |r.value.1| <= |lines|
  {
    if a == 0 && b == 0 then Some(([], lines))
    else if lines == [] then None
    else match ReadOp(lines[0])
      case None => None
      case Some(op) =>
        if (!op.Ins? && a == 0) || (!op.Del? && b == 0) then None
        else match ReadBody(lines[1..], if op.Ins? then a else a - 1, if op.Del? then b else b - 1)
          case None => None
          case Some((ops, rest)) => Some(([op] + ops, rest))
  }

  function ReadHunks(lines: seq<string>): Option<seq<Hunk>>
    decreases |lines|
  {
    if lines == [] then Some([])
    else
      var header := ReadHeader(lines[0]);
      if header.None? then None
      else
        var (aStart, aCount, bStart, bCount) := header.value;
        var body := ReadBody(lines[1..], aCount, bCount);
        if body.None? then None
        else
          var later := ReadHunks(body.value.1);
          if later.None? then None
          else Some([Hunk(aStart, aCount, bStart, bCount, body.value.0)] + later.value)
  }

  /** A patch program fed with the printed diff. */
  function PatchWith(lines: seq<string>, diff: seq<string>): Option<seq<string>> {
    if diff == [] then Some(lines)
    else if |diff| < 2 then None
    else match ReadHunks(diff[2..])
      case None => None
      case Some(hs) => Patch(lines, 0, 0, hs)
  }

  /** The same program run backwards: the signs and sides of every hunk read are swapped. */
  function UnpatchWith(lines: seq<string>, diff: seq<string>): Option<seq<string>> {
    if diff == [] then Some(lines)
    else if |diff| < 2 then None
    else match ReadHunks(diff[2..])
      case None => None
      case Some(hs) => Patch(lines, 0, 0, FlipHunks(hs))
  }

  lemma {:induction false} LeadingDigitsOf(digits: string, rest: string)
    requires AllDigits(digits) && (rest != [] ==> !IsDigit(rest[0]))
    ensures LeadingDigits(digits + rest) == |digits|
  {
    if digits == [] {
      assert digits + rest == rest;
    } else {
      LeadingDigitsOf(digits[1..], rest);
      assert (digits + rest)[1..] == digits[1..] + rest;
    }
  }

  lemma ReadPrinted(literal: string, n: nat, rest: string)
    requires rest != [] && !IsDigit(rest[0])
    ensures ReadField(literal + (Itoa(n) + rest), literal) == Some((n, rest))
  {
    var s := literal + (Itoa(n) + rest);
    assert s[..|literal|] == literal && s[|literal|..] == Itoa(n) + rest;
    LeadingDigitsOf(Itoa(n), rest);
    DigitsOfItoa(n);
    assert (Itoa(n) + rest)[..|Itoa(n)|] == Itoa(n) && (Itoa(n) + rest)[|Itoa(n)|..] == rest;
  }

  lemma FieldsStep(literal: string, n: nat, rest: string, literals: seq<string>, ns: seq<nat>, end: string)
    requires rest != [] && !IsDigit(rest[0])
    requires ReadFields(rest, literals) == Some((ns, end))
    ensures ReadFields(literal + (Itoa(n) + rest), [literal] + literals) == Some(([n] + ns, end))
  {
    ReadPrinted(literal, n, rest);
    assert ([literal] + literals)[1..] == literals;
  }

  /** Literals that cannot be mistaken for part of a number. */
  predicate Separators(literals: seq<string>) {
    literals != [] ==> literals[0] != [] && !IsDigit(literals[0][0]) && Separators(literals[1..])
  }

  lemma FieldsStart(literals: seq<string>, ns: seq<nat>, end: string)
    requires |literals| == |ns| && end != [] && !IsDigit(end[0])
    requires Separators(literals)
    ensures Fields(literals, ns, end) != [] && !IsDigit(Fields(literals, ns, end)[0])
  {
    if literals != [] {
      assert Fields(literals, ns, end)[..|literals[0]|][0] == literals[0][0];
    }
  }

  lemma {:induction false} FieldsReadBack(literals: seq<string>, ns: seq<nat>, end: string)
    requires |literals| == |ns| && end != [] && !IsDigit(end[0])
    requires Separators(literals)
    ensures ReadFields(Fields(literals, ns, end), literals) == Some((ns, end))
  {
    if literals != [] {
      var rest := Fields(literals[1..], ns[1..], end);
      FieldsReadBack(literals[1..], ns[1..], end);
      FieldsStart(literals[1..], ns[1..], end);
      FieldsStep(literals[0], ns[0], rest, literals[1..], ns[1..], end);
      HeadTail(literals);
      HeadTail(ns);
    }
  }

  lemma HeaderReadsBack(h: Hunk)
    ensures ReadHeader(Header(h)) == Some((h.aStart, h.aCount, h.bStart, h.bCount))
  {
    assert HEADER[1..] == [",", " +", ","] && HEADER[1..][1..] == [" +", ","] && HEADER[1..][1..][1..] == [","];
    assert Separators(HEADER[1..][1..]);
    FieldsReadBack(HEADER, [h.aStart, h.aCount, h.bStart, h.bCount], " @@");
  }

  lemma {:induction false} BodyReadsBack(ops: seq<Op>, rest: seq<string>)
    ensures ReadBody(OpLines(ops) + rest, |OldSide(ops)|, |NewSide(ops)|) == Some((ops, rest))
  {
    var lines := OpLines(ops) + rest;
    if ops == [] {
      assert lines == rest;
    } else {
      BodyReadsBack(ops[1..], rest);
      assert lines[1..] == OpLines(ops[1..]) + rest;
      assert lines[0] == OpLine(ops[0]);
      assert ReadOp(lines[0]) == Some(ops[0]);
      assert [ops[0]] + ops[1..] == ops;
    }
  }

  predicate CountsMatch(hs: seq<Hunk>) {
    forall i :: 0 <= i < |hs| ==> hs[i].aCount == |OldSide(hs[i].body)| && hs[i].bCount == |NewSide(hs[i].body)|
  }

  lemma ReadHunksStep(line: string, body: seq<string>, h: Hunk, rest: seq<string>, later: seq<Hunk>)
    requires ReadHeader(line) == Some((h.aStart, h.aCount, h.bStart, h.bCount))
    requires ReadBody(body + rest, h.aCount, h.bCount) == Some((h.body, rest))
    requires ReadHunks(rest) == Some(later)
    ensures ReadHunks([line] + body + rest) == Some([h] + later)
  {
    var lines := [line] + body + rest;
    assert lines[0] == line && lines[1..] == body + rest;
  }

  lemma OneHunkReadsBack(h: Hunk, rest: seq<string>, later: seq<Hunk>)
    requires h.aCount == |OldSide(h.body)| && h.bCount == |NewSide(h.body)|
    requires ReadHunks(rest) == Some(later)
    ensures ReadHunks(OneHunk(h) + rest) == Some([h] + later)
  {
    HeaderReadsBack(h);
    BodyReadsBack(h.body, rest);
    ReadHunksStep(Header(h), OpLines(h.body), h, rest, later);
  }

  lemma {:induction false} HunksReadBack(hs: seq<Hunk>)
    requires CountsMatch(hs)
    ensures ReadHunks(HunkLines(hs)) == Some(hs)
  {
    if hs != [] {
      HunksReadBack(hs[1..]);
      OneHunkReadsBack(hs[0], HunkLines(hs[1..]), hs[1..]);
      assert [hs[0]] + hs[1..] == hs;
    }
  }

  lemma {:induction false} HunksOfCounts(ops: seq<Op>, gs: seq<(nat, nat)>)
    requires forall i :: 0 <= i < |gs| ==> gs[i].0 <= gs[i].1 < |ops|
    ensures CountsMatch(HunksOf(ops, gs))
  {
    if gs != [] { HunksOfCounts(ops, gs[1..]); }
  }

  // ---- what the diff is for ----

  /** The printed hunks of two texts read back as those hunks. */
  lemma PrintedReadsBack(a: seq<string>, b: seq<string>, oldLabel: string, newLabel: string)
    ensures var hs := ScriptHunks(Script(a, b));
      var diff := DiffLines(hs, oldLabel, newLabel);
      if hs == [] then diff == [] else |diff| >= 2 && ReadHunks(diff[2..]) == Some(hs)
  {
    var ops := Script(a, b);
    var hs := ScriptHunks(ops);
    GroupsCover(ops);
    CoversInRange(ops, 0, Groups(ops));
    HunksOfCounts(ops, Groups(ops));
    HunksReadBack(hs);
    if hs != [] {
      assert DiffLines(hs, oldLabel, newLabel)[2..] == HunkLines(hs);
    }
  }

  /** Printing the diff of two texts, reading it back and patching the old lines with it
      gives the new lines. */
  lemma DiffThenPatch(a: seq<string>, b: seq<string>, oldLabel: string, newLabel: string)
    ensures PatchWith(a, DiffLines(ScriptHunks(Script(a, b)), oldLabel, newLabel)) == Some(b)
  {
    ScriptReplays(a, b);
    HunksPatch(Script(a, b));
    PrintedReadsBack(a, b, oldLabel, newLabel);
  }

  lemma NoHunksIffNoChanges(ops: seq<Op>)
    ensures ScriptHunks(ops) == [] <==> AllEq(ops, 0, |ops|)
  {
    var k := FirstChange(ops, 0);
    if k < |ops| {
      GroupsCover(ops);
      GroupsAtNonEmpty(ops, k + 1, k, k);
    }
  }

  lemma {:induction false} GroupsAtNonEmpty(ops: seq<Op>, i: nat, start: nat, prev: nat)
    requires i <= |ops|
    ensures GroupsAt(ops, i, start, prev) != []
    decreases |ops| - i
  {
    if i == |ops| {
    } else if ops[i].Eq? {
      GroupsAtNonEmpty(ops, i + 1, start, prev);
    } else {
      GroupsAtNonEmpty(ops, i + 1, start, i);
    }
  }

  lemma NoChangesIffEqual(a: seq<string>, b: seq<string>)
    ensures AllEq(Script(a, b), 0, |Script(a, b)|) <==> a == b
  {
    ScriptReplays(a, b);
    if AllEq(Script(a, b), 0, |Script(a, b)|) { NoChangesMeansEqual(Script(a, b)); }
    if a == b { EqualMeansNoChanges(a); }
  }

  /** The diff is empty exactly when the two texts agree up to CRLF line ends. */
  lemma EmptyIffEqual(oldText: string, newText: string, oldLabel: string, newLabel: string)
    ensures DiffLines(ScriptHunks(Script(Lines(oldText), Lines(newText))), oldLabel, newLabel) == []
      <==> Unix(oldText) == Unix(newText)
  {
    var a, b := Lines(oldText), Lines(newText);
    NoHunksIffNoChanges(Script(a, b));
    NoChangesIffEqual(a, b);
    if a == b { SplitInjective(Unix(oldText), Unix(newText), '\n'); }
  }

  /** No hunk has an empty side, so the format's special start line for an empty range
      never arises: a text always has at least one line. */
  lemma CountsAreNeverZero(ops: seq<Op>, g: (nat, nat))
    requires g.0 <= g.1 < |ops|
    requires AllEq(ops, From(g), g.0) && AllEq(ops, g.1 + 1, To(ops, g))
    requires OldSide(ops) != [] && NewSide(ops) != []
    ensures HunkOf(ops, g).aCount > 0 && HunkOf(ops, g).bCount > 0
  {
    var s, e := From(g), To(ops, g);
    if g.0 > 0 {
      EqIsOnBothSides(ops[s..e], g.0 - 1 - s);
    } else if g.1 + 1 < |ops| {
      EqIsOnBothSides(ops[s..e], g.1 + 1 - s);
    } else {
      assert ops[s..e] == ops;
    }
  }

  lemma {:induction false} EqIsOnBothSides(ops: seq<Op>, i: nat)
    requires i < |ops| && ops[i].Eq?
    ensures OldSide(ops) != [] && NewSide(ops) != []
  {
    if i > 0 { EqIsOnBothSides(ops[1..], i - 1); }
  }

  // ---- patching backwards ----

  function FlipOp(op: Op): Op {
    match op
    case Eq(t) => Eq(t)
    case Del(t) => Ins(t)
    case Ins(t) => Del(t)
  }

  function Flip(ops: seq<Op>): (r: seq<Op>)
    ensures |r| == |ops|
    ensures forall i :: 0 <= i < |ops| ==> r[i] == FlipOp(ops[i])
  {
    seq(|ops|, i requires 0 <= i < |ops| => FlipOp(ops[i]))
  }

  /** A hunk read with its two sides exchanged, as `patch -R` does. */
  function FlipHunk(h: Hunk): Hunk {
    Hunk(h.bStart, h.bCount, h.aStart, h.aCount, Flip(h.body))
  }

  function FlipHunks(hs: seq<Hunk>): (r: seq<Hunk>)
    ensures |r| == |hs|
  {
    if hs == [] then [] else [FlipHunk(hs[0])] + FlipHunks(hs[1..])
  }

  lemma {:induction false} FlipTexts(ops: seq<Op>, d: bool, i: bool)
    ensures Texts(Flip(ops), d, i) == Texts(ops, i, d)
  {
    if ops != [] {
      FlipTexts(ops[1..], d, i);
      assert Flip(ops)[1..] == Flip(ops[1..]);
    }
  }

  lemma {:induction false} FlipGroupsAt(ops: seq<Op>, i: nat, start: nat, prev: nat)
    requires i <= |ops|
    ensures GroupsAt(Flip(ops), i, start, prev) == GroupsAt(ops, i, start, prev)
    decreases |ops| - i
  {
    if i == |ops| {
    } else if ops[i].Eq? {
      FlipGroupsAt(ops, i + 1, start, prev);
    } else if i - prev <= 2 * CTX {
      FlipGroupsAt(ops, i + 1, start, i);
    } else {
      FlipGroupsAt(ops, i + 1, i, i);
    }
  }

  lemma {:induction false} FlipFirst(ops: seq<Op>, i: nat)
    requires i <= |ops|
    ensures FirstChange(Flip(ops), i) == FirstChange(ops, i)
    decreases |ops| - i
  {
    if i < |ops| && ops[i].Eq? { FlipFirst(ops, i + 1); }
  }

  lemma FlipHunkOf(ops: seq<Op>, g: (nat, nat))
    requires g.0 <= g.1 < |ops|
    ensures HunkOf(Flip(ops), g) == FlipHunk(HunkOf(ops, g))
  {
    var s, e := From(g), To(ops, g);
    assert Flip(ops)[..s] == Flip(ops[..s]) && Flip(ops)[s..e] == Flip(ops[s..e]);
    FlipTexts(ops[..s], true, false);
    FlipTexts(ops[..s], false, true);
    FlipTexts(ops[s..e], true, false);
    FlipTexts(ops[s..e], false, true);
  }

  lemma {:induction false} FlipHunksOf(ops: seq<Op>, gs: seq<(nat, nat)>)
    requires forall i :: 0 <= i < |gs| ==> gs[i].0 <= gs[i].1 < |ops|
    ensures HunksOf(Flip(ops), gs) == FlipHunks(HunksOf(ops, gs))
  {
    if gs != [] {
      FlipHunkOf(ops, gs[0]);
      FlipHunksOf(ops, gs[1..]);
      assert HunksOf(ops, gs)[1..] == HunksOf(ops, gs[1..]);
    }
  }

  lemma FlipGroups(ops: seq<Op>)
    ensures Groups(Flip(ops)) == Groups(ops)
  {
    FlipFirst(ops, 0);
    var k := FirstChange(ops, 0);
    if k < |ops| { FlipGroupsAt(ops, k + 1, k, k); }
  }

  lemma FlipScriptHunks(ops: seq<Op>)
    ensures ScriptHunks(Flip(ops)) == FlipHunks(ScriptHunks(ops))
  {
    FlipGroups(ops);
    GroupsCover(ops);
    CoversInRange(ops, 0, Groups(ops));
    FlipHunksOf(ops, Groups(ops));
  }

  /** The script's hunks, read backwards, take the new lines back to the old ones. */
  lemma FlippedHunksPatch(a: seq<string>, b: seq<string>)
    ensures Patch(b, 0, 0, FlipHunks(ScriptHunks(Script(a, b)))) == Some(a)
  {
    var ops := Script(a, b);
    ScriptReplays(a, b);
    FlipTexts(ops, true, false);
    FlipTexts(ops, false, true);
    FlipScriptHunks(ops);
    HunksPatch(Flip(ops));
  }

  /** Printing the diff of two texts, reading it back, flipping its signs and patching the
      new lines with it gives the old lines. */
  lemma DiffThenUnpatch(a: seq<string>, b: seq<string>, oldLabel: string, newLabel: string)
    ensures UnpatchWith(b, DiffLines(ScriptHunks(Script(a, b)), oldLabel, newLabel)) == Some(a)
  {
    PrintedReadsBack(a, b, oldLabel, newLabel);
    FlippedHunksPatch(a, b);
  }

  // ---- the program ----

  /** Between two neighbours of the list of changed positions nothing changes. */
  ghost predicate Neighbours(ops: seq<Op>, p: nat, q: nat) {
    p < q <= |ops| && !ops[p].Eq? && AllEq(ops, p + 1, q)
  }

  /** `changed` lists exactly the changed positions below `hi`. */
  ghost predicate Positions(ops: seq<Op>, changed: seq<nat>, hi: nat)
    requires hi <= |ops|
  {
    if changed == [] then AllEq(ops, 0, hi)
    else
      && changed[0] < |ops| && AllEq(ops, 0, changed[0])
      && (forall k :: 0 <= k < |changed| - 1 ==> Neighbours(ops, changed[k], changed[k + 1]))
      && Neighbours(ops, changed[|changed| - 1], hi)
  }

  /** Positions of the changed ops, in order. */
  method ChangedPositions(ops: seq<Op>) returns (changed: seq<nat>)
    ensures Positions(ops, changed, |ops|)
  {
    changed := [];
    for i := 0 to |ops|
      invariant Positions(ops, changed, i)
    {
      if !ops[i].Eq? {
        changed := changed + [i];
      }
    }
  }

  lemma {:induction false} SkipEqs(ops: seq<Op>, i: nat, c: nat, start: nat, prev: nat)
    requires i <= c <= |ops| && AllEq(ops, i, c)
    ensures GroupsAt(ops, i, start, prev) == GroupsAt(ops, c, start, prev)
    decreases c - i
  {
    if i < c { SkipEqs(ops, i + 1, c, start, prev); }
  }

  lemma {:induction false} FirstChangeAt(ops: seq<Op>, i: nat, c: nat)
    requires i <= c <= |ops| && AllEq(ops, i, c) && (c < |ops| ==> !ops[c].Eq?)
    ensures FirstChange(ops, i) == c
    decreases c - i
  {
    if i < c { FirstChangeAt(ops, i + 1, c); }
  }

  lemma PositionFacts(ops: seq<Op>, changed: seq<nat>, k: nat)
    requires Positions(ops, changed, |ops|) && k < |changed|
    ensures changed[k] < |ops| && !ops[changed[k]].Eq?
    ensures k > 0 ==> Neighbours(ops, changed[k - 1], changed[k])
  {
    if k > 0 { assert Neighbours(ops, changed[k - 1], changed[k - 1 + 1]); }
    if k < |changed| - 1 { assert Neighbours(ops, changed[k], changed[k + 1]); }
  }

  /** The scan from one changed position to the next. */
  lemma GroupsStep(ops: seq<Op>, start: nat, prev: nat, c: nat)
    requires Neighbours(ops, prev, c) && c < |ops| && !ops[c].Eq?
    ensures GroupsAt(ops, prev + 1, start, prev) ==
      if c - prev <= 2 * CTX then GroupsAt(ops, c + 1, start, c)
      else [(start, prev)] + GroupsAt(ops, c + 1, c, c)
  {
    SkipEqs(ops, prev + 1, c, start, prev);
  }

  lemma Regrouped(gs: seq<(nat, nat)>, g: (nat, nat), rest: seq<(nat, nat)>)
    ensures gs + ([g] + rest) == gs + [g] + rest
  {}

  method GroupChanges(ops: seq<Op>) returns (groups: seq<(nat, nat)>)
    ensures groups == Groups(ops)
  {
    var changed := ChangedPositions(ops);
    if |changed| == 0 {
      FirstChangeAt(ops, 0, |ops|);
      return [];
    }
    groups := [];
    PositionFacts(ops, changed, 0);
    var start: nat, prev: nat := changed[0], changed[0];
    FirstChangeAt(ops, 0, start);
    for k := 1 to |changed|
      invariant prev == changed[k - 1] && prev < |ops|
      invariant Groups(ops) == groups + GroupsAt(ops, prev + 1, start, prev)
    {
      var c := changed[k];
      PositionFacts(ops, changed, k);
      GroupsStep(ops, start, prev, c);
      if c - prev <= 2 * CTX {
        prev := c;
      } else {
        Regrouped(groups, (start, prev), GroupsAt(ops, c + 1, c, c));
        groups := groups + [(start, prev)];
        start, prev := c, c;
      }
    }
    SkipEqs(ops, prev + 1, |ops|, start, prev);
    groups := groups + [(start, prev)];
  }

  /** The counting loops of a hunk header. */
  method CountSides(ops: seq<Op>, a0: nat, b0: nat) returns (a: nat, b: nat)
    ensures a == a0 + |OldSide(ops)| && b == b0 + |NewSide(ops)|
  {
    a, b := a0, b0;
    for i := 0 to |ops|
      invariant a == a0 + |OldSide(ops[..i])| && b == b0 + |NewSide(ops[..i])|
    {
      assert ops[..i + 1] == ops[..i] + [ops[i]];
      TextsAppend(ops[..i], [ops[i]], true, false);
      TextsAppend(ops[..i], [ops[i]], false, true);
      if ops[i].Eq? || ops[i].Del? { a := a + 1; }
      if ops[i].Eq? || ops[i].Ins? { b := b + 1; }
    }
    assert ops[..|ops|] == ops;
  }

  method PrintBody(ops: seq<Op>) returns (out: seq<string>)
    ensures out == OpLines(ops)
  {
    out := [];
    assert ops[0..] == ops;
    for i := 0 to |ops|
      invariant OpLines(ops) == out + OpLines(ops[i..])
    {
      assert ops[i..][1..] == ops[i + 1..];
      out := out + [OpLine(ops[i])];
    }
  }

  method PrintHunk(ops: seq<Op>, g: (nat, nat)) returns (out: seq<string>)
    requires g.0 <= g.1 < |ops|
    ensures out == OneHunk(HunkOf(ops, g))
  {
    var s := if g.0 < CTX then 0 else g.0 - CTX;
    var e := if g.1 + CTX + 1 > |ops| then |ops| else g.1 + CTX + 1;
    var aStart, bStart := CountSides(ops[..s], 1, 1);
    var aCount, bCount := CountSides(ops[s..e], 0, 0);
    var body := PrintBody(ops[s..e]);
    out := [Header(Hunk(aStart, aCount, bStart, bCount, ops[s..e]))] + body;
  }

  lemma {:induction false} HunkLinesAppend(hs: seq<Hunk>, h: Hunk)
    ensures HunkLines(hs + [h]) == HunkLines(hs) + OneHunk(h)
  {
    if hs == [] {
      assert hs + [h] == [h];
      assert HunkLines([h]) == OneHunk(h) + HunkLines([]);
    } else {
      HunkLinesAppend(hs[1..], h);
      assert (hs + [h])[1..] == hs[1..] + [h];
      AppendAssociates(OneHunk(hs[0]), HunkLines(hs[1..]), OneHunk(h));
    }
  }

  lemma AppendAssociates(x: seq<string>, y: seq<string>, z: seq<string>)
    ensures x + (y + z) == x + y + z
  {}

  lemma {:induction false} HunksOfAppend(ops: seq<Op>, gs: seq<(nat, nat)>, g: (nat, nat))
    requires forall i :: 0 <= i < |gs| ==> gs[i].0 <= gs[i].1 < |ops|
    requires g.0 <= g.1 < |ops|
    ensures HunksOf(ops, gs + [g]) == HunksOf(ops, gs) + [HunkOf(ops, g)]
  {
    if gs == [] {
      assert gs + [g] == [g];
    } else {
      HunksOfAppend(ops, gs[1..], g);
      assert (gs + [g])[1..] == gs[1..] + [g];
    }
  }

  lemma HunksOfPrefix(ops: seq<Op>, gs: seq<(nat, nat)>, k: nat)
    requires forall i :: 0 <= i < |gs| ==> gs[i].0 <= gs[i].1 < |ops|
    requires k < |gs|
    ensures HunksOf(ops, gs[..k + 1]) == HunksOf(ops, gs[..k]) + [HunkOf(ops, gs[k])]
  {
    TakeNext(gs, k);
    HunksOfAppend(ops, gs[..k], gs[k]);
  }

  method PrintHunks(ops: seq<Op>, groups: seq<(nat, nat)>) returns (out: seq<string>)
    requires forall i :: 0 <= i < |groups| ==> groups[i].0 <= groups[i].1 < |ops|
    ensures out == HunkLines(HunksOf(ops, groups))
  {
    out := [];
    for k := 0 to |groups|
      invariant out == HunkLines(HunksOf(ops, groups[..k]))
    {
      var printed := PrintHunk(ops, groups[k]);
      HunksOfPrefix(ops, groups, k);
      HunkLinesAppend(HunksOf(ops, groups[..k]), HunkOf(ops, groups[k]));
      out := out + printed;
    }
    assert groups[..|groups|] == groups;
  }

  method UnifiedDiff(oldText: string, newText: string, oldLabel: string, newLabel: string) returns (out: seq<string>)
    ensures out == DiffLines(ScriptHunks(Script(Lines(oldText), Lines(newText))), oldLabel, newLabel)
  {
    var a, b := Lines(oldText), Lines(newText);
    var ops := DiffOps(a, b);
    var groups := GroupChanges(ops);
    GroupsCover(ops);
    CoversInRange(ops, 0, groups);
    if |groups| == 0 {
      return [];
    }
    var printed := PrintHunks(ops, groups);
    out := ["--- " + oldLabel, "+++ " + newLabel] + printed;
  }
}
