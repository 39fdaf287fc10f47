/** Bandwidth texts (internal/ratelimit/ratelimit.go): `ParseBandwidth` multiplies in 64
    bits, `FormatBandwidth` prints the largest unit that fits. */
module Bandwidth {
  import opened Text

  const LIMIT: int := 0x100_0000_0000
  const TWO64: int := 0x1_0000_0000_0000_0000
  const TWO63: int := 0x8000_0000_0000_0000

  /** What a 64-bit product is. */
  function Wrap64(x: int): (v: int)
    ensures -TWO63 <= v < TWO63
  {
    (x + TWO63) % TWO64 - TWO63
  }

  predicate IsSpace(c: char) {
    c == ' ' || '\t' <= c <= '\r' || c == '\U{0085}' || c == '\U{00A0}'
  }

  function TrimLeft(s: string): string {
    if s != [] && IsSpace(s[0]) then TrimLeft(s[1..]) else s
  }

  function TrimRight(s: string): string {
    if s != [] && IsSpace(s[|s| - 1]) then TrimRight(s[..|s| - 1]) else s
  }

  function TrimSpace(s: string): string {
    TrimRight(TrimLeft(s))
  }

  predicate MeansUnlimited(s: string) {
    s == "" || s == "unlimited" || s == "0" || s == "none" || s == "-"
  }

  /** The units, in the order they are tried, with their multipliers. */
  const UNITS: seq<(string, int)> := [
    ("gbps", 1_000_000_000), ("mbps", 1_000_000), ("kbps", 1_000),
    ("gb", 8_000_000_000), ("mb", 8_000_000), ("kb", 8_000), ("bps", 1), ("", 1)]

  function UnitAt(s: string, i: nat): (u: nat)
    requires i < |UNITS|
    ensures u < |UNITS|
    decreases |UNITS| - i
  {
    if HasSuffix(s, UNITS[i].0) || i == |UNITS| - 1 then i else UnitAt(s, i + 1)
  }

  function Multiplier(s: string): int {
    UNITS[UnitAt(s, 0)].1
  }

  function NumberPart(s: string): string {
    TrimSpace(TrimSuffix(s, UNITS[UnitAt(s, 0)].0))
  }

  function Normal(s: string): string {
    TrimSpace(Lower(s))
  }

  /** `ParseBandwidth`; `None` is its error. */
  function ParseBandwidth(s: string): Option<int> {
    var t := Normal(s);
    if MeansUnlimited(t) then Some(0)
    else match Atoi(NumberPart(t))
      case None => None
      case Some(n) =>
        if n < 0 || n > LIMIT then None
        else
          var v := Wrap64(n * Multiplier(t));
          if v < 0 || v > LIMIT then None else Some(v)
  }

  /** What the text means: the exact product, refused above the limit. */
  function Meaning(s: string): Option<int> {
    var t := Normal(s);
    if MeansUnlimited(t) then Some(0)
    else match Atoi(NumberPart(t))
      case None => None
      case Some(n) => if n < 0 || n * Multiplier(t) > LIMIT then None else Some(n * Multiplier(t))
  }

  /** `FormatBandwidth`. */
  function FormatBandwidth(bps: int): string {
    if bps <= 0 then "unlimited"
    else if bps >= 1_000_000_000 && bps % 1_000_000_000 == 0 then Itoa(bps / 1_000_000_000) + "Gbps"
    else if bps >= 1_000_000 && bps % 1_000_000 == 0 then Itoa(bps / 1_000_000) + "Mbps"
    else if bps >= 1_000 then Itoa(bps / 1_000) + "Kbps"
    else Itoa(bps) + "bps"
  }

  // ---- where 64 bits are enough ----

  lemma Wrap64Exact(x: int)
    requires 0 <= x < TWO63
    ensures Wrap64(x) == x
  {}

  lemma Wrap64Large(x: int)
    requires x >= 0
    ensures Wrap64(x) == if x % TWO64 < TWO63 then x % TWO64 else x % TWO64 - TWO64
  {
    var q, r := x / TWO64, x % TWO64;
    assert x + TWO63 == q * TWO64 + (r + TWO63);
  }

  /** The number and the unit a text is read as. */
  predicate Reads(s: string, n: int, mult: int) {
    var t := Normal(s);
    !MeansUnlimited(t) && Atoi(NumberPart(t)) == Some(n) && Multiplier(t) == mult
  }

  /** A number up to the limit whose product overflows into the accepted range. */
  predicate WrapsAround(n: int, mult: int) {
    0 <= n <= LIMIT && n * mult >= TWO63 && n * mult % TWO64 <= LIMIT
  }

  lemma MultiplierPositive(t: string)
    ensures 1 <= Multiplier(t) <= 8_000_000_000
  {}

  /** A text is read as what it means exactly when its product does not wrap around into
      the accepted range. */
  lemma ParsesAsMeantIff(s: string, n: int, mult: int)
    requires Reads(s, n, mult)
    ensures ParseBandwidth(s) == Meaning(s) <==> !WrapsAround(n, mult)
  {
    MultiplierPositive(Normal(s));
    if n >= 0 {
      assert n * mult >= n by { GrowsBy(n, mult); }
      if n * mult < TWO63 { Wrap64Exact(n * mult); } else { Wrap64Large(n * mult); }
    }
  }

  lemma GrowsBy(n: int, mult: int)
    requires n >= 0 && mult >= 1
    ensures n * mult >= n
  {}

  lemma ProductBound(n: int, mult: int, max: int)
    requires 0 <= n <= LIMIT && 1 <= mult <= max
    ensures n * mult <= LIMIT * max
  {
    assert n * mult <= LIMIT * mult;
    assert LIMIT * mult <= LIMIT * max;
  }

  /** Every unit but the two giga ones is always read as meant. */
  lemma SmallUnitsExact(s: string, n: int, mult: int)
    requires Reads(s, n, mult) && mult <= 8_000_000
    ensures ParseBandwidth(s) == Meaning(s)
  {
    MultiplierPositive(Normal(s));
    if 0 <= n <= LIMIT { ProductBound(n, mult, 8_000_000); }
    ParsesAsMeantIff(s, n, mult);
  }

  /** The giga units are read as meant up to the last number whose product fits. */
  lemma GigaUnitsExact(s: string, n: int, mult: int)
    requires Reads(s, n, mult)
    requires (mult == 1_000_000_000 && n <= 9_223_372_036) || (mult == 8_000_000_000 && n <= 1_152_921_504)
    ensures ParseBandwidth(s) == Meaning(s)
  {
    ParsesAsMeantIff(s, n, mult);
  }

  // ---- printed texts ----

  predicate NoSpace(s: string) {
    forall i :: 0 <= i < |s| ==> !IsSpace(s[i])
  }

  lemma TrimNothing(s: string)
    requires NoSpace(s)
    ensures TrimSpace(s) == s
  {}

  lemma LowerDigits(digits: string, unit: string, lower: string)
    requires AllDigits(digits) && |unit| == |lower| && forall i :: 0 <= i < |unit| ==> LowerChar(unit[i]) == lower[i]
    ensures Lower(digits + unit) == digits + lower
  {
    var s := digits + unit;
    forall i | 0 <= i < |s| ensures LowerChar(s[i]) == (digits + lower)[i] {}
  }

  lemma SuffixHolds(digits: string, unit: string)
    ensures HasSuffix(digits + unit, unit) && TrimSuffix(digits + unit, unit) == digits
  {
    assert (digits + unit)[|digits|..] == unit && (digits + unit)[..|digits|] == digits;
  }

  lemma SuffixFails(s: string, unit: string, k: nat)
    requires k < |unit| && (|unit| <= |s| ==> s[|s| - |unit| + k] != unit[k])
    ensures !HasSuffix(s, unit)
  {
    if |unit| <= |s| { assert s[|s| - |unit|..][k] == s[|s| - |unit| + k]; }
  }

  /** The printed units, and the first letter that tells them apart. */
  lemma UnitOfPrinted(digits: string, u: nat)
    requires AllDigits(digits) && digits != [] && (u < 3 || u == 6)
    ensures UnitAt(digits + UNITS[u].0, 0) == u
  {
    var s := digits + UNITS[u].0;
    SuffixHolds(digits, UNITS[u].0);
    if u > 0 { SuffixFails(s, "gbps", 0); }
    if u > 1 { SuffixFails(s, "mbps", 0); }
    if u == 6 {
      SuffixFails(s, "kbps", 0);
      SuffixFails(s, "gb", 1);
      SuffixFails(s, "mb", 1);
      SuffixFails(s, "kb", 1);
      assert UnitAt(s, 6) == 6;
      assert UnitAt(s, 4) == UnitAt(s, 5) == UnitAt(s, 6);
      assert UnitAt(s, 2) == UnitAt(s, 3) == UnitAt(s, 4);
    }
  }

  lemma PrintedIsPlain(digits: string, u: nat)
    requires AllDigits(digits) && digits != [] && (u < 3 || u == 6)
    ensures NoSpace(digits + UNITS[u].0) && !MeansUnlimited(digits + UNITS[u].0)
  {
    var s := digits + UNITS[u].0;
    assert IsDigit(s[0]);
    assert |s| >= 4;
  }

  /** A number with a unit means its product. */
  lemma PrintedMeans(text: string, n: nat, unit: string, u: nat)
    requires (u < 3 || u == 6) && n <= MAX_INT64 && text == Itoa(n) + unit
    requires |unit| == |UNITS[u].0| && forall i :: 0 <= i < |unit| ==> LowerChar(unit[i]) == UNITS[u].0[i]
    ensures Reads(text, n, UNITS[u].1)
  {
    var digits := Itoa(n);
    var lower := digits + UNITS[u].0;
    LowerDigits(digits, unit, UNITS[u].0);
    PrintedIsPlain(digits, u);
    TrimNothing(lower);
    UnitOfPrinted(digits, u);
    SuffixHolds(digits, UNITS[u].0);
    TrimNothing(digits);
    AtoiItoa(n);
  }

  lemma ReadsGives(s: string, n: int, mult: int)
    requires Reads(s, n, mult) && n >= 0 && n * mult <= LIMIT
    ensures ParseBandwidth(s) == Some(n * mult)
  {
    MultiplierPositive(Normal(s));
    GrowsBy(n, mult);
    Wrap64Exact(n * mult);
  }

  lemma UnlimitedParses()
    ensures ParseBandwidth("unlimited") == Some(0)
  {
    var s := "unlimited";
    assert NoUpper(s);
    LowerFixed(s);
    assert NoSpace(s);
    TrimNothing(s);
  }

  lemma PrintedParses(text: string, n: nat, unit: string, u: nat, mult: int)
    requires (u < 3 || u == 6) && n <= LIMIT && text == Itoa(n) + unit && mult == UNITS[u].1 && n * mult <= LIMIT
    requires |unit| == |UNITS[u].0| && forall i :: 0 <= i < |unit| ==> LowerChar(unit[i]) == UNITS[u].0[i]
    ensures ParseBandwidth(text) == Some(n * mult)
  {
    PrintedMeans(text, n, unit, u);
    ReadsGives(text, n, mult);
  }

  lemma Rounds(b: int, size: int)
    requires b > 0 && size > 0
    ensures b / size >= 0 && b / size * size == b - b % size <= b
  {}

  /** One printed form read back. */
  lemma PrintedBack(b: int, n: nat, unit: string, lower: string, mult: int, u: nat)
    requires 0 < b <= LIMIT && mult > 0 && n == b / mult && (u < 3 || u == 6) && UNITS[u] == (lower, mult)
    requires |unit| == |lower| && forall i :: 0 <= i < |unit| ==> LowerChar(unit[i]) == lower[i]
    ensures ParseBandwidth(Itoa(n) + unit) == Some(b - b % mult)
  {
    Rounds(b, mult);
    GrowsBy(n, mult);
    PrintedParses(Itoa(n) + unit, n, unit, u, mult);
  }

  /** Which printed form it is. */
  lemma FormatsAs(b: int) returns (n: nat, unit: string, lower: string, mult: int, u: nat)
    requires b > 0
    ensures mult > 0 && n == b / mult && (u < 3 || u == 6) && UNITS[u] == (lower, mult)
    ensures |unit| == |lower| && forall i :: 0 <= i < |unit| ==> LowerChar(unit[i]) == lower[i]
    ensures FormatBandwidth(b) == Itoa(n) + unit
    ensures b - b % mult == if b < 1000 then b else b - b % 1000
  {
    if b >= 1_000_000_000 && b % 1_000_000_000 == 0 {
      unit, lower, mult, u := "Gbps", "gbps", 1_000_000_000, 0;
    } else if b >= 1_000_000 && b % 1_000_000 == 0 {
      unit, lower, mult, u := "Mbps", "mbps", 1_000_000, 1;
    } else if b >= 1_000 {
      unit, lower, mult, u := "Kbps", "kbps", 1_000, 2;
    } else {
      unit, lower, mult, u := "bps", "bps", 1, 6;
    }
    n := b / mult;
  }

  /** Printing and reading back loses nothing below 1000 bits, and at most the last three
      digits from there. */
  lemma FormatThenParse(b: int)
    requires b <= LIMIT
    ensures ParseBandwidth(FormatBandwidth(b)) == Some(if b <= 0 then 0 else if b < 1000 then b else b - b % 1000)
  {
    if b <= 0 {
      UnlimitedParses();
    } else {
      var n, unit, lower, mult, u := FormatsAs(b);
      PrintedBack(b, n, unit, lower, mult, u);
    }
  }

  /** A number of gigabits that is accepted as something else. */
  lemma GigabitsWrap()
    ensures var text := Itoa(18_446_744_074) + "gbps"; ParseBandwidth(text) == Some(290_448_384) && Meaning(text) == None
  {
    var text := Itoa(18_446_744_074) + "gbps";
    PrintedMeans(text, 18_446_744_074, "gbps", 0);
    Wrap64Large(18_446_744_074 * 1_000_000_000);
  }

  // ---- what each unit means ----

  /** Bits for a number of the unit: the byte units count eight for each. */
  function BitsPer(unit: string): int {
    if unit == "gbps" then 1_000_000_000
    else if unit == "mbps" then 1_000_000
    else if unit == "kbps" then 1_000
    else if unit == "gb" then 8 * 1_000_000_000
    else if unit == "mb" then 8 * 1_000_000
    else if unit == "kb" then 8 * 1_000
    else 1
  }

  predicate IsUnit(unit: string) {
    unit == "gbps" || unit == "mbps" || unit == "kbps" || unit == "gb" || unit == "mb" || unit == "kb" || unit == "bps" || unit == ""
  }

  lemma EndsInDigit(digits: string, unit: string)
    requires AllDigits(digits) && digits != [] && unit != "" && !IsDigit(unit[|unit| - 1])
    ensures !HasSuffix(digits, unit)
  {
    SuffixFails(digits, unit, |unit| - 1);
    assert IsDigit(digits[|digits| - 1]);
  }

  /** A number without a unit has none of them at its end. */
  lemma BareNumber(digits: string)
    requires AllDigits(digits) && digits != []
    ensures UnitAt(digits, 0) == 7
  {
    EndsInDigit(digits, "gbps");
    EndsInDigit(digits, "mbps");
    EndsInDigit(digits, "kbps");
    EndsInDigit(digits, "gb");
    EndsInDigit(digits, "mb");
    EndsInDigit(digits, "kb");
    EndsInDigit(digits, "bps");
    assert UnitAt(digits, 7) == 7;
    assert UnitAt(digits, 5) == UnitAt(digits, 6) == UnitAt(digits, 7);
    assert UnitAt(digits, 3) == UnitAt(digits, 4) == UnitAt(digits, 5);
    assert UnitAt(digits, 1) == UnitAt(digits, 2) == UnitAt(digits, 3);
  }

  lemma ByteUnit(digits: string, u: nat)
    requires AllDigits(digits) && digits != [] && 3 <= u <= 5
    ensures UnitAt(digits + UNITS[u].0, 0) == u
  {
    var s := digits + UNITS[u].0;
    SuffixHolds(digits, UNITS[u].0);
    SuffixFails(s, "gbps", 3);
    SuffixFails(s, "mbps", 3);
    SuffixFails(s, "kbps", 3);
    if u > 3 { SuffixFails(s, "gb", 0); }
    if u > 4 { SuffixFails(s, "mb", 0); }
    assert UnitAt(s, u) == u;
    assert UnitAt(s, 1) == UnitAt(s, 2) == UnitAt(s, 3);
    assert UnitAt(s, 3) == if u > 3 then UnitAt(s, 4) else 3;
    assert u > 4 ==> UnitAt(s, 4) == UnitAt(s, 5);
  }

  lemma UnitIndex(digits: string, unit: string) returns (u: nat)
    requires AllDigits(digits) && digits != [] && IsUnit(unit)
    ensures u < |UNITS| && UNITS[u] == (unit, BitsPer(unit)) && UnitAt(digits + unit, 0) == u
  {
    if unit == "gbps" { u := 0; UnitOfPrinted(digits, 0); }
    else if unit == "mbps" { u := 1; UnitOfPrinted(digits, 1); }
    else if unit == "kbps" { u := 2; UnitOfPrinted(digits, 2); }
    else if unit == "gb" { u := 3; ByteUnit(digits, 3); }
    else if unit == "mb" { u := 4; ByteUnit(digits, 4); }
    else if unit == "kb" { u := 5; ByteUnit(digits, 5); }
    else if unit == "bps" { u := 6; UnitOfPrinted(digits, 6); }
    else { u := 7; BareNumber(digits); assert digits + unit == digits; }
  }

  lemma WithUnitIsPlain(digits: string, unit: string)
    requires AllDigits(digits) && digits != [] && IsUnit(unit)
    ensures NoSpace(digits + unit) && NoSpace(digits) && Lower(digits + unit) == digits + unit
    ensures digits + unit != "0" ==> !MeansUnlimited(digits + unit)
  {
    var s := digits + unit;
    assert IsDigit(s[0]);
    assert NoUpper(unit);
    assert NoUpper(s);
    LowerFixed(s);
  }

  /** A number and a unit are read as that number of bits per unit, up to 2 to the 40th,
      as long as the product fits into 64 bits. */
  lemma NumberAndUnit(n: nat, unit: string)
    requires IsUnit(unit) && 0 < n <= MAX_INT64
    ensures Reads(Itoa(n) + unit, n, BitsPer(unit))
    ensures n * BitsPer(unit) <= 1_099_511_627_776 ==> ParseBandwidth(Itoa(n) + unit) == Some(n * BitsPer(unit))
    ensures 1_099_511_627_776 < n * BitsPer(unit) < TWO63 ==> ParseBandwidth(Itoa(n) + unit) == None
  {
    NumberRead(n, unit);
    ProductRead(Itoa(n) + unit, n, BitsPer(unit));
  }

  lemma NumberRead(n: nat, unit: string)
    requires IsUnit(unit) && 0 < n <= MAX_INT64
    ensures Reads(Itoa(n) + unit, n, BitsPer(unit))
  {
    var digits := Itoa(n);
    AtoiItoa(n);
    if digits + unit == "0" { assert digits == "0"; assert DigitsValue("0") == 0; DigitsOfItoa(n); }
    WithUnitIsPlain(digits, unit);
    TrimNothing(digits + unit);
    TrimNothing(digits);
    var u := UnitIndex(digits, unit);
    SuffixHolds(digits, unit);
  }

  lemma ProductRead(s: string, n: nat, mult: int)
    requires Reads(s, n, mult) && n > 0 && mult >= 1
    ensures n * mult <= 1_099_511_627_776 ==> ParseBandwidth(s) == Some(n * mult)
    ensures 1_099_511_627_776 < n * mult < TWO63 ==> ParseBandwidth(s) == None
  {
    GrowsBy(n, mult);
    if n * mult < TWO63 { Wrap64Exact(n * mult); }
  }

  /** The words for no limit, in any case. */
  lemma UnlimitedWords(s: string)
    requires Normal(s) == "" || Normal(s) == "unlimited" || Normal(s) == "0" || Normal(s) == "none" || Normal(s) == "-"
    ensures ParseBandwidth(s) == Some(0)
  {}

  /** What `strings.TrimSpace` drops, as far as single bytes go. */
  predicate IsBlank(c: char) {
    c in {' ', '\t', '\n', '\U{0B}', '\U{0C}', '\r', '\U{85}', '\U{A0}'}
  }

  lemma {:induction false} TrimsLeft(left: string, word: string)
    requires (forall i :: 0 <= i < |left| ==> IsBlank(left[i])) && word != "" && !IsSpace(word[0])
    ensures TrimLeft(left + word) == word
  {
    if left == "" {
      assert left + word == word;
    } else {
      assert (left + word)[1..] == left[1..] + word;
      TrimsLeft(left[1..], word);
    }
  }

  lemma {:induction false} TrimsRight(word: string, right: string)
    requires (forall i :: 0 <= i < |right| ==> IsBlank(right[i])) && word != "" && !IsSpace(word[|word| - 1])
    ensures TrimRight(word + right) == word
  {
    if right == "" {
      assert word + right == word;
    } else {
      var s := word + right;
      assert s[..|s| - 1] == word + right[..|right| - 1];
      TrimsRight(word, right[..|right| - 1]);
    }
  }

  /** Space around a text is dropped, and its case does not matter. */
  lemma SpaceAndCase(left: string, word: string, right: string)
    requires word != "" && NoSpace(word)
    requires forall i :: 0 <= i < |left| ==> IsBlank(left[i])
    requires forall i :: 0 <= i < |right| ==> IsBlank(right[i])
    ensures ParseBandwidth(left + word + right) == ParseBandwidth(Lower(word))
  {
    LowerHasNoSpace(word);
    LowerParts(left, word, right);
    TrimsLeft(left, Lower(word) + right);
    TrimsRight(Lower(word), right);
    LowerTwice(word);
    TrimNothing(Lower(word));
  }

  lemma LowerParts(left: string, word: string, right: string)
    requires forall i :: 0 <= i < |left| ==> IsBlank(left[i])
    requires forall i :: 0 <= i < |right| ==> IsBlank(right[i])
    ensures Lower(left + word + right) == left + (Lower(word) + right)
  {
    var s, t := left + word + right, left + (Lower(word) + right);
    forall i | 0 <= i < |s| ensures LowerChar(s[i]) == t[i] {}
  }

  lemma LowerTwice(word: string)
    ensures Lower(Lower(word)) == Lower(word)
  {
    forall i | 0 <= i < |word| ensures LowerChar(Lower(word)[i]) == Lower(word)[i] {}
  }

  lemma LowerHasNoSpace(word: string)
    requires NoSpace(word)
    ensures NoSpace(Lower(word)) && |Lower(word)| == |word|
  {
    forall i | 0 <= i < |word| ensures !IsSpace(Lower(word)[i]) { assert !IsSpace(word[i]); }
  }
}
