/** Python floats as exact decimals, their `%.2f` text, the number reader of XPath 1.0,
    and the French limits on the length of a decimal. */
module Decimal {
  import opened Wrappers

  type Magnitude = r: real | 0.0 <= r witness 0.0

  /** A finite float: a sign bit and an exact magnitude. Zero has both signs, and both print. */
  datatype Float = Float(neg: bool, mag: Magnitude)

  const ZERO := Float(false, 0.0)
  const ONE := Float(false, 1.0)

  function Value(f: Float): (r: real) {
    if f.neg then 0.0 - f.mag else f.mag
  }

  function Add(a: Float, b: Float): (r: Float)
    ensures Value(r) == Value(a) + Value(b)
  {
    var v := Value(a) + Value(b);
    if v == 0.0 then Float(a.neg && b.neg, 0.0) else if v < 0.0 then Float(true, -v) else Float(false, v)
  }

  function Mul(a: Float, b: Float): (r: Float)
    ensures Value(r) == Value(a) * Value(b)
    ensures r.neg <==> a.neg != b.neg
  {
    Float(a.neg != b.neg, a.mag * b.mag)
  }

  // ---- Rounding and printing ----

  /** The nearest integer, ties to even: how `%.2f` rounds an exact value. */
  function RoundHalfEven(x: Magnitude): (n: nat)
    ensures x - 0.5 <= n as real <= x + 0.5
    ensures x == x.Floor as real ==> n == x.Floor
    ensures (n as real == x - 0.5 || n as real == x + 0.5) ==> n % 2 == 0
  {
    var f := x.Floor;
    var d := x - f as real;
    if d < 0.5 || (d == 0.5 && f % 2 == 0) then f else f + 1
  }

  function Cents(f: Float): (n: nat) { RoundHalfEven(f.mag * 100.0) }

  function Rounded(f: Float): (r: Float) { Float(f.neg, Cents(f) as real / 100.0) }

  function Digit(d: nat): (c: char)
    requires d < 10
    ensures '0' <= c <= '9'
  {
    '0' + d as char
  }

  function Digits(n: nat): (s: string)
    ensures s != [] && AllDigits(s)
  {
    if n < 10 then [Digit(n)] else Digits(n / 10) + [Digit(n % 10)]
  }

  predicate AllDigits(s: string) { forall i :: 0 <= i < |s| ==> '0' <= s[i] <= '9' }

  function Pair(n: nat): (s: string) { [Digit(n / 10 % 10), Digit(n % 10)] }

  function Sign(neg: bool): (s: string) { if neg then "-" else "" }

  /** `"%.2f" % f` */
  function Print2(f: Float): (s: string)
    ensures s != []
  {
    Sign(f.neg) + Digits(Cents(f) / 100) + "." + Pair(Cents(f))
  }

  lemma {:induction false} RoundedOnce(f: Float)
    ensures Cents(Rounded(f)) == Cents(f)
    ensures Print2(Rounded(f)) == Print2(f)
  {
    var c := Cents(f);
    assert c as real / 100.0 * 100.0 == c as real;
    assert (c as real).Floor == c;
  }

  lemma {:induction false} RoundedNear(f: Float)
    ensures -0.005 <= Value(Rounded(f)) - Value(f) <= 0.005
  {
    var c := Cents(f) as real;
    assert f.mag * 100.0 - 0.5 <= c <= f.mag * 100.0 + 0.5;
  }

  // ---- Reading ----

  function NatOf(s: string): (n: nat)
    requires AllDigits(s)
  {
    if s == [] then 0 else NatOf(s[..|s| - 1]) * 10 + (s[|s| - 1] - '0') as nat
  }

  function Pow10(k: nat): (n: nat)
    ensures n >= 1
  {
    if k == 0 then 1 else 10 * Pow10(k - 1)
  }

  predicate IsSpace(c: char) { c == ' ' || c == '\t' || c == '\n' || c == '\r' }

  function TrimLeft(s: string): (r: string) {
    if s != [] && IsSpace(s[0]) then TrimLeft(s[1..]) else s
  }

  function TrimRight(s: string): (r: string) {
    if s != [] && IsSpace(s[|s| - 1]) then TrimRight(s[..|s| - 1]) else s
  }

  function Trim(s: string): (r: string) { TrimRight(TrimLeft(s)) }

  /** The text before the first dot, and what follows it when there is one. */
  function SplitDot(s: string): (r: (string, Option<string>)) {
    if s == [] then ([], None)
    else if s[0] == '.' then ([], Some(s[1..]))
    else var (i, f) := SplitDot(s[1..]); ([s[0]] + i, f)
  }

  function Parts(i: string, frac: string): (r: Magnitude)
    requires AllDigits(i) && AllDigits(frac)
  {
    NatOf(i) as real + NatOf(frac) as real / Pow10(|frac|) as real
  }

  function ReadUnsigned(s: string): (r: Option<Magnitude>) {
    var (i, f) := SplitDot(s);
    var frac := f.GetOr([]);
    if AllDigits(i) && AllDigits(frac) && i + frac != [] then
      Some(Parts(i, frac))
    else
      None
  }

  function ReadTrimmed(s: string): (r: Option<Float>) {
    var neg := s != [] && s[0] == '-';
    match ReadUnsigned(if neg then s[1..] else s)
    case Some(mag) => Some(Float(neg, mag))
    case None => None
  }

  /** `number()` of section 4.4 of XPath 1.0: digits with an optional dot, an optional
      leading minus and surrounding spaces; None is NaN. */
  function ReadNumber(s: string): (r: Option<Float>) { ReadTrimmed(Trim(s)) }

  lemma {:induction false} NatOfDigits(n: nat)
    ensures NatOf(Digits(n)) == n
  {
    if n >= 10 {
      NatOfDigits(n / 10);
      var s := Digits(n);
      assert s[..|s| - 1] == Digits(n / 10);
    } else {
      assert Digits(n)[..0] == [];
    }
  }

  lemma {:induction false} SplitAt(i: string, f: string)
    requires '.' !in i
    ensures SplitDot(i + "." + f) == (i, Some(f))
  {
    if i == [] {
      assert i + "." + f == "." + f;
      assert (i + "." + f)[1..] == f;
    } else {
      assert (i + "." + f)[1..] == i[1..] + "." + f;
      SplitAt(i[1..], f);
      assert [i[0]] + i[1..] == i;
    }
  }

  lemma {:induction false} TrimNothing(s: string)
    requires s != [] && !IsSpace(s[0]) && !IsSpace(s[|s| - 1])
    ensures Trim(s) == s
  {
  }

  lemma {:induction false} NatOfPair(n: nat)
    ensures NatOf(Pair(n)) == n % 100
  {
    var s := Pair(n);
    assert s[..1] == [Digit(n / 10 % 10)] && s[..1][..0] == [];
    assert NatOf(s[..1]) == n / 10 % 10;
    TensAndUnits(n);
  }

  lemma {:induction false} TensAndUnits(n: nat)
    ensures n / 10 % 10 * 10 + n % 10 == n % 100
  {
  }

  lemma {:induction false} ReadParts(i: string, frac: string)
    requires AllDigits(i) && AllDigits(frac) && i != [] && frac != []
    ensures ReadUnsigned(i + "." + frac) == Some(Parts(i, frac))
  {
    SplitAt(i, frac);
  }

  lemma {:induction false} PartsOfCents(c: nat)
    ensures Parts(Digits(c / 100), Pair(c)) == c as real / 100.0
  {
    NatOfDigits(c / 100);
    NatOfPair(c);
    hide Digits, Pair, NatOf;
    assert Pow10(2) == 10 * Pow10(1) == 100;
    assert c == c / 100 * 100 + c % 100;
  }

  /** Reading a printed amount gives the amount rounded to the cent, sign included. */
  lemma {:induction false} ReadPrinted(f: Float)
    ensures ReadNumber(Print2(f)) == Some(Rounded(f))
  {
    var c := Cents(f);
    var i, frac, s := Digits(c / 100), Pair(c), Print2(f);
    assert AllDigits(frac);
    assert s == Sign(f.neg) + i + "." + frac;
    hide Cents, Digits, Pair, Parts, Print2, ReadUnsigned;
    assert !IsSpace(s[0]) && !IsSpace(s[|s| - 1]);
    TrimNothing(s);
    assert (if s[0] == '-' then s[1..] else s) == i + "." + frac;
    ReadParts(i, frac);
    PartsOfCents(c);
  }

  // ---- The French limits on decimals ----

  /** `\d` matches any Unicode decimal digit; `nd` is that class. */
  ghost predicate DigitClass(nd: char -> bool) {
    && (forall c: char :: '0' <= c <= '9' ==> nd(c))
    && !nd('.') && !nd('-')
  }

  predicate Run(nd: char -> bool, s: string, most: nat) {
    1 <= |s| <= most && forall i :: 0 <= i < |s| ==> nd(s[i])
  }

  function DropDots(s: string): (r: string) {
    if s == [] then [] else (if s[0] == '.' then [] else [s[0]]) + DropDots(s[1..])
  }

  /** `^[-]?\d{1,whole}(\.\d{1,places})?$` with at most `total` characters besides dots;
      the minus only where `signed`. */
  predicate FitsDecimal(nd: char -> bool, s: string, signed: bool, whole: nat, places: nat, total: nat) {
    var body := if signed && s != [] && s[0] == '-' then s[1..] else s;
    var (i, f) := SplitDot(body);
    Run(nd, i, whole) && (f.Some? ==> Run(nd, f.value, places)) && |DropDots(s)| <= total
  }

  predicate IsDecimal19_2(nd: char -> bool, s: string) { FitsDecimal(nd, s, true, 19, 2, 19) }
  predicate IsDecimal19_6Positive(nd: char -> bool, s: string) { FitsDecimal(nd, s, false, 19, 6, 19) }
  predicate IsPercent4_2Positive(nd: char -> bool, s: string) { FitsDecimal(nd, s, false, 4, 2, 4) }

  lemma {:induction false} DropDotsThen(a: string, b: string)
    ensures DropDots(a + b) == DropDots(a) + DropDots(b)
  {
    if a == [] {
      assert a + b == b;
    } else {
      assert (a + b)[1..] == a[1..] + b;
      DropDotsThen(a[1..], b);
    }
  }

  lemma {:induction false} DropDotsDigits(s: string)
    requires AllDigits(s)
    ensures DropDots(s) == s
  {
    if s != [] {
      DropDotsDigits(s[1..]);
    }
  }

  lemma {:induction false} DigitsLength(n: nat, k: nat)
    requires k >= 1
    ensures |Digits(n)| <= k <==> n < Pow10(k)
  {
    if n < 10 {
      assert Pow10(k) == 10 * Pow10(k - 1);
    } else if k == 1 {
      assert Pow10(1) == 10 * Pow10(0) == 10;
    } else {
      DigitsLength(n / 10, k - 1);
      assert Pow10(k) == 10 * Pow10(k - 1);
    }
  }

  /** The characters of a printed amount, dot aside. */
  lemma {:induction false} PrintedLength(f: Float)
    ensures |DropDots(Print2(f))| == |Digits(Cents(f) / 100)| + (if f.neg then 3 else 2)
  {
    var i, frac := Digits(Cents(f) / 100), Pair(Cents(f));
    DropDotsThen(Sign(f.neg) + i + ".", frac);
    DropDotsThen(Sign(f.neg) + i, ".");
    DropDotsThen(Sign(f.neg), i);
    DropDotsDigits(i);
    DropDotsDigits(frac);
  }

  /** The two digit runs of a printed amount, as the pattern meets them. */
  lemma {:induction false} PrintedRuns(f: Float, signed: bool)
    ensures var s := Print2(f);
            var body := if signed && s[0] == '-' then s[1..] else s;
            SplitDot(body) == (Sign(f.neg && !signed) + Digits(Cents(f) / 100), Some(Pair(Cents(f))))
  {
    var i, frac, s := Digits(Cents(f) / 100), Pair(Cents(f)), Print2(f);
    var left := Sign(f.neg && !signed) + i;
    SplitAt(left, frac);
    assert (if signed && s[0] == '-' then s[1..] else s) == left + "." + frac;
  }

  /** A printed amount fits exactly when its sign is allowed and its whole part leaves
      room for two decimals and, when negative, for the minus. */
  lemma {:induction false} PrintedFits(nd: char -> bool, f: Float, signed: bool, whole: nat, places: nat, total: nat)
    requires DigitClass(nd) && places >= 2 && 4 <= total <= whole + 2
    ensures FitsDecimal(nd, Print2(f), signed, whole, places, total)
       <==> (f.neg ==> signed) && Cents(f) / 100 < Pow10(total - (if f.neg then 3 else 2))
  {
    PrintedLength(f);
    PrintedRuns(f, signed);
    DigitsLength(Cents(f) / 100, total - (if f.neg then 3 else 2));
    var left := Sign(f.neg && !signed) + Digits(Cents(f) / 100);
    if f.neg && !signed {
      assert left[0] == '-';
    }
  }

  /** The 19-position amount rule on a printed amount: below 10^17 when non-negative and,
      since the minus is counted, below 10^16 in magnitude when negative. */
  lemma {:induction false} PrintedAmountRule(nd: char -> bool, f: Float)
    requires DigitClass(nd)
    ensures IsDecimal19_2(nd, Print2(f)) <==> Rounded(f).mag < Pow10(if f.neg then 16 else 17) as real
  {
    hide FitsDecimal, Print2, Pow10, Cents;
    PrintedFits(nd, f, true, 19, 2, 19);
    CentsBelow(f, Pow10(if f.neg then 16 else 17));
  }

  /** The 4-position rate rule on a printed rate: no minus, not even on a rate that rounds
      to zero, and below 100.00 once rounded. */
  lemma {:induction false} PrintedRateRule(nd: char -> bool, f: Float)
    requires DigitClass(nd)
    ensures IsPercent4_2Positive(nd, Print2(f)) <==> !f.neg && Rounded(f).mag < 100.0
  {
    PrintedFits(nd, f, false, 4, 2, 4);
    assert Pow10(2) == 10 * Pow10(1) == 100;
    CentsBelow(f, 100);
  }

  /** A tenth of a cent below zero rounds to nothing, prints its minus and fails. */
  lemma {:induction false} MinusZeroFails(nd: char -> bool)
    requires DigitClass(nd)
    ensures var f := Float(true, 0.001); Cents(f) == 0 && !IsPercent4_2Positive(nd, Print2(f))
  {
    assert 0.001 * 100.0 == 0.1 && 0.1.Floor == 0;
    PrintedRateRule(nd, Float(true, 0.001));
  }

  /** The 19-position price rule on a printed price. */
  lemma {:induction false} PrintedPriceRule(nd: char -> bool, f: Float)
    requires DigitClass(nd)
    ensures IsDecimal19_6Positive(nd, Print2(f)) <==> !f.neg && Rounded(f).mag < Pow10(17) as real
  {
    PrintedFits(nd, f, false, 19, 6, 19);
    CentsBelow(f, Pow10(17));
  }

  lemma {:induction false} CentsBelow(f: Float, b: nat)
    ensures Cents(f) / 100 < b <==> Rounded(f).mag < b as real
  {
    var c := Cents(f);
    assert c / 100 < b <==> c < b * 100;
    assert c as real / 100.0 < b as real <==> c as real < b as real * 100.0;
  }
}
