/** Decimal text with any number of places: the reader meets what the round trip asks of
    Python's float text for every finite decimal, and every float is one. */
module ExactText {
  import opened Wrappers
  import opened Decimal
  import opened Invoice
  import Extractor
  import RoundTrip

  /** The last `k` digits, zeros included. */
  function Fraction(n: nat, k: nat): (s: string)
    ensures |s| == k && AllDigits(s)
  {
    if k == 0 then "" else Fraction(n / 10, k - 1) + [Digit(n % 10)]
  }

  function Units(f: Float, k: nat): (n: nat) { (f.mag * Pow10(k) as real).Floor }

  /** The value has `k` decimal places at most. */
  predicate HasPlaces(f: Float, k: nat) { f.mag * Pow10(k) as real == Units(f, k) as real }

  function Whole(n: nat, p: nat): (q: nat)
    requires p >= 1
  {
    n / p
  }

  /** `n` units of the `k`-th place, as text. */
  function Places(n: nat, k: nat): (s: string) { Digits(Whole(n, Pow10(k))) + "." + Fraction(n, k) }

  /** The value with `k` places. */
  function PrintPlaces(f: Float, k: nat): (s: string) { Sign(f.neg) + Places(Units(f, k), k) }

  lemma {:induction false} Remainder(n: nat, d: nat, q: nat, r: nat)
    requires r < d && n == q * d + r
    ensures n % d == r
  {
    var e := n / d - q;
    assert n == (n / d) * d + n % d;
    assert e * d == r - n % d;
    assert e >= 1 ==> e * d >= d;
    assert e <= -1 ==> e * d + d <= 0;
  }

  lemma {:induction false} OneMoreDigit(n: nat, p: nat)
    requires p >= 1
    ensures n % (10 * p) == n / 10 % p * 10 + n % 10
  {
    var q, b := n / 10 / p, n / 10 % p;
    assert n / 10 == q * p + b;
    assert n == q * (10 * p) + (b * 10 + n % 10);
    Remainder(n, 10 * p, q, b * 10 + n % 10);
  }

  lemma {:induction false} NatOfFraction(n: nat, k: nat)
    ensures NatOf(Fraction(n, k)) == n % Pow10(k)
  {
    if k > 0 {
      var s := Fraction(n, k);
      assert s[..k - 1] == Fraction(n / 10, k - 1);
      NatOfFraction(n / 10, k - 1);
      OneMoreDigit(n, Pow10(k - 1));
    }
  }

  lemma {:induction false} WholeAndRest(n: nat, p: nat)
    requires p >= 1
    ensures Whole(n, p) as real + (n % p) as real / p as real == n as real / p as real
  {
    var q, r := Whole(n, p), n % p;
    assert n == q * p + r;
    RealQuotient(n as real, p as real, q as real, r as real);
  }

  lemma {:induction false} RealQuotient(n: real, p: real, q: real, r: real)
    requires p > 0.0 && n == q * p + r
    ensures q + r / p == n / p
  {
    assert n / p == q * p / p + r / p;
  }

  lemma {:induction false} PartsOfUnits(n: nat, k: nat)
    ensures Parts(Digits(Whole(n, Pow10(k))), Fraction(n, k)) == n as real / Pow10(k) as real
  {
    NatOfDigits(Whole(n, Pow10(k)));
    NatOfFraction(n, k);
    hide Digits, Fraction, NatOf, Pow10, Whole;
    WholeAndRest(n, Pow10(k));
  }

  lemma {:induction false} ReadUnits(neg: bool, n: nat, k: nat)
    requires k >= 1
    ensures ReadNumber(Sign(neg) + Places(n, k)) == Some(Float(neg, n as real / Pow10(k) as real))
  {
    var i, frac := Digits(Whole(n, Pow10(k))), Fraction(n, k);
    PartsOfUnits(n, k);
    hide Digits, Fraction, Parts, ReadUnsigned, Pow10, Whole;
    var s := Sign(neg) + Places(n, k);
    assert s == Sign(neg) + i + "." + frac;
    assert !IsSpace(s[0]) && !IsSpace(s[|s| - 1]);
    TrimNothing(s);
    assert (if s[0] == '-' then s[1..] else s) == i + "." + frac;
    ReadParts(i, frac);
  }

  lemma {:induction false} BackToValue(x: real, p: real, n: real)
    requires p > 0.0 && x * p == n
    ensures x == n / p
  {
  }

  /** A value with `k` places reads back from its text exactly. */
  lemma {:induction false} ReadPlaces(f: Float, k: nat)
    requires k >= 1 && HasPlaces(f, k)
    ensures ReadNumber(PrintPlaces(f, k)) == Some(f)
  {
    hide Pow10, Places, ReadNumber, Units;
    BackToValue(f.mag, Pow10(k) as real, Units(f, k) as real);
    ReadUnits(f.neg, Units(f, k), k);
  }

  /** What the round trip asks of float text is met for every invoice whose quantities have
      finitely many decimal places, as all floats do. */
  lemma {:induction false} PlacesFaithful(m: Metadata, k: nat)
    requires k >= 1 && forall l :: l in m.lines ==> HasPlaces(l.quantity, k)
    ensures RoundTrip.Faithful(Extractor.Python(ReadNumber, (f: Float) => PrintPlaces(f, k)), m)
  {
    forall f ensures ReadNumber(Print2(f)) == Some(Rounded(f)) {
      ReadPrinted(f);
    }
    forall l | l in m.lines ensures ReadNumber(PrintPlaces(l.quantity, k)) == Some(l.quantity) {
      ReadPlaces(l.quantity, k);
    }
    hide ReadNumber, Print2, HasPlaces;
  }
}
