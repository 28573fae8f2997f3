/** The texts that the number reader and the French decimal rules accept, on any input. */
module DecimalText {
  import opened Wrappers
  import opened Decimal

  /** A sign, digits, and possibly a dot and more digits. */
  function Spelled(neg: bool, i: string, f: Option<string>): (s: string) {
    Sign(neg) + i + (if f.Some? then "." + f.value else "")
  }

  predicate NoDot(s: string) { '.' !in s }

  lemma {:induction false} SplitWhole(i: string)
    requires NoDot(i)
    ensures SplitDot(i) == (i, None)
  {
    if i != [] {
      SplitWhole(i[1..]);
      assert [i[0]] + i[1..] == i;
    }
  }

  lemma {:induction false} SplitSpelled(i: string, f: Option<string>)
    requires NoDot(i)
    ensures SplitDot(Spelled(false, i, f)) == (i, f)
  {
    if f.Some? {
      SplitAt(i, f.value);
      assert Spelled(false, i, f) == i + "." + f.value;
    } else {
      SplitWhole(i);
      assert Spelled(false, i, f) == i;
    }
  }

  /** What comes after the sign, and what is at the ends. */
  lemma {:induction false} Signed(neg: bool, i: string, f: Option<string>)
    ensures var s, t := Spelled(neg, i, f), Spelled(false, i, f);
            && (neg ==> s != [] && s[0] == '-' && s[1..] == t) && (!neg ==> s == t)
            && (t != [] ==> t[0] == (if i != [] then i[0] else '.'))
            && (t != [] ==> t[|t| - 1] == (if f.Some? && f.value != [] then f.value[|f.value| - 1]
                                           else if f.Some? then '.' else i[|i| - 1]))
            && (t == [] <==> i == [] && f.None?)
  {
    var tail := if f.Some? then "." + f.value else "";
    assert Spelled(neg, i, f) == Sign(neg) + (i + tail) && Spelled(false, i, f) == i + tail;
  }

  /** Every text is spelled so in one way. */
  lemma {:induction false} Unsplit(s: string)
    ensures var (i, f) := SplitDot(s); NoDot(i) && s == Spelled(false, i, f)
  {
    if s != [] {
      if s[0] == '.' {
        assert s == "." + s[1..];
      } else {
        Unsplit(s[1..]);
        var (i, f) := SplitDot(s[1..]);
        assert s == [s[0]] + s[1..];
        assert ([s[0]] + i) + (if f.Some? then "." + f.value else "") == [s[0]] + (i + (if f.Some? then "." + f.value else ""));
      }
    }
  }

  lemma {:induction false} LengthWithoutDots(neg: bool, i: string, f: Option<string>)
    requires NoDot(i) && (f.Some? ==> NoDot(f.value))
    ensures |DropDots(Spelled(neg, i, f))| == (if neg then 1 else 0) + |i| + (if f.Some? then |f.value| else 0)
  {
    DropNothing(i);
    DropNothing(Sign(neg));
    DropDotsThen(Sign(neg), i);
    DropDotsThen(Sign(neg) + i, if f.Some? then "." + f.value else "");
    if f.Some? {
      DropNothing(f.value);
      DropDotsThen(".", f.value);
      assert DropDots(".") == [] by {
        assert "."[1..] == [];
      }
    }
  }

  lemma {:induction false} DropNothing(s: string)
    requires NoDot(s)
    ensures DropDots(s) == s
  {
    if s != [] {
      DropNothing(s[1..]);
      assert [s[0]] + s[1..] == s;
    }
  }

  predicate AllIn(nd: char -> bool, s: string) { forall k :: 0 <= k < |s| ==> nd(s[k]) }

  /** A decimal rule on a text in its parts: so many digits at most before and after the dot, and
      so many characters in all, the minus included and the dot not. */
  lemma {:induction false} FitsExactly(
      nd: char -> bool, neg: bool, i: string, f: Option<string>, signed: bool, whole: nat, places: nat, total: nat)
    requires DigitClass(nd) && NoDot(i) && (neg ==> signed) && (signed && !neg ==> i == [] || i[0] != '-')
    ensures FitsDecimal(nd, Spelled(neg, i, f), signed, whole, places, total) <==>
            && 1 <= |i| <= whole && AllIn(nd, i)
            && (f.Some? ==> 1 <= |f.value| <= places && AllIn(nd, f.value))
            && (if neg then 1 else 0) + |i| + (if f.Some? then |f.value| else 0) <= total
  {
    var s := Spelled(neg, i, f);
    SplitSpelled(i, f);
    Signed(neg, i, f);
    if f.None? || AllIn(nd, f.value) {
      LengthWithoutDots(neg, i, f);
    }
    hide DropDots, SplitDot, Spelled;
  }

  /** The amount rule: a minus is allowed and counted; 19 digits, two of them after the dot. */
  lemma {:induction false} AmountRule(nd: char -> bool, neg: bool, i: string, f: Option<string>)
    requires DigitClass(nd) && NoDot(i) && (!neg ==> i == [] || i[0] != '-')
    ensures IsDecimal19_2(nd, Spelled(neg, i, f)) <==>
            && 1 <= |i| <= 19 && AllIn(nd, i) && (f.Some? ==> 1 <= |f.value| <= 2 && AllIn(nd, f.value))
            && (if neg then 1 else 0) + |i| + (if f.Some? then |f.value| else 0) <= 19
  {
    hide FitsDecimal, Spelled;
    FitsExactly(nd, neg, i, f, true, 19, 2, 19);
  }

  /** The rate rule: no minus; four digits, two of them after the dot. */
  lemma {:induction false} RateRule(nd: char -> bool, i: string, f: Option<string>)
    requires DigitClass(nd) && NoDot(i)
    ensures IsPercent4_2Positive(nd, Spelled(false, i, f)) <==>
            && 1 <= |i| <= 4 && AllIn(nd, i) && (f.Some? ==> 1 <= |f.value| <= 2 && AllIn(nd, f.value))
            && |i| + (if f.Some? then |f.value| else 0) <= 4
  {
    hide FitsDecimal, Spelled;
    FitsExactly(nd, false, i, f, false, 4, 2, 4);
  }

  /** The price rule: no minus; 19 digits, six of them after the dot. */
  lemma {:induction false} PriceRule(nd: char -> bool, i: string, f: Option<string>)
    requires DigitClass(nd) && NoDot(i)
    ensures IsDecimal19_6Positive(nd, Spelled(false, i, f)) <==>
            && 1 <= |i| <= 19 && AllIn(nd, i) && (f.Some? ==> 1 <= |f.value| <= 6 && AllIn(nd, f.value))
            && |i| + (if f.Some? then |f.value| else 0) <= 19
  {
    hide FitsDecimal, Spelled;
    FitsExactly(nd, false, i, f, false, 19, 6, 19);
  }

  // ---- White space ----

  predicate White(c: char) { c == ' ' || c == '\t' || c == '\n' || c == '\r' }

  predicate Blank(s: string) { forall k :: 0 <= k < |s| ==> White(s[k]) }

  predicate Tight(s: string) { s == [] || (!White(s[0]) && !White(s[|s| - 1])) }

  lemma {:induction false} LeftTrimmed(a: string, s: string)
    requires Blank(a) && (s == [] || !IsSpace(s[0]))
    ensures TrimLeft(a + s) == s
  {
    if a == [] {
      assert a + s == s;
    } else {
      assert (a + s)[1..] == a[1..] + s && (a + s)[0] == a[0];
      LeftTrimmed(a[1..], s);
    }
  }

  lemma {:induction false} RightTrimmed(s: string, b: string)
    requires Blank(b) && (s == [] || !IsSpace(s[|s| - 1]))
    ensures TrimRight(s + b) == s
    decreases |b|
  {
    if b == [] {
      assert s + b == s;
    } else {
      var n := |b| - 1;
      assert (s + b)[..|s + b| - 1] == s + b[..n] && (s + b)[|s + b| - 1] == b[n];
      RightTrimmed(s, b[..n]);
    }
  }

  lemma {:induction false} AllBlank(a: string)
    requires Blank(a)
    ensures TrimLeft(a) == []
  {
    LeftTrimmed(a, []);
    assert a + [] == a;
  }

  /** Trimming takes off what is blank at both ends and nothing else. */
  lemma {:induction false} TrimIs(a: string, s: string, b: string)
    requires Blank(a) && Blank(b) && Tight(s)
    ensures Trim(a + s + b) == s
  {
    if s == [] {
      AllBlank(a + b);
      assert a + s + b == a + b && TrimRight([]) == [];
    } else {
      assert a + s + b == a + (s + b) && (s + b)[0] == s[0];
      LeftTrimmed(a, s + b);
      RightTrimmed(s, b);
    }
  }

  /** And what remains is tight: so trimming is determined. */
  lemma {:induction false} TrimLeaves(s: string) returns (a: string, b: string)
    ensures Tight(Trim(s)) && Blank(a) && Blank(b) && s == a + Trim(s) + b
  {
    a := Left(s);
    b := Right(TrimLeft(s));
  }

  lemma {:induction false} Left(s: string) returns (a: string)
    ensures Blank(a) && s == a + TrimLeft(s) && (TrimLeft(s) == [] || !IsSpace(TrimLeft(s)[0]))
  {
    a := [];
    if s != [] && IsSpace(s[0]) {
      var r := Left(s[1..]);
      a := [s[0]] + r;
      assert s == [s[0]] + s[1..];
    }
  }

  lemma {:induction false} Right(s: string) returns (b: string)
    ensures Blank(b) && s == TrimRight(s) + b && (TrimRight(s) == [] || !IsSpace(TrimRight(s)[|TrimRight(s)| - 1]))
    ensures TrimRight(s) != [] ==> TrimRight(s)[0] == s[0]
  {
    b := [];
    if s != [] && IsSpace(s[|s| - 1]) {
      var r := Right(s[..|s| - 1]);
      b := r + [s[|s| - 1]];
      assert s == s[..|s| - 1] + [s[|s| - 1]];
    }
  }

  // ---- The number reader ----

  predicate IsNumber(i: string, f: Option<string>) {
    AllDigits(i) && (f.Some? ==> AllDigits(f.value)) && i + f.GetOr("") != ""
  }

  function NumberOf(i: string, f: Option<string>): (x: real)
    requires IsNumber(i, f)
  {
    NatOf(i) as real + NatOf(f.GetOr("")) as real / Pow10(|f.GetOr("")|) as real
  }

  lemma {:induction false} Unblank(neg: bool, i: string, f: Option<string>)
    requires IsNumber(i, f)
    ensures var s := Spelled(neg, i, f);
            s != [] && Tight(s) && (s[0] == '-' <==> neg) && (if neg then s[1..] else s) == Spelled(false, i, f)
  {
    Signed(neg, i, f);
    hide Spelled;
  }

  lemma {:induction false} ReadSpelled(neg: bool, i: string, f: Option<string>)
    requires IsNumber(i, f)
    ensures ReadTrimmed(Spelled(neg, i, f)) == Some(Float(neg, NumberOf(i, f)))
  {
    SplitSpelled(i, f);
    Unblank(neg, i, f);
    hide Spelled, SplitDot, Pow10, NatOf, Tight;
  }

  /** A number: digits, with a dot or without, at least one of them, between blanks. */
  lemma {:induction false} NumberRead(a: string, neg: bool, i: string, f: Option<string>, b: string)
    requires Blank(a) && Blank(b) && IsNumber(i, f)
    ensures ReadNumber(a + Spelled(neg, i, f) + b) == Some(Float(neg, NumberOf(i, f)))
  {
    hide Spelled, Trim, ReadTrimmed, Tight, Blank, NumberOf, IsNumber;
    Unblank(neg, i, f);
    TrimIs(a, Spelled(neg, i, f), b);
    ReadSpelled(neg, i, f);
  }

  lemma {:induction false} SpelledSigned(neg: bool, i: string, f: Option<string>, t: string)
    requires t == Sign(neg) + Spelled(false, i, f)
    ensures t == Spelled(neg, i, f)
  {
  }

  /** And nothing else is one. */
  lemma {:induction false} OnlyNumbers(s: string) returns (a: string, neg: bool, i: string, f: Option<string>, b: string)
    requires ReadNumber(s).Some?
    ensures Blank(a) && Blank(b) && IsNumber(i, f) && s == a + Spelled(neg, i, f) + b
  {
    hide Trim, Tight, Blank, Parts;
    a, b := TrimLeaves(s);
    var t := Trim(s);
    neg := t != [] && t[0] == '-';
    var body := if neg then t[1..] else t;
    assert t == Sign(neg) + body;
    Unsplit(body);
    i, f := SplitDot(body).0, SplitDot(body).1;
    hide Spelled, SplitDot;
    SpelledSigned(neg, i, f, t);
  }
}
