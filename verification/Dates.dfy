/** The French calendar checks: the eight-character date test, and the order of the due date
    and the issue date. */
module Dates {
  import opened Wrappers
  import opened Decimal

  // ---- The test, as the style sheet evaluates it ----

  /** `number()` on a text of digits; a digit of another script gives NaN. Other texts never
      pass the pattern, so their number does not matter. */
  function Number(s: string): (r: Option<nat>) { if s != [] && AllDigits(s) then Some(NatOf(s)) else None }

  predicate Between(lo: char, c: char, hi: char) { lo <= c <= hi }

  /** The pattern for AAAAMMJJ; `nd` is the class that `\d` stands for. */
  predicate Shaped(nd: char -> bool, s: string) {
    && |s| == 8 && s[0] == '2' && s[1] == '0' && nd(s[2]) && nd(s[3])
    && ((s[4] == '0' && Between('1', s[5], '9')) || (s[4] == '1' && Between('0', s[5], '2')))
    && ((s[6] == '0' && Between('1', s[7], '9')) || (Between('1', s[6], '2') && nd(s[7]))
        || (s[6] == '3' && Between('0', s[7], '1')))
  }

  predicate IsLeap(year: Option<nat>) {
    year.Some? && ((year.value % 4 == 0 && year.value % 100 != 0) || year.value % 400 == 0)
  }

  function MaxDay(month: Option<nat>, leap: bool): (n: nat) {
    if month.None? then 0
    else if month.value in {1, 3, 5, 7, 8, 10, 12} then 31
    else if month.value in {4, 6, 9, 11} then 30
    else if month.value == 2 then (if leap then 29 else 28)
    else 0
  }

  function Part(s: string, from: nat, to: nat): (r: string)
    requires from <= to
  {
    if |s| <= from then [] else if |s| <= to then s[from..] else s[from..to]
  }

  predicate IsValidDate(nd: char -> bool, date: string) {
    var short := Part(date, 0, 8);
    var year, month, day := Number(Part(short, 0, 4)), Number(Part(short, 4, 6)), Number(Part(short, 6, 8));
    Shaped(nd, short) && day.Some? && day.value <= MaxDay(month, IsLeap(year))
  }

  // ---- The Gregorian calendar, by counting days ----

  /** Days up to the given one, with the year taken to begin in March. */
  function DayNumber(y: nat, m: nat, d: nat): (n: int)
    requires y >= 1
  {
    var y' := if m <= 2 then y - 1 else y;
    var m' := (m + 9) % 12;
    365 * y' + LeapDays(y') + (153 * m' + 2) / 5 + d
  }

  function NextMonth(y: nat, m: nat): (r: (nat, nat)) { if m == 12 then (y + 1, 1) else (y, m + 1) }

  /** The day exists: it comes before the first of the next month. */
  predicate Real(y: nat, m: nat, d: nat)
    requires y >= 1
  {
    var (y', m') := NextMonth(y, m);
    1 <= m <= 12 && 1 <= d && DayNumber(y, m, d) < DayNumber(y', m', 1)
  }

  // ---- The test decides the calendar ----

  predicate DigitsAt(s: string, from: nat, to: nat) { to <= |s| && forall i :: from <= i < to ==> '0' <= s[i] <= '9' }

  function DigitAt(s: string, i: nat): (n: nat)
    requires i < |s| && '0' <= s[i] <= '9'
  {
    (s[i] - '0') as nat
  }

  function TwoAt(s: string, i: nat): (n: nat)
    requires DigitsAt(s, i, i + 2)
  {
    10 * DigitAt(s, i) + DigitAt(s, i + 1)
  }

  function YearOf(s: string): (n: nat) requires DigitsAt(s, 0, 4) { 100 * TwoAt(s, 0) + TwoAt(s, 2) }
  function MonthOf(s: string): (n: nat) requires DigitsAt(s, 4, 6) { TwoAt(s, 4) }
  function DayOf(s: string): (n: nat) requires DigitsAt(s, 6, 8) { TwoAt(s, 6) }

  predicate RealIn2000s(s: string) {
    && DigitsAt(s, 0, 4) && DigitsAt(s, 4, 6) && DigitsAt(s, 6, 8)
    && 2000 <= YearOf(s) <= 2099 && Real(YearOf(s), MonthOf(s), DayOf(s))
  }

  /** A year written with a digit of another script counts as a common year. */
  predicate RealInCommonYear(nd: char -> bool, s: string) {
    && |s| >= 8 && s[0] == '2' && s[1] == '0' && nd(s[2]) && nd(s[3]) && !DigitsAt(s, 2, 4)
    && DigitsAt(s, 4, 6) && DigitsAt(s, 6, 8) && Real(2001, MonthOf(s), DayOf(s))
  }

  lemma {:induction false} NumberOfTwo(s: string, i: nat)
    requires i + 2 <= |s|
    ensures Number(s[i..i + 2]) == if DigitsAt(s, i, i + 2) then Some(TwoAt(s, i)) else None
  {
    var t := s[i..i + 2];
    if DigitsAt(s, i, i + 2) {
      assert t[..1][..0] == [];
      assert NatOf(t[..1]) == DigitAt(s, i);
      assert NatOf(t) == NatOf(t[..1]) * 10 + DigitAt(s, i + 1);
    } else {
      assert s[i] == t[0] && s[i + 1] == t[1];
    }
  }

  lemma {:induction false} NumberOfYear(s: string)
    requires |s| >= 4
    ensures Number(s[..4]) == if DigitsAt(s, 0, 4) then Some(YearOf(s)) else None
  {
    var t := s[..4];
    NumberOfTwo(s, 0);
    if DigitsAt(s, 0, 4) {
      assert t[..3][..2] == s[0..2];
      assert NatOf(t[..3]) == NatOf(s[0..2]) * 10 + DigitAt(s, 2);
      assert NatOf(t) == NatOf(t[..3]) * 10 + DigitAt(s, 3);
    } else {
      var i :| 0 <= i < 4 && !('0' <= s[i] <= '9');
      assert t[i] == s[i];
    }
  }

  lemma {:induction false} StepDown(y: nat, k: nat)
    requires y >= 1 && k >= 1
    ensures y / k - (y - 1) / k == if y % k == 0 then 1 else 0
  {
    var q := (y - 1) / k;
    assert y - 1 == q * k + (y - 1) % k;
    if (y - 1) % k == k - 1 {
      Quotient(y, k, q + 1, 0);
    } else {
      Quotient(y, k, q, (y - 1) % k + 1);
    }
  }

  lemma {:induction false} Quotient(y: nat, k: nat, q: nat, r: nat)
    requires k >= 1 && r < k && y == q * k + r
    ensures y / k == q && y % k == r
  {
    var d := y / k - q;
    assert y == (y / k) * k + y % k;
    assert d * k == r - y % k;
    assert d >= 1 ==> d * k >= k;
    assert d <= -1 ==> d * k + k <= 0;
  }

  lemma {:induction false} Multiples(y: nat)
    ensures y % 100 == 0 ==> y % 4 == 0
    ensures y % 400 == 0 ==> y % 100 == 0
  {
    if y % 100 == 0 {
      Quotient(y, 4, 25 * (y / 100), 0);
    }
    if y % 400 == 0 {
      Quotient(y, 100, 4 * (y / 400), 0);
    }
  }

  /** The leap days counted up to a year. */
  function LeapDays(y: nat): (n: int) { y / 4 - y / 100 + y / 400 }

  lemma {:induction false} LeapStep(y: nat)
    requires y >= 1
    ensures LeapDays(y) - LeapDays(y - 1) == if IsLeap(Some(y)) then 1 else 0
  {
    StepDown(y, 4);
    StepDown(y, 100);
    StepDown(y, 400);
    Multiples(y);
    LeapSum(y / 4, (y - 1) / 4, y % 4, y / 100, (y - 1) / 100, y % 100, y / 400, (y - 1) / 400, y % 400);
  }

  lemma {:induction false} LeapSum(a: int, a': int, r: nat, b: int, b': int, s: nat, c: int, c': int, t: nat)
    requires a - a' == (if r == 0 then 1 else 0) && b - b' == (if s == 0 then 1 else 0)
    requires c - c' == (if t == 0 then 1 else 0) && (t == 0 ==> s == 0) && (s == 0 ==> r == 0)
    ensures (a - b + c) - (a' - b' + c') == if (r == 0 && s != 0) || t == 0 then 1 else 0
  {
  }

  /** Days before the first of a month, in a year that begins in March. */
  function Before(m: nat): (n: nat) { (153 * ((m + 9) % 12) + 2) / 5 }

  lemma {:induction false} MonthTable(m: nat)
    requires 1 <= m <= 12
    ensures m != 2 ==> Before(if m == 12 then 1 else m + 1) - Before(m) == MaxDay(Some(m), false)
    ensures Before(3) == 0 && Before(2) == 337
    ensures m != 2 ==> MaxDay(Some(m), true) == MaxDay(Some(m), false)
  {
  }

  /** The lengths of the months, from the day count. */
  lemma {:induction false} MonthLength(y: nat, m: nat, d: nat)
    requires y >= 1 && 1 <= m <= 12
    ensures Real(y, m, d) <==> 1 <= d <= MaxDay(Some(m), IsLeap(Some(y)))
  {
    MonthTable(m);
    LeapStep(y);
    var (y', m') := NextMonth(y, m);
    assert m != 2 ==> DayNumber(y', m', 1) - DayNumber(y, m, d) == Before(m') + 1 - Before(m) - d;
    hide IsLeap, Before, LeapDays;
  }

  lemma {:induction false} ShapedDigits(nd: char -> bool, s: string)
    requires DigitClass(nd) && |s| >= 8
    ensures Shaped(nd, s[..8]) && DigitsAt(s, 6, 8) <==>
            && s[0] == '2' && s[1] == '0' && nd(s[2]) && nd(s[3])
            && DigitsAt(s, 4, 6) && 1 <= MonthOf(s) <= 12 && DigitsAt(s, 6, 8) && 1 <= DayOf(s) <= 31
  {
  }

  lemma {:induction false} IsValidDateAt(nd: char -> bool, s: string)
    requires |s| >= 8
    ensures IsValidDate(nd, s) <==>
            && Shaped(nd, s[..8]) && DigitsAt(s, 6, 8)
            && DayOf(s) <= MaxDay(if DigitsAt(s, 4, 6) then Some(MonthOf(s)) else None,
                                  IsLeap(if DigitsAt(s, 0, 4) then Some(YearOf(s)) else None))
  {
    var short := s[..8];
    assert Part(s, 0, 8) == short && Part(short, 0, 4) == s[..4];
    assert Part(short, 4, 6) == s[4..6] && Part(short, 6, 8) == s[6..8];
    NumberOfYear(s);
    NumberOfTwo(s, 4);
    NumberOfTwo(s, 6);
    hide Number, Shaped, MaxDay, IsLeap;
  }

  lemma {:induction false} YearIn2000s(s: string)
    requires DigitsAt(s, 0, 4)
    ensures 2000 <= YearOf(s) <= 2099 <==> s[0] == '2' && s[1] == '0'
  {
  }

  /** The test accepts exactly the real dates of the years 2000 to 2099 in the first eight
      characters, and, where the year has a digit of another script, the dates that a common
      year would have. */
  lemma {:induction false} AcceptsExactly(nd: char -> bool, s: string)
    requires DigitClass(nd)
    ensures IsValidDate(nd, s) <==> RealIn2000s(s) || RealInCommonYear(nd, s)
  {
    if |s| >= 8 {
      hide Shaped, IsValidDate, Real, DayOf, MonthOf, YearOf, MaxDay, IsLeap;
      ShapedDigits(nd, s);
      IsValidDateAt(nd, s);
      if DigitsAt(s, 0, 4) {
        YearIn2000s(s);
      }
      if DigitsAt(s, 4, 6) && DigitsAt(s, 6, 8) && 1 <= MonthOf(s) <= 12 {
        NoYearIsCommon(MonthOf(s));
        if DigitsAt(s, 0, 4) && YearOf(s) >= 1 {
          MonthLength(YearOf(s), MonthOf(s), DayOf(s));
        }
        MonthLength(2001, MonthOf(s), DayOf(s));
      }
      RealMonths();
    }
  }

  lemma {:induction false} NoYearIsCommon(m: nat)
    requires 1 <= m <= 12
    ensures IsLeap(None) == IsLeap(Some(2001)) && MaxDay(Some(m), false) <= 31 && MaxDay(Some(m), true) <= 31
  {
  }

  lemma {:induction false} RealMonths()
    ensures forall y: nat, m: nat, d: nat :: y >= 1 && Real(y, m, d) ==> 1 <= m <= 12 && 1 <= d
  {
  }

  /** So a digit of another script in the year is enough for a date that is not one of these:
      the fifteenth of June, with any such digit in the third place, is accepted. */
  lemma {:induction false} OtherScript(nd: char -> bool, c: char)
    requires DigitClass(nd) && nd(c) && !('0' <= c <= '9')
    ensures IsValidDate(nd, ['2', '0', c, '5', '0', '6', '1', '5'])
    ensures !RealIn2000s(['2', '0', c, '5', '0', '6', '1', '5'])
  {
    var s := ['2', '0', c, '5', '0', '6', '1', '5'];
    assert s[2] == c && s[3] == '5' && nd('5');
    MonthLength(2001, 6, 15);
    hide Real, IsValidDate;
    AcceptsExactly(nd, s);
  }

  // ---- The due date and the issue date ----

  /** `lt` on strings, by code point. */
  predicate Less(s: string, t: string) {
    t != [] && (s == [] || s[0] < t[0] || (s[0] == t[0] && Less(s[1..], t[1..])))
  }

  const PREPAID := ["386", "500", "503"]
  const SETTLED := ["B2", "S2", "M2"]

  /** BR-FR-CO-07 holds: there is no due date, the type or the framework is exempt, or the due
      date is not before the issue date; a comparison with a missing date is false. */
  predicate DueDateOk(due: Option<string>, issue: Option<string>, kind: Option<string>, framework: Option<string>) {
    || due.GetOr("") == ""
    || (kind.Some? && kind.value in PREPAID) || (framework.Some? && framework.value in SETTLED)
    || (issue.Some? && !Less(due.value, issue.value))
  }

  function Day(s: string): (n: int)
    requires RealIn2000s(s)
  {
    DayNumber(YearOf(s), MonthOf(s), DayOf(s))
  }

  /** On real dates the day count is ordered as year, month, day. */
  lemma {:induction false} DaysInOrder(y: nat, m: nat, d: nat, y': nat, m': nat, d': nat)
    requires 1 <= y && 1 <= y' && Real(y, m, d) && Real(y', m', d')
    requires y < y' || (y == y' && (m < m' || (m == m' && d < d')))
    ensures DayNumber(y, m, d) < DayNumber(y', m', d')
  {
    var (y1, m1) := NextMonth(y, m);
    if (y, m) != (y', m') {
      FirstsInOrder(y1, m1, y', m');
    }
  }

  lemma {:induction false} FirstsInOrder(y: nat, m: nat, y': nat, m': nat)
    requires 1 <= y && 1 <= y' && 1 <= m <= 12 && 1 <= m' <= 12 && (y < y' || (y == y' && m <= m'))
    ensures DayNumber(y, m, 1) <= DayNumber(y', m', 1)
    decreases 12 * (y' - y) + m' - m
  {
    if (y, m) != (y', m') {
      var (y1, m1) := NextMonth(y, m);
      MonthLength(y, m, 1);
      hide DayNumber;
      FirstsInOrder(y1, m1, y', m');
    }
  }

  lemma {:induction false} LessAt(s: string, t: string, k: nat)
    requires k < |s| && k < |t| && s[..k] == t[..k] && s[k] != t[k]
    ensures Less(s, t) <==> s[k] < t[k]
  {
    if k > 0 {
      assert s[0] == s[..k][0] == t[..k][0] == t[0];
      assert s[1..][..k - 1] == s[..k][1..] && t[1..][..k - 1] == t[..k][1..];
      LessAt(s[1..], t[1..], k - 1);
    }
  }

  lemma {:induction false} LessAfter(s: string, t: string, k: nat)
    requires k <= |s| && k <= |t| && s[..k] == t[..k]
    ensures Less(s, t) <==> Less(s[k..], t[k..])
  {
    if k > 0 {
      assert s[0] == s[..k][0] == t[..k][0] == t[0];
      assert s[1..][..k - 1] == s[..k][1..] && t[1..][..k - 1] == t[..k][1..];
      LessAfter(s[1..], t[1..], k - 1);
      assert s[1..][k - 1..] == s[k..] && t[1..][k - 1..] == t[k..];
    }
  }

  lemma {:induction false} FieldsInOrder(s: string, t: string, k: nat)
    requires DigitsAt(s, 0, 4) && DigitsAt(s, 4, 6) && DigitsAt(s, 6, 8)
    requires DigitsAt(t, 0, 4) && DigitsAt(t, 4, 6) && DigitsAt(t, 6, 8)
    requires k < 8 && (forall i :: 0 <= i < k ==> s[i] == t[i]) && s[k] < t[k]
    ensures || YearOf(s) < YearOf(t)
            || (YearOf(s) == YearOf(t)
                && (MonthOf(s) < MonthOf(t) || (MonthOf(s) == MonthOf(t) && DayOf(s) < DayOf(t))))
  {
    assert DigitAt(s, k) < DigitAt(t, k);
    assert forall i :: 0 <= i < k ==> DigitAt(s, i) == DigitAt(t, i);
  }

  lemma {:induction false} SameDay(s: string, t: string)
    requires RealIn2000s(s) && |t| >= 8 && s[..8] == t[..8]
    ensures RealIn2000s(t) && Day(s) == Day(t)
  {
    assert forall i :: 0 <= i < 8 ==> s[i] == s[..8][i] == t[..8][i] == t[i];
    hide Real, DayNumber;
  }

  /** Two dates that differ first at the character `k` are ordered by it. */
  lemma {:induction false} FirstDifference(s: string, t: string, k: nat)
    requires RealIn2000s(s) && RealIn2000s(t) && k < 8 && s[..k] == t[..k] && s[k] < t[k]
    ensures Day(s) < Day(t)
  {
    assert forall i :: 0 <= i < k ==> s[i] == s[..k][i] == t[..k][i] == t[i];
    hide Real, DayNumber;
    FieldsInOrder(s, t, k);
    hide YearOf, MonthOf, DayOf;
    DaysInOrder(YearOf(s), MonthOf(s), DayOf(s), YearOf(t), MonthOf(t), DayOf(t));
  }

  lemma {:induction false} CommonPrefix(s: string, t: string, n: nat) returns (k: nat)
    requires n <= |s| && n <= |t|
    ensures k <= n && s[..k] == t[..k] && (k < n ==> s[k] != t[k])
  {
    k := 0;
    while k < n && s[k] == t[k]
      invariant k <= n && s[..k] == t[..k]
    {
      k := k + 1;
    }
  }

  /** On real dates of these years the comparison of texts is the order of days, and then the
      order of whatever follows the eight characters. */
  lemma {:induction false} TextOrderIsDayOrder(s: string, t: string)
    requires RealIn2000s(s) && RealIn2000s(t)
    ensures Less(s, t) <==> Day(s) < Day(t) || (Day(s) == Day(t) && Less(s[8..], t[8..]))
  {
    var k := CommonPrefix(s, t, 8);
    hide Less, Real, DayNumber, Day, YearOf, MonthOf, DayOf;
    if k == 8 {
      SameDay(s, t);
      LessAfter(s, t, 8);
    } else {
      LessAt(s, t, k);
      hide RealIn2000s;
      if s[k] < t[k] {
        FirstDifference(s, t, k);
      } else {
        FirstDifference(t, s, k);
      }
    }
  }

  /** With both dates real and eight characters long, BR-FR-CO-07 fires exactly on an
      invoice that is not exempt and falls due on an earlier day than it is issued. */
  lemma {:induction false} DueDateByDay(due: string, issue: string, kind: Option<string>, framework: Option<string>)
    requires RealIn2000s(due) && RealIn2000s(issue) && |due| == |issue| == 8
    ensures DueDateOk(Some(due), Some(issue), kind, framework) <==>
            || kind == Some("386") || kind == Some("500") || kind == Some("503")
            || framework == Some("B2") || framework == Some("S2") || framework == Some("M2")
            || Day(due) >= Day(issue)
  {
    TextOrderIsDayOrder(due, issue);
    Exempt(kind, framework);
    hide PREPAID, SETTLED, Day, Less;
  }

  /** The exempt types and frameworks. */
  lemma {:induction false} Exempt(kind: Option<string>, framework: Option<string>)
    ensures (kind.Some? && kind.value in PREPAID) <==> kind == Some("386") || kind == Some("500") || kind == Some("503")
    ensures (framework.Some? && framework.value in SETTLED)
       <==> framework == Some("B2") || framework == Some("S2") || framework == Some("M2")
  {
  }

  /** Without a due date the rule holds; with one, and without an issue date to compare it with,
      only an exempt invoice passes. */
  lemma {:induction false} MissingDates(due: string, issue: Option<string>, kind: Option<string>, framework: Option<string>)
    ensures DueDateOk(None, issue, kind, framework) && DueDateOk(Some(""), issue, kind, framework)
    ensures due != "" ==>
      (DueDateOk(Some(due), None, kind, framework) <==>
         || kind == Some("386") || kind == Some("500") || kind == Some("503")
         || framework == Some("B2") || framework == Some("S2") || framework == Some("M2"))
  {
    Exempt(kind, framework);
    hide PREPAID, SETTLED;
  }

  /** With anything after the eight characters of the issue date, a due date on the same day
      counts as late. */
  lemma {:induction false} LateOnTheSameDay(date: string, more: string)
    requires RealIn2000s(date) && |date| == 8 && more != ""
    ensures RealIn2000s(date + more) && Day(date) == Day(date + more)
    ensures !DueDateOk(Some(date), Some(date + more), None, None)
  {
    assert (date + more)[..8] == date[..8];
    SameDay(date, date + more);
    hide RealIn2000s, Day;
    LessAfter(date, date + more, 8);
    assert date[8..] == [] && (date + more)[8..] == more;
  }
}
