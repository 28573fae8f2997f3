/** The net total that the extractor falls back on when the declared one cannot be read. */
module NetTotal {
  import opened Wrappers
  import opened Decimal
  import opened Invoice
  import opened Xml
  import opened Template
  import opened Extractor
  import opened RoundTrip
  import Sample

  // ---- Sums in cents ----

  function SignedCents(f: Float): (n: int) { if f.neg then 0 - Cents(f) else Cents(f) }

  /** The line totals, each rounded to the cent, added up in cents. */
  function CentsSum(ls: seq<Line>): (n: int) {
    if ls == [] then 0 else CentsSum(ls[..|ls| - 1]) + SignedCents(ls[|ls| - 1].netTotal)
  }

  function FloatOf(cents: int): (f: Float) {
    if cents < 0 then Float(true, (-cents) as real / 100.0) else Float(false, cents as real / 100.0)
  }

  lemma {:induction false} CentsSumThen(a: seq<Line>, b: seq<Line>)
    ensures CentsSum(a + b) == CentsSum(a) + CentsSum(b)
    decreases |b|
  {
    if b == [] {
      assert a + b == a;
    } else {
      assert (a + b)[..|a + b| - 1] == a + b[..|b| - 1];
      CentsSumThen(a, b[..|b| - 1]);
    }
  }

  lemma {:induction false} AddCents(c: int, f: Float)
    ensures Add(FloatOf(c), Rounded(f)) == FloatOf(c + SignedCents(f))
  {
    var n := Cents(f);
    hide Cents;
    assert Value(Rounded(f)) == SignedCents(f) as real / 100.0;
    assert Value(FloatOf(c)) == c as real / 100.0;
    assert c as real / 100.0 + SignedCents(f) as real / 100.0 == (c + SignedCents(f)) as real / 100.0;
  }

  lemma {:induction false} RoundedSumIs(ls: seq<Line>, k: nat)
    requires k <= |ls|
    ensures RoundedSum(ls, k) == FloatOf(CentsSum(ls[..k]))
  {
    if k > 0 {
      RoundedSumIs(ls, k - 1);
      assert ls[..k][..k - 1] == ls[..k - 1];
      AddCents(CentsSum(ls[..k - 1]), ls[k - 1].netTotal);
    }
  }

  /** Amounts in whole cents print the same only when they are the same. */
  lemma {:induction false} PrintedCents(a: int, b: int)
    ensures Print2(FloatOf(a)) == Print2(FloatOf(b)) <==> a == b
  {
    WholeCents(a);
    WholeCents(b);
    ReadPrinted(FloatOf(a));
    ReadPrinted(FloatOf(b));
    hide Print2, ReadNumber, Rounded;
  }

  lemma {:induction false} WholeCents(a: int)
    ensures Rounded(FloatOf(a)) == FloatOf(a)
    ensures Cents(FloatOf(a)) == if a < 0 then -a else a
  {
    var n := if a < 0 then -a else a;
    assert n as real / 100.0 * 100.0 == n as real;
    assert (n as real).Floor == n;
  }

  // ---- The fallback ----

  /** The declared net total is missing or is no number. */
  predicate Undeclared(py: Python, m: Metadata) {
    m.amounts.taxBasisTotal == "" || py.read(m.amounts.taxBasisTotal).None?
  }

  /** The net total extracted from the rendered invoice. */
  function Net(py: Python, m: Metadata): (s: string) { ExtractOf(py, Render(m, py.repr)).totals.net }

  /** The sum of the lines that are extracted. */
  function KeptSum(ls: seq<Line>): (f: Float) { RoundedSum(ls, Kept(|ls|)) }

  /** The sum of all lines, each rounded to the cent, as text. */
  function FullNet(m: Metadata): (s: string) { Print2(FloatOf(CentsSum(m.lines))) }

  lemma {:induction false} ExpectedNet(py: Python, m: Metadata)
    requires Undeclared(py, m)
    ensures Expected(py, m).totals.net == Print2(KeptSum(m.lines))
  {
    hide Print2, RoundedSum, ExpectedSeller, ExpectedBuyer, ExpectedItems, Add;
  }

  lemma {:induction false} FallbackNet(py: Python, m: Metadata)
    requires Faithful(py, m) && Undeclared(py, m)
    ensures Net(py, m) == Print2(KeptSum(m.lines))
  {
    hide ExtractOf, Render, Faithful, Expected, Undeclared, Print2, KeptSum;
    ExtractRendered(py, m);
    ExpectedNet(py, m);
  }

  lemma {:induction false} FirstLinesSum(ls: seq<Line>)
    ensures Print2(KeptSum(ls)) == Print2(FloatOf(CentsSum(ls)))
       <==> |ls| <= MOST_LINES || CentsSum(ls[MOST_LINES..]) == 0
  {
    hide Print2, FloatOf, CentsSum, RoundedSum;
    var k := Kept(|ls|);
    RoundedSumIs(ls, k);
    PrintedCents(CentsSum(ls[..k]), CentsSum(ls));
    assert ls == ls[..k] + ls[k..];
    CentsSumThen(ls[..k], ls[k..]);
    assert |ls| <= MOST_LINES ==> ls[..k] == ls;
  }

  /** Without a declared net total, the extracted one is the sum of the lines exactly when there
      are ten lines at most, or the lines from the eleventh on add up to nothing. */
  lemma {:induction false} FallbackExactly(py: Python, m: Metadata)
    requires Faithful(py, m) && Undeclared(py, m)
    ensures Net(py, m) == FullNet(m)
       <==> |m.lines| <= MOST_LINES || CentsSum(m.lines[MOST_LINES..]) == 0
  {
    hide Net, KeptSum, Faithful, Undeclared, Print2, FloatOf, CentsSum;
    FallbackNet(py, m);
    FirstLinesSum(m.lines);
  }

  // ---- An invoice on which it fails ----

  /** Eleven lines of one euro, and no declared net total. */
  const ELEVEN := Sample.INVOICE.(lines := seq(11, _ => Sample.LineOf(ONE)))

  const READER := Python(ReadNumber, Print2)

  lemma {:induction false} SameLines(ls: seq<Line>)
    requires forall l :: l in ls ==> l.netTotal == ONE
    ensures CentsSum(ls) == 100 * |ls|
  {
    if ls != [] {
      assert Cents(ONE) == 100;
      SameLines(ls[..|ls| - 1]);
    }
  }

  lemma {:induction false} ElevenFaithful()
    ensures Faithful(READER, ELEVEN) && Undeclared(READER, ELEVEN)
  {
    hide Print2, ReadNumber;
    assert Rounded(ONE) == ONE;
    PlainReaderFaithful(ELEVEN);
  }

  /** Ten euros are extracted from an invoice of eleven. */
  lemma {:induction false} ElevenLines()
    ensures FullNet(ELEVEN) == Print2(Float(false, 11.0))
    ensures Net(READER, ELEVEN) == Print2(Float(false, 10.0)) != FullNet(ELEVEN)
  {
    hide Print2, Net, Faithful, Undeclared;
    ElevenFaithful();
    SameLines(ELEVEN.lines);
    SameLines(ELEVEN.lines[..10]);
    FallbackNet(READER, ELEVEN);
    RoundedSumIs(ELEVEN.lines, 10);
    PrintedCents(1000, 1100);
    assert FloatOf(1000) == Float(false, 10.0) && FloatOf(1100) == Float(false, 11.0);
  }
}
