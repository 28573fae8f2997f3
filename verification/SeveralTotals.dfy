/** Invoices with any number of header summations, as other programs may write them, and what
    the stylesheet's BR-CO-13 makes of them. */
module SeveralTotals {
  import opened Wrappers
  import opened Decimal
  import opened Invoice
  import opened Xml
  import opened Template
  import opened Landmarks
  import opened CoreRules
  import Sample

  const SUMMATION := M(SpecifiedTradeSettlementHeaderMonetarySummation)

  function SummationOf(total: string): (n: Node)
    ensures n.tag == SUMMATION && Plain(n.kids)
  {
    Section(SUMMATION, Text(LineTotalAmount, total, Nil))
  }

  /** One header summation for each declared total. */
  function Summations(totals: seq<string>): (r: Forest) {
    if totals == [] then Nil else Cons(SummationOf(totals[0]), Summations(totals[1..]))
  }

  function Header(totals: seq<string>): (n: Node) { Section(M(ApplicableHeaderTradeSettlement), Summations(totals)) }

  /** An invoice of the given lines that declares each of the totals. */
  function Declaring(ls: seq<Line>, repr: Float -> string, totals: seq<string>): (root: Node) {
    Group(CrossIndustryInvoice,
      One(Group(SupplyChainTradeTransaction, LineNodes(ls, repr, One(Header(totals), Nil))), Nil))
  }

  function NumbersOf(totals: seq<string>): (r: seq<Number>)
    ensures |r| == |totals|
  {
    if totals == [] then [] else [TextNumber(totals[0])] + NumbersOf(totals[1..])
  }

  lemma {:induction false} SummationsFree(totals: seq<string>, g: Mark)
    requires M(g) != SUMMATION
    ensures Free(Summations(totals), M(g))
  {
    hide SummationOf;
    if totals != [] {
      PlainIsFree(SummationOf(totals[0]).kids, g);
      SummationsFree(totals[1..], g);
    }
  }

  /** The searched totals are those declared, one for each summation. */
  lemma {:induction false} TotalsFound(totals: seq<string>, trail: seq<Tag>)
    requires SUMMATION !in trail
    ensures Numbers(Select(Summations(totals), trail, HeaderAmount(LineTotalAmount))) == NumbersOf(totals)
  {
    var steps := HeaderAmount(LineTotalAmount).steps;
    if totals != [] {
      var n, rest := SummationOf(totals[0]), Summations(totals[1..]);
      var later := Select(rest, trail, HeaderAmount(LineTotalAmount));
      PlainIsFree(n.kids, SpecifiedTradeSettlementHeaderMonetarySummation);
      assert steps[1..] == [P(LineTotalAmount)];
      Arrive(n, rest, trail, steps);
      var leaf := Leaf(LineTotalAmount, totals[0]);
      assert Found(n, steps) == [leaf];
      hide Select, SummationOf, ReadNumber;
      TotalsFound(totals[1..], trail);
      assert ([leaf] + later)[1..] == later && Numbers([leaf] + later) == [NumberOf(leaf)] + Numbers(later);
    }
  }

  lemma {:induction false} DeclaredFound(ls: seq<Line>, repr: Float -> string, totals: seq<string>)
    ensures Amount(Declaring(ls, repr, totals), LineTotalAmount) == NumbersOf(totals)
  {
    hide Select, LineNodes, Summations, Numbers;
    var p, g := HeaderAmount(LineTotalAmount), SpecifiedTradeSettlementHeaderMonetarySummation;
    assert SUMMATION in p.steps;
    var here := [] + [P(SupplyChainTradeTransaction)];
    var header := One(Header(totals), Nil);
    PassThrough(Group(SupplyChainTradeTransaction, LineNodes(ls, repr, header)), Nil, [], p, SUMMATION);
    PastLines(ls, repr, header, here, p, g);
    PassThrough(Header(totals), Nil, here, p, SUMMATION);
    TotalsFound(totals, here + [M(ApplicableHeaderTradeSettlement)]);
  }

  lemma {:induction false} LinesSummed(ls: seq<Line>, repr: Float -> string, totals: seq<string>)
    ensures Sum(Numbers(Select(Declaring(ls, repr, totals).kids, [], LINE_TOTALS))) == Some(PrintedSum(ls))
  {
    hide Select, LineNodes, Summations, Numbers, Sum, PrintedSum, FoundLines;
    var g := M(IncludedSupplyChainTradeLineItem);
    var header := One(Header(totals), Nil);
    assert LINE_TOTALS.steps[0] == g && g in LINE_TOTALS.steps;
    SummationsFree(totals, IncludedSupplyChainTradeLineItem);
    PassThrough(Group(SupplyChainTradeTransaction, LineNodes(ls, repr, header)), Nil, [], LINE_TOTALS, g);
    AlongLines(ls, repr, header, [] + [P(SupplyChainTradeTransaction)], LINE_TOTALS.steps);
    LineTotalsSum(ls, repr);
  }

  /** Whatever the lines and however many totals are declared, BR-CO-13 fires exactly when the
      first total is off and is not a larger one masked by a smaller one after it. */
  lemma {:induction false} FiresExactly(ls: seq<Line>, repr: Float -> string, totals: seq<string>)
    ensures var x, ys := Some(PrintedSum(ls)), NumbersOf(totals);
            Violated(Declaring(ls, repr, totals), BR_CO_13)
            <==> Apart(x, First(ys)) && !(Above(First(ys), x) && AboveSome(x, ys))
  {
    hide Select, Declaring, Numbers, Sum, PrintedSum, Gap, Fires, Apart, AboveSome, NumbersOf;
    LinesSummed(ls, repr, totals);
    DeclaredFound(ls, repr, totals);
    GapExactly(Some(PrintedSum(ls)), NumbersOf(totals));
  }

  /** So a second, smaller total silences the rule, however far off the first one is. */
  lemma {:induction false} SecondMasks(ls: seq<Line>, repr: Float -> string, first: Float, second: Float)
    requires Value(Rounded(first)) > PrintedSum(ls) > Value(Rounded(second))
    ensures !Violated(Declaring(ls, repr, [Print2(first), Print2(second)]), BR_CO_13)
  {
    hide Declaring, Violated, Print2, ReadNumber, PrintedSum, Rounded, Value;
    var totals := [Print2(first), Print2(second)];
    ReadPrinted(first);
    ReadPrinted(second);
    assert totals[1..] == [Print2(second)] && [Print2(second)][1..] == [];
    var ys := NumbersOf(totals);
    assert NumbersOf([Print2(second)]) == [TextNumber(Print2(second))];
    assert ys[0] == Some(Value(Rounded(first))) && ys[1] == Some(Value(Rounded(second)));
    assert Above(Some(PrintedSum(ls)), ys[1]);
    FiresExactly(ls, repr, totals);
  }

  /** An invoice of one euro that declares a million, and then nothing: no violation. */
  lemma {:induction false} MillionMasked(repr: Float -> string)
    ensures var million := Float(false, 1000000.0);
            !Violated(Declaring([Sample.LineOf(ONE)], repr, [Print2(million), Print2(ZERO)]), BR_CO_13)
  {
    var ls := [Sample.LineOf(ONE)];
    assert ls[1..] == [] && PrintedSum(ls) == 1.0;
    assert 1000000.0 * 100.0 == 100000000.0 && Rounded(Float(false, 1000000.0)) == Float(false, 1000000.0);
    assert Rounded(ZERO) == ZERO;
    SecondMasks(ls, repr, Float(false, 1000000.0), ZERO);
  }
}
