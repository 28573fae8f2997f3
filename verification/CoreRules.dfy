/** The repository's own stylesheet of business rules, on any invoice tree and on rendered ones. */
module CoreRules {
  import opened Wrappers
  import opened Decimal
  import opened Invoice
  import opened Xml
  import opened Template
  import opened Landmarks
  import RoundTrip

  /** An XPath number; None is NaN. */
  type Number = Option<real>

  function NumberOf(n: Node): (r: Number) {
    match ReadNumber(n.text) case Some(f) => Some(Value(f)) case None => None
  }

  function Numbers(ns: seq<Node>): (r: seq<Number>)
    ensures |r| == |ns|
  {
    if ns == [] then [] else [NumberOf(ns[0])] + Numbers(ns[1..])
  }

  function Plus(a: Number, b: Number): (r: Number) {
    if a.Some? && b.Some? then Some(a.value + b.value) else None
  }

  function Minus(a: Number, b: Number): (r: Number) {
    if a.Some? && b.Some? then Some(a.value - b.value) else None
  }

  /** `sum()` of a node-set: NaN as soon as one node is not a number. */
  function Sum(xs: seq<Number>): (r: Number) {
    if xs == [] then Some(0.0) else Plus(xs[0], Sum(xs[1..]))
  }

  /** The number of a node-set: that of its first node, NaN when it is empty. */
  function First(xs: seq<Number>): (r: Number) { if xs == [] then None else xs[0] }

  predicate Above(x: Number, y: Number) { x.Some? && y.Some? && x.value > y.value }

  /** `number > node-set`: greater than some node of the set. */
  predicate AboveSome(x: Number, ys: seq<Number>) { exists i :: 0 <= i < |ys| && Above(x, ys[i]) }

  /** The difference as the stylesheet computes it: a test against the whole node-set, then
      a subtraction with its first node. */
  function Gap(x: Number, ys: seq<Number>): (r: Number) {
    if AboveSome(x, ys) then Minus(x, First(ys)) else Minus(First(ys), x)
  }

  const TOLERANCE := 0.01

  predicate Fires(gap: Number) { gap.Some? && gap.value > TOLERANCE }

  /** Apart by more than a cent, when both are numbers. */
  predicate Apart(x: Number, y: Number) {
    x.Some? && y.Some? && (x.value - y.value > 0.01 || y.value - x.value > 0.01)
  }

  /** Exactly when the test fires, for any number of nodes: the first node is off, and it is
      not a larger first node masked by a smaller one after it. */
  lemma {:induction false} GapExactly(x: Number, ys: seq<Number>)
    ensures Fires(Gap(x, ys)) <==> Apart(x, First(ys)) && !(Above(First(ys), x) && AboveSome(x, ys))
  {
    if Apart(x, First(ys)) && Above(x, First(ys)) {
      assert Above(x, ys[0]);
    }
  }

  /** With one header summation, or none, the test is the plain two-sided tolerance. */
  lemma {:induction false} GapOfOne(x: Number, ys: seq<Number>)
    requires |ys| <= 1
    ensures Fires(Gap(x, ys)) <==>
            |ys| == 1 && x.Some? && ys[0].Some? && (x.value - ys[0].value > 0.01 || ys[0].value - x.value > 0.01)
  {
    GapExactly(x, ys);
  }

  /** A second summation can silence the rule, however far off the first one is. */
  lemma {:induction false} GapMasked(x: real, first: real, second: real)
    requires first > x > second
    ensures !Fires(Gap(Some(x), [Some(first), Some(second)]))
  {
    assert Above(Some(x), [Some(first), Some(second)][1]);
  }

  // ---- The report ----

  datatype Rule = BR_FR_01 | BR_DE_01 | BR_CO_13 | BR_CO_16 | BR_FR_04

  predicate Fatal(r: Rule) { r != BR_FR_04 }

  const COUNTRY := Down([M(SellerTradeParty), P(PostalTradeAddress), P(CountryID)])
  const LEGAL_ID := Down([M(SellerTradeParty), P(SpecifiedLegalOrganization), P(ID)])
  const TAX_ID := Down([M(SellerTradeParty), S(SpecifiedTaxRegistration), P(ID)])
  const LINE_TOTALS := Down([M(IncludedSupplyChainTradeLineItem), S(SpecifiedLineTradeSettlement),
                             P(SpecifiedTradeSettlementLineMonetarySummation), P(LineTotalAmount)])
  const IBAN := Down([M(SpecifiedTradeSettlementPaymentMeans), P(PayeePartyCreditorFinancialAccount), P(IBANID)])

  function HeaderAmount(part: Part): (p: Path) {
    Down([M(SpecifiedTradeSettlementHeaderMonetarySummation), P(part)])
  }

  predicate SomeText(ns: seq<Node>, text: string) { exists i :: 0 <= i < |ns| && ns[i].text == text }

  predicate SomeScheme(ns: seq<Node>, scheme: string) {
    exists i :: 0 <= i < |ns| && SchemeID in ns[i].attrs && ns[i].attrs[SchemeID] == scheme
  }

  function Amount(root: Node, part: Part): (r: seq<Number>) { Numbers(Select(root.kids, [], HeaderAmount(part))) }

  predicate Violated(root: Node, r: Rule) {
    match r
    case BR_FR_01 =>
      var ids := Select(root.kids, [], LEGAL_ID);
      SomeText(Select(root.kids, [], COUNTRY), "FR") && !SomeScheme(ids, "0002") && !SomeScheme(ids, "0009")
    case BR_DE_01 =>
      var ids := Select(root.kids, [], TAX_ID);
      SomeText(Select(root.kids, [], COUNTRY), "DE") && !SomeScheme(ids, "FC") && !SomeScheme(ids, "VA")
    case BR_CO_13 =>
      Fires(Gap(Sum(Numbers(Select(root.kids, [], LINE_TOTALS))), Amount(root, LineTotalAmount)))
    case BR_CO_16 =>
      var due := Plus(First(Amount(root, TaxBasisTotalAmount)), First(Amount(root, TaxTotalAmount)));
      Fires(Gap(due, Amount(root, GrandTotalAmount)))
    case BR_FR_04 => Select(root.kids, [], IBAN) == []
  }

  /** The five rules on any document, with their paths, schemes and countries written out. */
  lemma {:induction false} AnyReport(root: Node)
    ensures var sellers := M(SellerTradeParty);
            var countries := Select(root.kids, [], Down([sellers, P(PostalTradeAddress), P(CountryID)]));
            var legal := Select(root.kids, [], Down([sellers, P(SpecifiedLegalOrganization), P(ID)]));
            var tax := Select(root.kids, [], Down([sellers, S(SpecifiedTaxRegistration), P(ID)]));
            && (Violated(root, BR_FR_01) <==>
                  (exists i :: 0 <= i < |countries| && countries[i].text == "FR") && NoneUnder(legal, "0002", "0009"))
            && (Violated(root, BR_DE_01) <==>
                  (exists i :: 0 <= i < |countries| && countries[i].text == "DE") && NoneUnder(tax, "FC", "VA"))
            && (Violated(root, BR_FR_04) <==>
                  Select(root.kids, [], Down([M(SpecifiedTradeSettlementPaymentMeans),
                                              P(PayeePartyCreditorFinancialAccount), P(IBANID)])) == [])
            && (Violated(root, BR_CO_13) <==>
                  Fires(Gap(Sum(Numbers(Select(root.kids, [], Down([
                              M(IncludedSupplyChainTradeLineItem), S(SpecifiedLineTradeSettlement),
                              P(SpecifiedTradeSettlementLineMonetarySummation), P(LineTotalAmount)])))),
                            HeaderNumbers(root, LineTotalAmount))))
            && (Violated(root, BR_CO_16) <==>
                  Fires(Gap(Plus(First(HeaderNumbers(root, TaxBasisTotalAmount)), First(HeaderNumbers(root, TaxTotalAmount))),
                            HeaderNumbers(root, GrandTotalAmount))))
            && Fatal(BR_FR_01) && Fatal(BR_DE_01) && Fatal(BR_CO_13) && Fatal(BR_CO_16) && !Fatal(BR_FR_04)
  {
    hide Select, Gap, Fires, Sum, Numbers;
  }

  function HeaderNumbers(root: Node, part: Part): (r: seq<Number>) {
    Numbers(Select(root.kids, [], Down([M(SpecifiedTradeSettlementHeaderMonetarySummation), P(part)])))
  }

  /** No node has one of the two schemes. */
  predicate NoneUnder(ns: seq<Node>, a: string, b: string) {
    forall i :: 0 <= i < |ns| ==> SchemeID !in ns[i].attrs || (ns[i].attrs[SchemeID] != a && ns[i].attrs[SchemeID] != b)
  }

  // ---- Rendered invoices ----

  function Country(s: Seller): (r: string) {
    if s.address.None? then "FR" else Or(s.address.value.country, "FR")
  }

  function Declared(m: Metadata): (r: string) { m.amounts.lineTotal.GetOr(m.amounts.taxBasisTotal) }

  function TextNumber(s: string): (r: Number) {
    match ReadNumber(s) case Some(f) => Some(Value(f)) case None => None
  }

  /** The sum of the line totals as printed, to the cent. */
  function PrintedSum(ls: seq<Line>): (r: real) {
    if ls == [] then 0.0 else Value(Rounded(ls[0].netTotal)) + PrintedSum(ls[1..])
  }

  /** The sum of the line totals as given. */
  function TrueSum(ls: seq<Line>): (r: real) {
    if ls == [] then 0.0 else Value(ls[0].netTotal) + TrueSum(ls[1..])
  }

  /** The rule, said on the metadata. */
  predicate Expected(m: Metadata, r: Rule) {
    match r
    case BR_FR_01 => Country(m.seller) == "FR" && !Given(m.seller.siret)
    case BR_DE_01 => Country(m.seller) == "DE" && !Given(m.seller.vatNumber) && !Given(m.seller.taxNumber)
    case BR_CO_13 => Apart(Some(PrintedSum(m.lines)), TextNumber(Declared(m)))
    case BR_CO_16 =>
      Apart(Plus(TextNumber(m.amounts.taxBasisTotal), TextNumber(m.amounts.taxTotal)), TextNumber(m.amounts.grandTotal))
    case BR_FR_04 => !Given(m.seller.iban)
  }

  lemma {:induction false} SellerSteps(m: Metadata, repr: Float -> string, a: Tag, b: Tag)
    requires !a.M? && !b.M?
    ensures Select(Render(m, repr).kids, [], Down([M(SellerTradeParty), a, b])) == Steps(SellerNode(m.seller).kids, [a, b])
  {
    hide Select, Render, SellerNode, Steps;
    ReachSeller(m, repr, [], [a, b]);
    assert [M(SellerTradeParty)] + [a, b] == [M(SellerTradeParty), a, b];
    assert [M(SellerTradeParty), a, b][1..] == [a, b];
  }

  lemma {:induction false} RenderedCountry(m: Metadata, repr: Float -> string, text: string)
    ensures SomeText(Select(Render(m, repr).kids, [], COUNTRY), text) <==> Country(m.seller) == text
  {
    hide Select, Render, SellerNode, SellerAddress;
    SellerSteps(m, repr, P(PostalTradeAddress), P(CountryID));
    RoundTrip.SellerKids(m.seller);
    TwoSteps(SellerNode(m.seller).kids, P(PostalTradeAddress), P(CountryID));
    CountryKids(m.seller);
  }

  lemma {:induction false} CountryKids(s: Seller)
    ensures Kids(SellerAddress(s.address).kids, P(CountryID)) == [Leaf(CountryID, Country(s))]
  {
    hide Plain, Bare, Free, Shallow;
  }

  lemma {:induction false} RenderedSiret(m: Metadata, repr: Float -> string)
    ensures Select(Render(m, repr).kids, [], LEGAL_ID)
         == if Given(m.seller.siret) then [LeafWith(ID, SchemeID, "0002", m.seller.siret.value)] else []
  {
    hide Select, Render, SellerNode;
    SellerSteps(m, repr, P(SpecifiedLegalOrganization), P(ID));
    SiretKids(m.seller);
    TwoSteps(SellerNode(m.seller).kids, P(SpecifiedLegalOrganization), P(ID));
  }

  lemma {:induction false} SiretKids(s: Seller)
    ensures Kids(SellerNode(s).kids, P(SpecifiedLegalOrganization)) == if Given(s.siret) then [Siret(s)] else []
  {
    hide Plain, Bare, Free, Shallow, SellerAddress, Contact, Siret, TaxRegistration;
  }

  function TaxId(scheme: string, o: Option<string>): (r: seq<Node>) {
    if Given(o) then [LeafWith(ID, SchemeID, scheme, o.value)] else []
  }

  lemma {:induction false} RenderedTaxIds(m: Metadata, repr: Float -> string)
    ensures Select(Render(m, repr).kids, [], TAX_ID) == TaxId("VA", m.seller.vatNumber) + TaxId("FC", m.seller.taxNumber)
  {
    hide Select, Render, SellerNode, TaxRegistration, StepsInto, Kids;
    var s := m.seller;
    SellerSteps(m, repr, S(SpecifiedTaxRegistration), P(ID));
    assert [S(SpecifiedTaxRegistration), P(ID)][1..] == [P(ID)];
    RoundTrip.SellerRegistrations(s);
    RegistrationId("VA", s.vatNumber);
    RegistrationId("FC", s.taxNumber);
    RegistrationIds(Kids(SellerNode(s).kids, S(SpecifiedTaxRegistration)),
                    TaxId("VA", s.vatNumber) + TaxId("FC", s.taxNumber));
  }

  lemma {:induction false} RegistrationId(scheme: string, o: Option<string>)
    ensures Given(o) ==> Kids(TaxRegistration(scheme, o).kids, P(ID)) == TaxId(scheme, o)
  {
    hide Plain, Bare, Free, Shallow;
  }

  /** The registrations found carry the schemes of the numbers that are given. */
  lemma {:induction false} Schemes(va: Option<string>, fc: Option<string>)
    ensures var ids := TaxId("VA", va) + TaxId("FC", fc);
            (SomeScheme(ids, "VA") <==> Given(va)) && (SomeScheme(ids, "FC") <==> Given(fc))
  {
    var ids := TaxId("VA", va) + TaxId("FC", fc);
    assert "VA"[0] != "FC"[0];
    if Given(va) {
      assert ids[0].attrs[SchemeID] == "VA";
    }
    if Given(fc) {
      assert ids[|ids| - 1].attrs[SchemeID] == "FC";
    }
  }

  lemma {:induction false} RegistrationIds(regs: seq<Node>, ids: seq<Node>)
    requires |regs| == |ids| && forall i :: 0 <= i < |regs| ==> Kids(regs[i].kids, P(ID)) == [ids[i]]
    ensures StepsInto(regs, [P(ID)]) == ids
  {
    if regs != [] {
      RegistrationIds(regs[1..], ids[1..]);
    }
  }

  // ---- Totals of rendered invoices ----

  lemma {:induction false} RenderedAmount(m: Metadata, repr: Float -> string, part: Part)
    ensures Select(Render(m, repr).kids, [], HeaderAmount(part)) == Kids(Summation(m).kids, P(part))
  {
    hide Select, Render, Summation;
    ReachSummation(m, repr, [], [P(part)]);
    assert [M(SpecifiedTradeSettlementHeaderMonetarySummation)] + [P(part)] == HeaderAmount(part).steps;
    assert HeaderAmount(part).steps[1..] == [P(part)];
  }

  lemma {:induction false} DeclaredKids(m: Metadata)
    ensures Kids(Summation(m).kids, P(LineTotalAmount)) == [Leaf(LineTotalAmount, Declared(m))]
  {
    hide Plain, Bare, Free, Shallow;
  }

  /** The amounts the rules read are the texts of the metadata, one node each. */
  lemma {:induction false} RenderedAmounts(m: Metadata, repr: Float -> string)
    ensures var root := Render(m, repr);
            && Amount(root, LineTotalAmount) == [TextNumber(Declared(m))]
            && Amount(root, TaxBasisTotalAmount) == [TextNumber(m.amounts.taxBasisTotal)]
            && Amount(root, TaxTotalAmount) == [TextNumber(m.amounts.taxTotal)]
            && Amount(root, GrandTotalAmount) == [TextNumber(m.amounts.grandTotal)]
  {
    hide Select, Render, Summation, ReadNumber, Kids;
    RenderedAmount(m, repr, LineTotalAmount);
    RenderedAmount(m, repr, TaxBasisTotalAmount);
    RenderedAmount(m, repr, TaxTotalAmount);
    RenderedAmount(m, repr, GrandTotalAmount);
    DeclaredKids(m);
    RoundTrip.SummationKids(m);
  }

  lemma {:induction false} LineTotalFound(l: Line, repr: Float -> string)
    ensures Found(LineNode(l, repr), LINE_TOTALS.steps) == [Leaf(LineTotalAmount, Print2(l.netTotal))]
  {
    hide LineNode, VatNode, Print2, Plain, Bare, Free, Shallow;
    RoundTrip.LineSections(l, repr, SpecifiedLineTradeSettlement);
    assert LINE_TOTALS.steps[1..] == [S(SpecifiedLineTradeSettlement),
      P(SpecifiedTradeSettlementLineMonetarySummation), P(LineTotalAmount)];
    assert Kids(LineSettlement(l).kids, P(SpecifiedTradeSettlementLineMonetarySummation)) == [LineSum(l)];
    ThreeSteps(LineNode(l, repr).kids, S(SpecifiedLineTradeSettlement), LineSettlement(l),
               P(SpecifiedTradeSettlementLineMonetarySummation), LineSum(l), P(LineTotalAmount));
    assert Kids(LineSum(l).kids, P(LineTotalAmount)) == [Leaf(LineTotalAmount, Print2(l.netTotal))];
  }

  lemma {:induction false} LineTotalsSum(ls: seq<Line>, repr: Float -> string)
    ensures Sum(Numbers(FoundLines(ls, repr, LINE_TOTALS.steps))) == Some(PrintedSum(ls))
  {
    hide LineNode, Found, Print2, ReadNumber, Value, Rounded;
    if ls != [] {
      var n, rest := Leaf(LineTotalAmount, Print2(ls[0].netTotal)), FoundLines(ls[1..], repr, LINE_TOTALS.steps);
      LineTotalFound(ls[0], repr);
      assert FoundLines(ls, repr, LINE_TOTALS.steps) == [n] + rest;
      assert ([n] + rest)[1..] == rest;
      assert Numbers([n] + rest)[1..] == Numbers(rest);
      ReadPrinted(ls[0].netTotal);
      LineTotalsSum(ls[1..], repr);
    }
  }

  lemma {:induction false} RenderedLineSum(m: Metadata, repr: Float -> string)
    ensures Sum(Numbers(Select(Render(m, repr).kids, [], LINE_TOTALS))) == Some(PrintedSum(m.lines))
  {
    hide Select, Render, FoundLines, Numbers, Sum;
    ReachLines(m, repr, [], LINE_TOTALS.steps[1..]);
    assert [M(IncludedSupplyChainTradeLineItem)] + LINE_TOTALS.steps[1..] == LINE_TOTALS.steps;
    LineTotalsSum(m.lines, repr);
  }

  lemma {:induction false} RenderedIban(m: Metadata, repr: Float -> string)
    ensures Select(Render(m, repr).kids, [], IBAN) == [] <==> !Given(m.seller.iban)
  {
    hide Select, Render, PaymentMeans, Account;
    var steps := [P(PayeePartyCreditorFinancialAccount), P(IBANID)];
    ReachMeans(m, repr, [], steps);
    assert [M(SpecifiedTradeSettlementPaymentMeans)] + steps == IBAN.steps;
    assert IBAN.steps[1..] == steps;
    MeansKids(m);
    TwoSteps(PaymentMeans(m).kids, P(PayeePartyCreditorFinancialAccount), P(IBANID));
    AccountKids(m.seller);
  }

  lemma {:induction false} MeansKids(m: Metadata)
    ensures Kids(PaymentMeans(m).kids, P(PayeePartyCreditorFinancialAccount))
         == if Given(m.seller.iban) then [Account(m.seller)] else []
  {
    hide Plain, Bare, Free, Shallow, Account;
  }

  lemma {:induction false} AccountKids(s: Seller)
    ensures Kids(Account(s).kids, P(IBANID)) != []
  {
    hide Plain, Bare, Free, Shallow;
  }

  /** On a rendered invoice every rule says exactly what it should say of the metadata. */
  lemma {:induction false} RenderedReport(m: Metadata, repr: Float -> string, r: Rule)
    ensures Violated(Render(m, repr), r) <==> Expected(m, r)
  {
    hide Select, Render, Gap, Fires, Sum, Numbers, SomeText, SomeScheme, PrintedSum, TextNumber, Country;
    match r
    case BR_FR_01 =>
      RenderedCountry(m, repr, "FR");
      RenderedSiret(m, repr);
      SiretSchemes(m.seller);
    case BR_DE_01 =>
      RenderedCountry(m, repr, "DE");
      RenderedTaxIds(m, repr);
      Schemes(m.seller.vatNumber, m.seller.taxNumber);
    case BR_CO_13 =>
      RenderedLineSum(m, repr);
      RenderedAmounts(m, repr);
      GapOfOne(Some(PrintedSum(m.lines)), [TextNumber(Declared(m))]);
    case BR_CO_16 =>
      RenderedAmounts(m, repr);
      GapOfOne(Plus(TextNumber(m.amounts.taxBasisTotal), TextNumber(m.amounts.taxTotal)),
               [TextNumber(m.amounts.grandTotal)]);
    case BR_FR_04 =>
      RenderedIban(m, repr);
  }

  lemma {:induction false} SiretSchemes(s: Seller)
    ensures var ids := if Given(s.siret) then [LeafWith(ID, SchemeID, "0002", s.siret.value)] else [];
            !SomeScheme(ids, "0002") && !SomeScheme(ids, "0009") <==> !Given(s.siret)
  {
    if Given(s.siret) {
      assert [LeafWith(ID, SchemeID, "0002", s.siret.value)][0].attrs[SchemeID] == "0002";
    }
  }

  // ---- Rounding drift ----

  /** Printing `n` line totals moves their sum by at most `n` half-cents. */
  lemma {:induction false} Drift(ls: seq<Line>)
    ensures -0.005 * |ls| as real <= PrintedSum(ls) - TrueSum(ls) <= 0.005 * |ls| as real
  {
    if ls != [] {
      RoundedNear(ls[0].netTotal);
      Drift(ls[1..]);
    }
  }

  /** A declared total within `e` of the true sum never trips BR-CO-13 while `n` half-cents
      and `e` stay within the tolerance. */
  lemma {:induction false} DriftTolerated(m: Metadata, repr: Float -> string, declared: real, e: real)
    requires TextNumber(Declared(m)) == Some(declared)
    requires -e <= declared - TrueSum(m.lines) <= e
    requires 0.005 * |m.lines| as real + e <= 0.01
    ensures !Violated(Render(m, repr), BR_CO_13)
  {
    hide Render, Violated, TextNumber, PrintedSum, TrueSum, Declared;
    Drift(m.lines);
    RenderedReport(m, repr, BR_CO_13);
  }

  /** Totals that are whole cents do not drift, so an exact declared total never trips the
      rule, however many lines there are. */
  lemma {:induction false} WholeCentsTolerated(m: Metadata, repr: Float -> string)
    requires forall l :: l in m.lines ==> Rounded(l.netTotal) == l.netTotal
    requires TextNumber(Declared(m)) == Some(TrueSum(m.lines))
    ensures !Violated(Render(m, repr), BR_CO_13)
  {
    hide Render, Violated, TextNumber, PrintedSum, TrueSum, Declared, Rounded;
    NoDrift(m.lines);
    RenderedReport(m, repr, BR_CO_13);
  }

  lemma {:induction false} NoDrift(ls: seq<Line>)
    requires forall l :: l in ls ==> Rounded(l.netTotal) == l.netTotal
    ensures PrintedSum(ls) == TrueSum(ls)
  {
    if ls != [] {
      NoDrift(ls[1..]);
    }
  }

  /** The bound of two lines is sharp: from three lines on, an exact declared total can trip
      the rule, here with lines of one cent and a half. */
  lemma {:induction false} DriftBites(m: Metadata, repr: Float -> string)
    requires |m.lines| >= 3 && forall l :: l in m.lines ==> l.netTotal == Float(false, 0.015)
    requires TextNumber(Declared(m)) == Some(TrueSum(m.lines))
    ensures Violated(Render(m, repr), BR_CO_13)
  {
    hide Render, Violated, TextNumber, PrintedSum, TrueSum, Declared;
    CentAndAHalf(m.lines);
    RenderedReport(m, repr, BR_CO_13);
  }

  lemma {:induction false} CentAndAHalf(ls: seq<Line>)
    requires forall l :: l in ls ==> l.netTotal == Float(false, 0.015)
    ensures PrintedSum(ls) == 0.02 * |ls| as real && TrueSum(ls) == 0.015 * |ls| as real
  {
    if ls != [] {
      assert 0.015 * 100.0 == 1.5 && 1.5.Floor == 1;
      CentAndAHalf(ls[1..]);
    }
  }
}
