/** Extraction undoes rendering. */
module RoundTrip {
  import opened Wrappers
  import opened Decimal
  import opened Invoice
  import opened Xml
  import opened Template
  import opened Extractor
  import opened Landmarks

  // ---- What should come back, said on the metadata alone ----

  /** A text field comes back as it is; an empty one comes back as nothing. */
  function Back(s: string): (r: Option<string>) { if s == "" then None else Some(s) }

  function ExpectedPlace(a: Option<Address>, country: string): (r: Place) {
    match a
    case None => Place("", "", "", country)
    case Some(a) => Place(Or(a.line1, "Street"), Or(a.city, "City"), a.postcode, Or(a.country, "FR"))
  }

  function ExpectedSeller(s: Seller): (r: Party) {
    Party(s.name,
      if Given(s.vatNumber) then s.vatNumber.value else s.taxNumber.GetOr(""),
      ExpectedPlace(s.address, "FR"))
  }

  function ExpectedBuyer(b: Buyer): (r: Party) {
    Party(b.name, b.vatNumber.GetOr(""), ExpectedPlace(b.address, ""))
  }

  function ExpectedItem(py: Python, l: Line): (r: Item) {
    Item(Or(l.name, "Item"), py.repr(l.quantity), Or(l.unitCode, "C62"),
         Print2(l.netPrice), Print2(l.vatRate), Print2(l.netTotal))
  }

  /** The sum of the first `k` line totals, each rounded to the cent. */
  function RoundedSum(ls: seq<Line>, k: nat): (r: Float)
    requires k <= |ls|
  {
    if k == 0 then ZERO else Add(RoundedSum(ls, k - 1), Rounded(ls[k - 1].netTotal))
  }

  function ExpectedTotals(py: Python, m: Metadata): (r: Totals) {
    var net := ReadOr(py, Back(m.amounts.taxBasisTotal), RoundedSum(m.lines, Kept(|m.lines|)));
    var tax := ReadOr(py, Back(m.amounts.taxTotal), ZERO);
    var gross := ReadOr(py, Back(m.amounts.grandTotal), Add(net, tax));
    var payable := ReadOr(py, Back(m.amounts.duePayable), gross);
    Totals(Print2(net), Print2(tax), Print2(gross), Print2(payable))
  }

  /** The first ten lines at most, in order. */
  function ExpectedItems(py: Python, ls: seq<Line>): (r: seq<Item>)
    ensures |r| == Kept(|ls|) && forall i :: 0 <= i < |r| ==> r[i] == ExpectedItem(py, ls[i])
  {
    seq(Kept(|ls|), i requires 0 <= i < Kept(|ls|) => ExpectedItem(py, ls[i]))
  }

  function Expected(py: Python, m: Metadata): (r: Extract) {
    Extract(Back(m.number), Back(m.issueDate), Or(m.currency, "EUR"),
      ExpectedSeller(m.seller), ExpectedBuyer(m.buyer), ExpectedTotals(py, m),
      ExpectedItems(py, m.lines),
      m.lines == [])
  }

  /** What is asked of Python's float text: two-decimal text reads as its rounded value,
      and the quantities of this invoice read back from their own text. */
  ghost predicate Faithful(py: Python, m: Metadata) {
    && (forall f :: py.read(Print2(f)) == Some(Rounded(f)))
    && (forall l :: l in m.lines ==> py.repr(l.quantity) != "" && py.read(py.repr(l.quantity)) == Some(l.quantity))
  }

  // ---- Header ----

  const ABOVE: seq<Tag> := [P(CrossIndustryInvoice)]

  /** A search over the document is a search below its root. */
  lemma {:induction false} FromRoot(m: Metadata, repr: Float -> string, p: Path, g: Mark)
    requires Needs(p, M(g))
    ensures Select(Cons(Render(m, repr), Nil), [], p) == Select(Render(m, repr).kids, ABOVE, p)
  {
    hide Select, Context, Document, Transaction;
    PassThrough(Render(m, repr), Nil, [], p, M(g));
    assert [] + [P(CrossIndustryInvoice)] == ABOVE;
  }

  lemma {:induction false} NotesKids(ns: seq<Note>, part: Part)
    requires part != IncludedNote
    ensures Kids(Notes(ns), P(part)) == []
  {
    if ns != [] {
      NotesKids(ns[1..], part);
    }
  }

  lemma {:induction false} NumberBack(m: Metadata, repr: Float -> string)
    ensures FirstText(Cons(Render(m, repr), Nil), NUMBER) == Back(m.number)
  {
    hide Select, Render;
    FromRoot(m, repr, NUMBER[0], ExchangedDocument);
    ReachDocument(m, repr, ABOVE, [P(ID)]);
    assert [M(ExchangedDocument)] + [P(ID)] == NUMBER[0].steps;
    NotesKids(m.notes, ID);
    assert Kids(Document(m).kids, P(ID)) == [Leaf(ID, m.number)];
  }

  lemma {:induction false} DateBack(m: Metadata, repr: Float -> string)
    ensures FirstText(Cons(Render(m, repr), Nil), DATE) == Back(m.issueDate)
  {
    hide Select, Render;
    FromRoot(m, repr, DATE[0], ExchangedDocument);
    ReachDocument(m, repr, ABOVE, [P(IssueDateTime), P(DateTimeString)]);
    assert [M(ExchangedDocument)] + [P(IssueDateTime), P(DateTimeString)] == DATE[0].steps;
    NotesKids(m.notes, IssueDateTime);
    var found := Date(IssueDateTime, m.issueDate);
    assert Kids(Document(m).kids, P(IssueDateTime)) == [found];
    assert Steps(Document(m).kids, [P(IssueDateTime), P(DateTimeString)]) == Kids(found.kids, P(DateTimeString)) + [];
  }

  lemma {:induction false} CurrencyBack(m: Metadata, repr: Float -> string)
    ensures FirstText(Cons(Render(m, repr), Nil), CURRENCY) == Back(m.currency)
  {
    hide Select, Render;
    FromRoot(m, repr, CURRENCY[0], InvoiceCurrencyCode);
    ReachCurrency(m, repr, ABOVE);
  }

  // ---- Parties ----

  lemma {:induction false} SellerFound(m: Metadata, repr: Float -> string, steps: seq<Tag>)
    requires steps != [] && M(SellerTradeParty) !in steps
    ensures Select(Cons(Render(m, repr), Nil), [], PartyPath(SellerTradeParty, steps)[0])
         == Steps(SellerNode(m.seller).kids, steps)
  {
    hide Select, Render, SellerNode;
    FromRoot(m, repr, PartyPath(SellerTradeParty, steps)[0], SellerTradeParty);
    ReachSeller(m, repr, ABOVE, steps);
    assert ([M(SellerTradeParty)] + steps)[1..] == steps;
  }

  lemma {:induction false} BuyerFound(m: Metadata, repr: Float -> string, steps: seq<Tag>)
    requires steps != [] && M(BuyerTradeParty) !in steps
    ensures Select(Cons(Render(m, repr), Nil), [], PartyPath(BuyerTradeParty, steps)[0])
         == Steps(BuyerNode(m.buyer).kids, steps)
  {
    hide Select, Render, BuyerNode;
    FromRoot(m, repr, PartyPath(BuyerTradeParty, steps)[0], BuyerTradeParty);
    ReachBuyer(m, repr, ABOVE, steps);
    assert ([M(BuyerTradeParty)] + steps)[1..] == steps;
  }

  lemma {:induction false} SellerKids(s: Seller)
    ensures Kids(SellerNode(s).kids, P(Name)) == [Leaf(Name, s.name)]
    ensures Kids(SellerNode(s).kids, P(PostalTradeAddress)) == [SellerAddress(s.address)]
  {
    hide SellerAddress, Contact, Siret, TaxRegistration, Plain, Bare, Free, Shallow, Given;
  }

  lemma {:induction false} BuyerKids(b: Buyer)
    ensures Kids(BuyerNode(b).kids, P(Name)) == [Leaf(Name, b.name)]
    ensures Kids(BuyerNode(b).kids, P(PostalTradeAddress))
         == if b.address.Some? then [BuyerAddress(b.address.value)] else []
  {
    hide BuyerAddress, Contact, Plain, Free, Shallow;
  }

  function HeadText(ns: seq<Node>): (r: Option<string>) { if ns == [] then None else TextOf(ns[0]) }

  lemma {:induction false} SellerText(m: Metadata, repr: Float -> string, steps: seq<Tag>)
    requires steps != [] && M(SellerTradeParty) !in steps
    ensures FirstText(Cons(Render(m, repr), Nil), PartyPath(SellerTradeParty, steps))
         == HeadText(Steps(SellerNode(m.seller).kids, steps))
  {
    hide Select, Render, SellerNode, Steps;
    SellerFound(m, repr, steps);
  }

  lemma {:induction false} BuyerText(m: Metadata, repr: Float -> string, steps: seq<Tag>)
    requires steps != [] && M(BuyerTradeParty) !in steps
    ensures FirstText(Cons(Render(m, repr), Nil), PartyPath(BuyerTradeParty, steps))
         == HeadText(Steps(BuyerNode(m.buyer).kids, steps))
  {
    hide Select, Render, BuyerNode, Steps;
    BuyerFound(m, repr, steps);
  }

  lemma {:induction false} SellerPlaceText(m: Metadata, repr: Float -> string, part: Part)
    ensures FirstText(Cons(Render(m, repr), Nil), PartyPath(SellerTradeParty, [P(PostalTradeAddress), P(part)]))
         == HeadText(Kids(SellerAddress(m.seller.address).kids, P(part)))
  {
    hide Select, Render, SellerNode, SellerAddress, Steps;
    SellerText(m, repr, [P(PostalTradeAddress), P(part)]);
    SellerKids(m.seller);
    TwoSteps(SellerNode(m.seller).kids, P(PostalTradeAddress), P(part));
  }

  lemma {:induction false} BuyerPlaceText(m: Metadata, repr: Float -> string, part: Part)
    ensures FirstText(Cons(Render(m, repr), Nil), PartyPath(BuyerTradeParty, [P(PostalTradeAddress), P(part)]))
         == if m.buyer.address.Some? then HeadText(Kids(BuyerAddress(m.buyer.address.value).kids, P(part))) else None
  {
    hide Select, Render, BuyerNode, BuyerAddress, Steps;
    BuyerText(m, repr, [P(PostalTradeAddress), P(part)]);
    BuyerKids(m.buyer);
    TwoSteps(BuyerNode(m.buyer).kids, P(PostalTradeAddress), P(part));
  }

  lemma {:induction false} AddressTexts(a: Option<Address>)
    ensures var kids := SellerAddress(a).kids;
            && HeadText(Kids(kids, P(LineOne))) == (if a.None? then None else Some(Or(a.value.line1, "Street")))
            && HeadText(Kids(kids, P(CityName))) == (if a.None? then None else Some(Or(a.value.city, "City")))
            && HeadText(Kids(kids, P(PostcodeCode))) == (if a.None? then None else Back(a.value.postcode))
            && HeadText(Kids(kids, P(CountryID))) == Some(if a.None? then "FR" else Or(a.value.country, "FR"))
  {
    hide Plain, Free, Shallow;
  }

  lemma {:induction false} SellerPlaceBack(m: Metadata, repr: Float -> string)
    ensures PartyOf(Cons(Render(m, repr), Nil), SellerTradeParty).place == ExpectedSeller(m.seller).place
  {
    hide FirstText, Render, SellerAddress, HeadText;
    AddressTexts(m.seller.address);
    SellerPlaceText(m, repr, LineOne);
    SellerPlaceText(m, repr, CityName);
    SellerPlaceText(m, repr, PostcodeCode);
    SellerPlaceText(m, repr, CountryID);
  }

  lemma {:induction false} BuyerAddressTexts(a: Address)
    ensures var kids := BuyerAddress(a).kids;
            && HeadText(Kids(kids, P(LineOne))) == Some(Or(a.line1, "Street"))
            && HeadText(Kids(kids, P(CityName))) == Some(Or(a.city, "City"))
            && HeadText(Kids(kids, P(PostcodeCode))) == Back(a.postcode)
            && HeadText(Kids(kids, P(CountryID))) == Some(Or(a.country, "FR"))
  {
    hide Plain, Bare, Free, Shallow;
  }

  lemma {:induction false} BuyerPlaceBack(m: Metadata, repr: Float -> string)
    ensures PartyOf(Cons(Render(m, repr), Nil), BuyerTradeParty).place == ExpectedBuyer(m.buyer).place
  {
    assert HeadText([]) == None;
    hide FirstText, Render, Plain, Free, Shallow, BuyerAddress, HeadText, Kids;
    if m.buyer.address.Some? {
      BuyerAddressTexts(m.buyer.address.value);
    }
    BuyerPlaceText(m, repr, LineOne);
    BuyerPlaceText(m, repr, CityName);
    BuyerPlaceText(m, repr, PostcodeCode);
    BuyerPlaceText(m, repr, CountryID);
  }

  lemma {:induction false} NamesBack(m: Metadata, repr: Float -> string)
    ensures PartyOf(Cons(Render(m, repr), Nil), SellerTradeParty).name == m.seller.name
    ensures PartyOf(Cons(Render(m, repr), Nil), BuyerTradeParty).name == m.buyer.name
  {
    hide FirstText, Render, SellerNode, BuyerNode;
    SellerText(m, repr, [P(Name)]);
    BuyerText(m, repr, [P(Name)]);
    SellerKids(m.seller);
    BuyerKids(m.buyer);
  }

  // ---- Tax numbers ----

  /** Below a party, the tax registrations are children, never nested deeper. */
  lemma {:induction false} SellerShallow(s: Seller)
    ensures Shallow(SellerNode(s).kids, S(SpecifiedTaxRegistration))
  {
    hide Plain, Bare, Kids, SellerAddress, Contact, Siret, TaxRegistration;
    BareIsFree(Siret(s).kids, SpecifiedTaxRegistration);
    BareIsFree(Contact(s.contactName, s.phone, s.email).kids, SpecifiedTaxRegistration);
    BareIsFree(SellerAddress(s.address).kids, SpecifiedTaxRegistration);
    BareIsFree(TaxRegistration("VA", s.vatNumber).kids, SpecifiedTaxRegistration);
    BareIsFree(TaxRegistration("FC", s.taxNumber).kids, SpecifiedTaxRegistration);
  }

  lemma {:induction false} LastTwoKids(
      c1: bool, n1: Node, c2: bool, n2: Node, n3: Node, c4: bool, n4: Node, c5: bool, n5: Node, n6: Node,
      c7: bool, n7: Node, c8: bool, n8: Node, g: Tag)
    requires n1.tag != g && n2.tag != g && n3.tag != g && n4.tag != g && n5.tag != g && n6.tag != g
    requires n7.tag == g && n8.tag == g
    ensures Kids(When(c1, n1, When(c2, n2, One(n3, When(c4, n4, When(c5, n5, One(n6,
                 When(c7, n7, When(c8, n8, Nil)))))))), g)
         == (if c7 then [n7] else []) + (if c8 then [n8] else [])
  {
    hide Plain, Bare, Free, Shallow;
  }

  lemma {:induction false} SellerRegistrations(s: Seller)
    ensures Shallow(SellerNode(s).kids, S(SpecifiedTaxRegistration))
    ensures Kids(SellerNode(s).kids, S(SpecifiedTaxRegistration))
         == (if Given(s.vatNumber) then [TaxRegistration("VA", s.vatNumber)] else [])
          + (if Given(s.taxNumber) then [TaxRegistration("FC", s.taxNumber)] else [])
  {
    SellerShallow(s);
    hide Plain, Bare, Free, Shallow, Kids, Given, SellerAddress, Contact, Siret, TaxRegistration;
    LastTwoKids(
      Given(s.id), Leaf(ID, s.id.GetOr("")),
      Given(s.globalId), LeafWith(GlobalID, SchemeID, s.globalIdScheme.GetOr("0088"), s.globalId.GetOr("")),
      Leaf(Name, s.name), Given(s.siret), Siret(s),
      Given(s.email) || Given(s.phone), Contact(s.contactName, s.phone, s.email), SellerAddress(s.address),
      Given(s.vatNumber), TaxRegistration("VA", s.vatNumber),
      Given(s.taxNumber), TaxRegistration("FC", s.taxNumber), S(SpecifiedTaxRegistration));
  }

  lemma {:induction false} BuyerRegistrations(b: Buyer)
    ensures Shallow(BuyerNode(b).kids, S(SpecifiedTaxRegistration))
    ensures Kids(BuyerNode(b).kids, S(SpecifiedTaxRegistration))
         == if Given(b.vatNumber) then [TaxRegistration("VA", b.vatNumber)] else []
  {
    hide Plain, Bare, BuyerAddress, Contact, TaxRegistration;
    BareIsFree(Contact(b.contactName, b.phone, b.email).kids, SpecifiedTaxRegistration);
    if b.address.Some? {
      BareIsFree(BuyerAddress(b.address.value).kids, SpecifiedTaxRegistration);
    }
    BareIsFree(TaxRegistration("VA", b.vatNumber).kids, SpecifiedTaxRegistration);
  }

  const REGISTRATION: seq<Tag> := [S(SpecifiedTaxRegistration), P(ID)]

  lemma {:induction false} VatFound(n: Node, rest: Forest, trail: seq<Tag>, party: Mark)
    requires n.tag == M(party) && Free(rest, M(party)) && Shallow(n.kids, S(SpecifiedTaxRegistration))
    requires M(party) !in trail && S(SpecifiedTaxRegistration) !in trail
    ensures Select(Cons(n, rest), trail, PartyVat(party)[0]) == Steps(n.kids, REGISTRATION)
  {
    var p, here := PartyVat(party)[0], trail + [M(party)];
    SelectNone(rest, trail, p, M(party));
    LastTag(here, p);
    BelowUnder(n.kids, here, [], M(party), REGISTRATION);
    assert here + [] == here;
    SelectShallow(n.kids, here, REGISTRATION);
    hide Select, Steps;
  }

  lemma {:induction false} RegistrationText(regs: seq<Node>, scheme: string, o: Option<string>)
    requires regs != [] && regs[0] == TaxRegistration(scheme, o)
    ensures HeadText(StepsInto(regs, [P(ID)])) == Back(o.GetOr(""))
  {
    assert StepsInto(regs, [P(ID)]) == Kids(regs[0].kids, P(ID)) + StepsInto(regs[1..], [P(ID)]);
    assert Kids(regs[0].kids, P(ID)) == [LeafWith(ID, SchemeID, scheme, o.GetOr(""))];
  }

  lemma {:induction false} SellerVatFound(m: Metadata, repr: Float -> string)
    ensures Select(Cons(Render(m, repr), Nil), [], PartyVat(SellerTradeParty)[0])
         == StepsInto(Kids(SellerNode(m.seller).kids, S(SpecifiedTaxRegistration)), [P(ID)])
  {
    hide Select, Render, SellerNode, BuyerNode;
    var p := PartyVat(SellerTradeParty)[0];
    FromRoot(m, repr, p, SellerTradeParty);
    IntoParties(m, repr, ABOVE, p, SellerTradeParty);
    PlainIsFree(BuyerNode(m.buyer).kids, SellerTradeParty);
    SellerRegistrations(m.seller);
    VatFound(SellerNode(m.seller), Parties(m).tail,
             ABOVE + [P(SupplyChainTradeTransaction), P(ApplicableHeaderTradeAgreement)], SellerTradeParty);
    assert REGISTRATION[1..] == [P(ID)];
  }

  lemma {:induction false} BuyerVatFound(m: Metadata, repr: Float -> string)
    ensures Select(Cons(Render(m, repr), Nil), [], PartyVat(BuyerTradeParty)[0])
         == StepsInto(Kids(BuyerNode(m.buyer).kids, S(SpecifiedTaxRegistration)), [P(ID)])
  {
    hide Select, Render, SellerNode, BuyerNode;
    var p := PartyVat(BuyerTradeParty)[0];
    var here := ABOVE + [P(SupplyChainTradeTransaction), P(ApplicableHeaderTradeAgreement)];
    FromRoot(m, repr, p, BuyerTradeParty);
    IntoParties(m, repr, ABOVE, p, BuyerTradeParty);
    PlainIsFree(SellerNode(m.seller).kids, BuyerTradeParty);
    BuyerRegistrations(m.buyer);
    PassOver(SellerNode(m.seller), Parties(m).tail, here, p, M(BuyerTradeParty));
    VatFound(BuyerNode(m.buyer), Parties(m).tail.tail, here, BuyerTradeParty);
    assert REGISTRATION[1..] == [P(ID)];
  }

  lemma {:induction false} SellerVatBack(s: Seller)
    ensures HeadText(StepsInto(Kids(SellerNode(s).kids, S(SpecifiedTaxRegistration)), [P(ID)]))
         == Back(ExpectedSeller(s).vat)
  {
    var regs := Kids(SellerNode(s).kids, S(SpecifiedTaxRegistration));
    assert StepsInto([], [P(ID)]) == [];
    hide SellerNode, TaxRegistration, StepsInto, ExpectedPlace, HeadText, Kids;
    SellerRegistrations(s);
    if Given(s.vatNumber) {
      RegistrationText(regs, "VA", s.vatNumber);
    } else if Given(s.taxNumber) {
      RegistrationText(regs, "FC", s.taxNumber);
    } else {
      NoHeadText();
    }
  }

  lemma {:induction false} NoHeadText()
    ensures HeadText([]) == None
  {
  }

  lemma {:induction false} BuyerVatBack(b: Buyer)
    ensures HeadText(StepsInto(Kids(BuyerNode(b).kids, S(SpecifiedTaxRegistration)), [P(ID)]))
         == Back(ExpectedBuyer(b).vat)
  {
    var regs := Kids(BuyerNode(b).kids, S(SpecifiedTaxRegistration));
    assert StepsInto([], [P(ID)]) == [];
    hide BuyerNode, TaxRegistration, StepsInto, ExpectedPlace, HeadText, Kids;
    BuyerRegistrations(b);
    if Given(b.vatNumber) {
      RegistrationText(regs, "VA", b.vatNumber);
    } else {
      NoHeadText();
    }
  }

  lemma {:induction false} VatTexts(m: Metadata, repr: Float -> string)
    ensures FirstText(Cons(Render(m, repr), Nil), PartyVat(SellerTradeParty)) == Back(ExpectedSeller(m.seller).vat)
    ensures FirstText(Cons(Render(m, repr), Nil), PartyVat(BuyerTradeParty)) == Back(ExpectedBuyer(m.buyer).vat)
  {
    hide Select, Render, SellerNode, BuyerNode, ExpectedSeller, ExpectedBuyer, StepsInto, Kids;
    SellerVatFound(m, repr);
    BuyerVatFound(m, repr);
    SellerVatBack(m.seller);
    BuyerVatBack(m.buyer);
  }

  lemma {:induction false} PartiesBack(m: Metadata, repr: Float -> string)
    ensures PartyOf(Cons(Render(m, repr), Nil), SellerTradeParty) == ExpectedSeller(m.seller)
    ensures PartyOf(Cons(Render(m, repr), Nil), BuyerTradeParty) == ExpectedBuyer(m.buyer)
  {
    hide FirstText, Render, ExpectedPlace;
    NamesBack(m, repr);
    VatTexts(m, repr);
    SellerPlaceBack(m, repr);
    BuyerPlaceBack(m, repr);
  }

  // ---- Totals ----

  lemma {:induction false} TaxKids(ts: seq<TaxDetail>, rest: Forest, g: Mark)
    ensures Kids(TaxNodes(ts, rest), M(g)) == Kids(rest, M(g))
  {
    if ts != [] {
      TaxKids(ts[1..], rest, g);
    }
  }

  lemma {:induction false} AdjustmentKids(charge: bool, s: seq<Adjustment>, rest: Forest, g: Mark)
    ensures Kids(AdjustmentNodes(charge, s, rest), M(g)) == Kids(rest, M(g))
  {
    if s != [] {
      AdjustmentKids(charge, s[1..], rest, g);
    }
  }

  lemma {:induction false} OneSummation(m: Metadata, repr: Float -> string)
    ensures Kids(Settlement(m, repr).kids, M(SpecifiedTradeSettlementHeaderMonetarySummation)) == [Summation(m)]
  {
    hide Terms, Summation, PaymentMeans, Plain, Free, Shallow, TaxNodes, AdjustmentNodes;
    var g := SpecifiedTradeSettlementHeaderMonetarySummation;
    var last := One(Summation(m), Nil);
    var terms := When(Given(m.dueDate) || Given(m.paymentTerms) || m.discount.Some?, Terms(m, repr), last);
    AdjustmentKids(true, m.charges, terms, g);
    AdjustmentKids(false, m.allowances, AdjustmentNodes(true, m.charges, terms), g);
    TaxKids(m.taxDetails, AdjustmentNodes(false, m.allowances, AdjustmentNodes(true, m.charges, terms)), g);
  }

  lemma {:induction false} TotalText(m: Metadata, repr: Float -> string, amount: Part, paths: seq<Path>)
    requires paths != [] && paths[0] == HeaderTotal(amount)[0]
    requires Kids(Summation(m).kids, P(amount)) != []
    ensures FirstText(Cons(Render(m, repr), Nil), paths) == HeadText(Kids(Summation(m).kids, P(amount)))
  {
    hide Select, Render, Summation, Settlement, Steps;
    var steps := [M(SpecifiedTradeSettlementHeaderMonetarySummation), P(amount)];
    FromRoot(m, repr, paths[0], ApplicableHeaderTradeSettlement);
    ReachSettlement(m, repr, ABOVE, steps);
    assert [M(ApplicableHeaderTradeSettlement)] + steps == paths[0].steps;
    assert paths[0].steps[1..] == steps;
    OneSummation(m, repr);
    TwoSteps(Settlement(m, repr).kids, M(SpecifiedTradeSettlementHeaderMonetarySummation), P(amount));
  }

  lemma {:induction false} SummationKids(m: Metadata)
    ensures Kids(Summation(m).kids, P(TaxBasisTotalAmount)) == [Leaf(TaxBasisTotalAmount, m.amounts.taxBasisTotal)]
    ensures Kids(Summation(m).kids, P(TaxTotalAmount))
         == [LeafWith(TaxTotalAmount, CurrencyID, m.currency, m.amounts.taxTotal)]
    ensures Kids(Summation(m).kids, P(GrandTotalAmount)) == [Leaf(GrandTotalAmount, m.amounts.grandTotal)]
    ensures Kids(Summation(m).kids, P(DuePayableAmount)) == [Leaf(DuePayableAmount, m.amounts.duePayable)]
  {
    hide Plain, Free, Shallow;
  }

  lemma {:induction false} TotalsBack(py: Python, m: Metadata, lines: Float)
    requires lines == RoundedSum(m.lines, Kept(|m.lines|))
    ensures TotalsOf(py, Cons(Render(m, py.repr), Nil), lines) == ExpectedTotals(py, m)
  {
    hide FirstText, Render, Summation, Print2, Add;
    SummationKids(m);
    TotalText(m, py.repr, TaxBasisTotalAmount, NET);
    TotalText(m, py.repr, TaxTotalAmount, HeaderTotal(TaxTotalAmount));
    TotalText(m, py.repr, GrandTotalAmount, HeaderTotal(GrandTotalAmount));
    TotalText(m, py.repr, DuePayableAmount, HeaderTotal(DuePayableAmount));
  }

  // ---- Lines ----

  /** Inside a line, each section is a child of the line item, and met only there. */
  lemma {:induction false} LineSections(l: Line, repr: Float -> string, g: Spot)
    requires g != BilledQuantity && g != SpecifiedTaxRegistration
    ensures Shallow(LineNode(l, repr).kids, S(g))
    ensures Kids(LineNode(l, repr).kids, S(g))
         == match g
            case SpecifiedTradeProduct => [Product(l)]
            case SpecifiedLineTradeAgreement => [LineAgreement(l)]
            case SpecifiedLineTradeSettlement => [LineSettlement(l)]
  {
    hide Plain, Bare, LineDocument, Product, LineAgreement, LineSettlement;
    BareIsFree(LineDocument(l).kids, g);
    BareIsFree(Product(l).kids, g);
    BareIsFree(LineAgreement(l).kids, g);
    BareIsFree(LineSettlement(l).kids, g);
  }

  lemma {:induction false} LineNameBack(l: Line, repr: Float -> string)
    ensures FirstText(LineNode(l, repr).kids, LINE_NAME) == Back(l.name)
  {
    hide Select, LineNode, Plain, Bare, Free, Shallow;
    LineSections(l, repr, SpecifiedTradeProduct);
    SelectShallow(LineNode(l, repr).kids, [], LINE_NAME[0].steps);
    TwoSteps(LineNode(l, repr).kids, S(SpecifiedTradeProduct), P(Name));
    assert Kids(Product(l).kids, P(Name)) == [Leaf(Name, l.name)];
  }

  /** The price found is the net price, whether or not a gross price is rendered before it. */
  lemma {:induction false} LinePriceBack(l: Line, repr: Float -> string)
    ensures FirstText(LineNode(l, repr).kids, LINE_PRICE) == Some(Print2(l.netPrice))
  {
    hide Select, LineNode, GrossPrice, Print2, Plain, Bare, Free, Shallow;
    LineSections(l, repr, SpecifiedLineTradeAgreement);
    SelectShallow(LineNode(l, repr).kids, [], LINE_PRICE[0].steps);
    assert Kids(LineAgreement(l).kids, P(NetPriceProductTradePrice)) == [NetPrice(l)];
    ThreeSteps(LineNode(l, repr).kids, S(SpecifiedLineTradeAgreement), LineAgreement(l),
               P(NetPriceProductTradePrice), NetPrice(l), P(ChargeAmount));
    assert Kids(NetPrice(l).kids, P(ChargeAmount)) == [Leaf(ChargeAmount, Print2(l.netPrice))];
  }

  lemma {:induction false} LineTotalBack(l: Line, repr: Float -> string)
    ensures FirstText(LineNode(l, repr).kids, LINE_TOTAL) == Some(Print2(l.netTotal))
  {
    hide Select, LineNode, VatNode, Print2, Plain, Bare, Free, Shallow;
    LineSections(l, repr, SpecifiedLineTradeSettlement);
    SelectShallow(LineNode(l, repr).kids, [], LINE_TOTAL[0].steps);
    assert Kids(LineSettlement(l).kids, P(SpecifiedTradeSettlementLineMonetarySummation)) == [LineSum(l)];
    ThreeSteps(LineNode(l, repr).kids, S(SpecifiedLineTradeSettlement), LineSettlement(l),
               P(SpecifiedTradeSettlementLineMonetarySummation), LineSum(l), P(LineTotalAmount));
    assert Kids(LineSum(l).kids, P(LineTotalAmount)) == [Leaf(LineTotalAmount, Print2(l.netTotal))];
  }

  lemma {:induction false} RateKids(l: Line)
    ensures var vat := VatNode(ApplicableTradeTax, l.vatCategory, l.vatRate);
            && Kids(LineSettlement(l).kids, P(ApplicableTradeTax)) == [vat]
            && Kids(vat.kids, P(RateApplicablePercent)) == [Leaf(RateApplicablePercent, Print2(l.vatRate))]
  {
    hide Print2, Plain, Bare, Free, Shallow;
  }

  lemma {:induction false} LineRateBack(l: Line, repr: Float -> string)
    ensures FirstText(LineNode(l, repr).kids, LINE_RATE) == Some(Print2(l.vatRate))
  {
    var vat := VatNode(ApplicableTradeTax, l.vatCategory, l.vatRate);
    RateKids(l);
    hide Select, LineNode, LineSettlement, VatNode, Print2, Plain, Bare, Free, Shallow, Kids;
    LineSections(l, repr, SpecifiedLineTradeSettlement);
    SelectShallow(LineNode(l, repr).kids, [], LINE_RATE[0].steps);
    ThreeSteps(LineNode(l, repr).kids, S(SpecifiedLineTradeSettlement), LineSettlement(l),
               P(ApplicableTradeTax), vat, P(RateApplicablePercent));
  }

  lemma {:induction false} LineQuantityFound(l: Line, repr: Float -> string)
    ensures Select(LineNode(l, repr).kids, [], LINE_QUANTITY[0])
         == [Node(S(BilledQuantity), map[UnitCode := l.unitCode], repr(l.quantity), Nil)]
  {
    hide LineDocument, Product, LineAgreement, LineSettlement, Plain, Bare, Shallow, Kids, Select;
    var p, g := LINE_QUANTITY[0], S(BilledQuantity);
    var last := One(LineSettlement(l), Nil);
    BareIsFree(LineDocument(l).kids, BilledQuantity);
    BareIsFree(Product(l).kids, BilledQuantity);
    BareIsFree(LineAgreement(l).kids, BilledQuantity);
    BareIsFree(LineSettlement(l).kids, BilledQuantity);
    PassOver(LineDocument(l), LineNode(l, repr).kids.tail, [], p, g);
    PassOver(Product(l), LineNode(l, repr).kids.tail.tail, [], p, g);
    PassOver(LineAgreement(l), Cons(LineDelivery(l, repr), last), [], p, g);
    PassThrough(LineDelivery(l, repr), last, [], p, g);
    var n := LineDelivery(l, repr).kids.head;
    Arrive(n, Nil, [] + [P(SpecifiedLineTradeDelivery)], p.steps);
    SelectNone(Nil, [] + [P(SpecifiedLineTradeDelivery)], p, g);
  }

  lemma {:induction false} LineQuantityBack(l: Line, repr: Float -> string)
    requires repr(l.quantity) != ""
    ensures FirstText(LineNode(l, repr).kids, LINE_QUANTITY) == Some(repr(l.quantity))
    ensures FirstAttr(Select(LineNode(l, repr).kids, [], LINE_QUANTITY[0]), UnitCode) == Some(l.unitCode)
  {
    LineQuantityFound(l, repr);
    hide LineNode, Select;
  }

  lemma {:induction false} ItemBack(py: Python, m: Metadata, l: Line)
    requires Faithful(py, m) && l in m.lines
    ensures ItemOf(py, LineNode(l, py.repr)) == ExpectedItem(py, l)
    ensures LineTotal(py, LineNode(l, py.repr)) == Rounded(l.netTotal)
  {
    LineQuantityBack(l, py.repr);
    hide LineNode, FirstText, FirstAttr, Select, Print2, Rounded, Mul;
    LineNameBack(l, py.repr);
    LinePriceBack(l, py.repr);
    LineTotalBack(l, py.repr);
    LineRateBack(l, py.repr);
    RoundedOnce(l.netPrice);
    RoundedOnce(l.vatRate);
    RoundedOnce(l.netTotal);
  }

  /** The search for lines finds the rendered lines one for one. */
  lemma {:induction false} LinesFound(m: Metadata, repr: Float -> string)
    ensures var found := Select(Cons(Render(m, repr), Nil), [], LINES);
            && |found| == |m.lines|
            && forall i :: 0 <= i < |m.lines| ==> found[i] == LineNode(m.lines[i], repr)
  {
    hide Select, Render, LineNode;
    FromRoot(m, repr, LINES, IncludedSupplyChainTradeLineItem);
    ReachLines(m, repr, ABOVE, []);
    assert [M(IncludedSupplyChainTradeLineItem)] + [] == LINES.steps;
    EachLine(m.lines, repr);
  }

  lemma {:induction false} EachLine(ls: seq<Line>, repr: Float -> string)
    ensures var found := FoundLines(ls, repr, LINES.steps);
            && |found| == |ls|
            && forall i :: 0 <= i < |ls| ==> found[i] == LineNode(ls[i], repr)
  {
    hide LineNode;
    if ls != [] {
      EachLine(ls[1..], repr);
    }
  }

  lemma {:induction false} SumBack(py: Python, m: Metadata, found: seq<Node>, k: nat)
    requires Faithful(py, m) && k <= |m.lines| == |found|
    requires forall i :: 0 <= i < |found| ==> found[i] == LineNode(m.lines[i], py.repr)
    ensures SumLines(py, found, k) == RoundedSum(m.lines, k)
  {
    hide LineNode, LineTotal, Add, Rounded, ItemOf, ExpectedItem;
    if k != 0 {
      SumBack(py, m, found, k - 1);
      ItemBack(py, m, m.lines[k - 1]);
    }
  }

  lemma {:induction false} ItemsBack(py: Python, m: Metadata, found: seq<Node>)
    requires Faithful(py, m) && |m.lines| == |found|
    requires forall i :: 0 <= i < |found| ==> found[i] == LineNode(m.lines[i], py.repr)
    ensures Items(py, found, Kept(|found|)) == ExpectedItems(py, m.lines)
  {
    hide LineNode, ItemOf, ExpectedItem, LineTotal;
    forall i | 0 <= i < Kept(|found|) ensures ItemOf(py, found[i]) == ExpectedItem(py, m.lines[i]) {
      ItemBack(py, m, m.lines[i]);
    }
  }

  /** The round trip: whatever the metadata, extracting the rendered invoice gives exactly
      what the metadata promise, the stated defaults and the ten-line cap included. */
  lemma {:induction false} ExtractRendered(py: Python, m: Metadata)
    requires Faithful(py, m)
    ensures ExtractOf(py, Render(m, py.repr)) == Expected(py, m)
  {
    hide Select, Render, FirstText, PartyOf, TotalsOf, ExpectedTotals, ExpectedSeller, ExpectedBuyer,
         Items, ExpectedItems, SumLines, RoundedSum, LineNode;
    var doc := Cons(Render(m, py.repr), Nil);
    var found := Select(doc, [], LINES);
    LinesFound(m, py.repr);
    NumberBack(m, py.repr);
    DateBack(m, py.repr);
    CurrencyBack(m, py.repr);
    PartiesBack(m, py.repr);
    SumBack(py, m, found, Kept(|found|));
    TotalsBack(py, m, SumLines(py, found, Kept(|found|)));
    ItemsBack(py, m, found);
  }

  /** `%.2f` text, read and printed again, is the same text. */
  lemma {:induction false} TextKept(py: Python, m: Metadata, f: Float, default: Float)
    requires Faithful(py, m)
    ensures Print2(ReadOr(py, Back(Print2(f)), default)) == Print2(f)
  {
    RoundedOnce(f);
  }

  /** Totals given as two-decimal text come back letter for letter. */
  lemma {:induction false} TotalsKept(py: Python, m: Metadata, net: Float, tax: Float, gross: Float, payable: Float)
    requires Faithful(py, m)
    requires m.amounts.taxBasisTotal == Print2(net) && m.amounts.taxTotal == Print2(tax)
    requires m.amounts.grandTotal == Print2(gross) && m.amounts.duePayable == Print2(payable)
    ensures ExtractOf(py, Render(m, py.repr)).totals
         == Totals(m.amounts.taxBasisTotal, m.amounts.taxTotal, m.amounts.grandTotal, m.amounts.duePayable)
  {
    hide ExtractOf, Render, Print2, Rounded, RoundedSum, Add, ReadOr, Back, ExpectedSeller, ExpectedBuyer, ExpectedItems;
    ExtractRendered(py, m);
    var n := ReadOr(py, Back(m.amounts.taxBasisTotal), RoundedSum(m.lines, Kept(|m.lines|)));
    var t := ReadOr(py, Back(m.amounts.taxTotal), ZERO);
    var g := ReadOr(py, Back(m.amounts.grandTotal), Add(n, t));
    TextKept(py, m, net, RoundedSum(m.lines, Kept(|m.lines|)));
    TextKept(py, m, tax, ZERO);
    TextKept(py, m, gross, Add(n, t));
    TextKept(py, m, payable, g);
  }

  /** Faithful reading is possible: the plain decimal reader is faithful to every invoice
      whose quantities are whole hundredths. */
  lemma {:induction false} PlainReaderFaithful(m: Metadata)
    requires forall l :: l in m.lines ==> Rounded(l.quantity) == l.quantity
    ensures Faithful(Python(ReadNumber, Print2), m)
  {
    forall f ensures ReadNumber(Print2(f)) == Some(Rounded(f)) {
      ReadPrinted(f);
    }
  }
}
