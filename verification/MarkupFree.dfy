/** Metadata free of markup: their rendered tree survives being written as text and parsed,
    so the extractor reads from the file what the metadata promise. */
module MarkupFree {
  import opened Wrappers
  import opened Decimal
  import opened Invoice
  import opened Xml
  import opened XmlText
  import opened Template
  import Extractor
  import RoundTrip
  import Sample

  // ---- The condition on the metadata ----

  predicate TextField(o: Option<string>) { o.Some? ==> CleanText(o.value) }

  /** An identifier and its scheme: the scheme is written only with the identifier. */
  predicate CodedField(id: Option<string>, scheme: Option<string>) {
    Given(id) ==> CleanText(id.value) && (scheme.Some? ==> CleanValue(scheme.value))
  }

  predicate FreeNote(n: Note) {
    match n
    case TextNote(text) => CleanText(text)
    case TaggedNote(subject, content) => TextField(subject) && CleanText(content)
  }

  predicate FreePeriod(p: Option<Period>) { p.Some? ==> CleanText(p.value.start) && CleanText(p.value.end) }

  predicate FreeProduct(l: Line) {
    && CodedField(l.globalId, l.globalIdScheme) && TextField(l.sellerAssignedId) && TextField(l.buyerAssignedId)
    && CleanText(l.name) && TextField(l.description) && TextField(l.origin)
  }

  predicate FreeLine(l: Line, repr: Float -> string) {
    && CleanText(l.lineId) && TextField(l.note) && FreeProduct(l) && CleanText(repr(l.quantity)) && CleanValue(l.unitCode)
    && CleanText(l.vatCategory) && FreePeriod(l.period)
  }

  /** The fields of an address that every party writes; only the seller writes a second line. */
  predicate FreeAddress(a: Address) {
    CleanText(a.line1) && CleanText(a.postcode) && CleanText(a.city) && CleanText(a.country)
  }

  /** A contact is written only with an e-mail address or a telephone number. */
  predicate FreeContact(name: Option<string>, phone: Option<string>, email: Option<string>) {
    Given(email) || Given(phone) ==> TextField(name) && TextField(phone) && TextField(email)
  }

  predicate FreeSeller(s: Seller) {
    && TextField(s.id) && CodedField(s.globalId, s.globalIdScheme) && CleanText(s.name) && TextField(s.siret)
    && FreeContact(s.contactName, s.phone, s.email)
    && (s.address.Some? ==> FreeAddress(s.address.value) && TextField(s.address.value.line2))
    && TextField(s.vatNumber) && TextField(s.taxNumber)
  }

  predicate FreeBuyer(b: Buyer) {
    && TextField(b.id) && CodedField(b.globalId, b.globalIdScheme) && CleanText(b.name)
    && FreeContact(b.contactName, b.phone, b.email)
    && (b.address.Some? ==> FreeAddress(b.address.value)) && TextField(b.vatNumber)
  }

  predicate FreeShipTo(s: Option<ShipTo>) {
    s.Some? ==> && TextField(s.value.id) && CodedField(s.value.globalId, s.value.globalIdScheme)
                && CleanText(s.value.name) && FreeAddress(s.value.address)
  }

  /** The bank is written only with an IBAN. */
  predicate FreeMeans(m: Metadata) {
    && TextField(m.paymentMeans)
    && (Given(m.seller.iban) ==> CleanText(m.seller.iban.value) && TextField(m.seller.bankName) && TextField(m.seller.bic))
  }

  predicate FreeTax(t: TaxDetail) {
    CleanText(t.calculated) && CleanText(t.basis) && CleanText(t.rate) && CleanText(t.category)
  }

  predicate FreeAdjustment(a: Adjustment) { TextField(a.reason) && TextField(a.reasonCode) && CleanText(a.vatCategory) }

  predicate FreeTerms(m: Metadata, repr: Float -> string) {
    && TextField(m.paymentTerms) && TextField(m.dueDate)
    && (m.discount.Some? ==> CleanText(repr(m.discount.value.percent)))
  }

  predicate FreeAmounts(a: Amounts) {
    && CleanText(a.taxBasisTotal) && CleanText(a.taxTotal) && CleanText(a.grandTotal) && CleanText(a.duePayable)
    && TextField(a.lineTotal) && TextField(a.chargeTotal) && TextField(a.allowanceTotal) && TextField(a.prepaid)
  }

  predicate FreeDocument(m: Metadata) {
    && CleanText(m.number) && CleanText(m.documentType) && CleanText(m.issueDate)
    && forall i :: 0 <= i < |m.notes| ==> FreeNote(m.notes[i])
  }

  predicate FreeSettlement(m: Metadata, repr: Float -> string) {
    && TextField(m.creditorReference) && CleanText(m.currency) && CleanValue(m.currency) && FreeMeans(m)
    && (forall i :: 0 <= i < |m.taxDetails| ==> FreeTax(m.taxDetails[i]))
    && (forall i :: 0 <= i < |m.allowances| ==> FreeAdjustment(m.allowances[i]))
    && (forall i :: 0 <= i < |m.charges| ==> FreeAdjustment(m.charges[i]))
    && FreeTerms(m, repr) && FreeAmounts(m.amounts)
  }

  /** No text that the template writes contains markup; those that become attributes contain no
      quote and no line break either. */
  predicate FreeOfMarkup(m: Metadata, repr: Float -> string) {
    && FreeDocument(m) && (forall i :: 0 <= i < |m.lines| ==> FreeLine(m.lines[i], repr))
    && TextField(m.buyerReference) && FreeSeller(m.seller) && FreeBuyer(m.buyer) && TextField(m.contractReference)
    && FreeShipTo(m.shipTo) && TextField(m.deliveryDate) && FreeSettlement(m, repr)
  }

  // ---- The template's own words and numbers ----

  /** No character that means anything to a parser. */
  predicate Tame(s: string) {
    forall i :: 0 <= i < |s| ==> s[i] !in "<>&\"\r\n\t"
  }

  lemma {:induction false} TameIsClean(s: string)
    requires Tame(s)
    ensures CleanText(s) && CleanValue(s)
  {
    assert forall i :: 0 <= i < |s| ==> s[i] != '<' && s[i] != '&' && s[i] != '\r' && s[i] != '>';
  }

  lemma {:induction false} PrintedClean(f: Float)
    ensures CleanText(Print2(f))
  {
    var a, b, c := Sign(f.neg), Digits(Cents(f) / 100), Pair(Cents(f));
    assert Print2(f) == a + b + "." + c;
    assert Tame(a) && Tame(b) && Tame(".") && Tame(c);
    assert Tame(a + b + "." + c);
    TameIsClean(Print2(f));
  }

  lemma {:induction false} IntClean(n: int)
    ensures CleanText(Int(n))
  {
    assert Tame(Int(n));
    TameIsClean(Int(n));
  }

  lemma {:induction false} TameJoin(s: string, t: string)
    requires Tame(s) && Tame(t)
    ensures Tame(s + t)
  {
  }

  lemma {:induction false} PlainGuideline(p: Profile)
    requires p.Minimum? || p.BasicWl? || p.En16931?
    ensures Tame(Guideline(p))
  {
  }

  lemma {:induction false} BasicGuideline()
    ensures Tame(Guideline(Basic))
  {
    PlainGuideline(En16931);
    TameJoin("urn:cen.eu:en16931:2017", "#compliant#");
    TameJoin("urn:cen.eu:en16931:2017" + "#compliant#", "urn:factur-x.eu:1p0:basic");
  }

  lemma {:induction false} ExtendedGuideline()
    ensures Tame(Guideline(Extended))
  {
    PlainGuideline(En16931);
    TameJoin("urn:cen.eu:en16931:2017", "#conformant#");
    TameJoin("urn:cen.eu:en16931:2017" + "#conformant#", "urn:factur-x.eu:1p0:extended");
  }

  lemma {:induction false} GuidelineClean(p: Profile)
    ensures CleanText(Guideline(p))
  {
    hide Tame, Guideline;
    match p {
      case Basic => BasicGuideline();
      case Extended => ExtendedGuideline();
      case _ => PlainGuideline(p);
    }
    TameIsClean(Guideline(p));
  }

  predicate WordsClean() {
    && CleanText("") && CleanText("VAT") && CleanText("true") && CleanText("false") && CleanText("FR")
    && CleanText("Street") && CleanText("City") && CleanText("58") && CleanValue("102") && CleanValue("0160")
    && CleanValue("0088") && CleanValue("0002") && CleanValue("VA") && CleanValue("FC") && CleanValue("DAY")
  }

  lemma {:induction false} Words()
    ensures WordsClean()
  {
  }

  // ---- Builders ----

  lemma {:induction false} Leaves()
    ensures forall part, text :: Clean(Leaf(part, text)) <==> CleanText(text)
    ensures forall part, a, v, text :: Clean(LeafWith(part, a, v, text)) <==> CleanValue(v) && CleanText(text)
    ensures forall part, kids :: Clean(Group(part, kids)) <==> CleanAll(kids)
    ensures forall tag, kids :: Clean(Section(tag, kids)) <==> CleanAll(kids)
  {
    Words();
    hide CleanText, CleanValue;
    forall part, a, v, text ensures Clean(LeafWith(part, a, v, text)) <==> CleanValue(v) && CleanText(text) {
      assert map[a := v][a] == v;
    }
  }

  lemma {:induction false} Fields()
    ensures forall part, o, rest :: CleanAll(Optional(part, o, rest)) <==> TextField(o) && CleanAll(rest)
    ensures forall part, a, v, o, rest ::
      CleanAll(OptionalWith(part, a, v, o, rest)) <==> (Given(o) ==> CleanValue(v) && CleanText(o.value)) && CleanAll(rest)
  {
    Words();
    Leaves();
    hide CleanText, CleanValue, Leaf, LeafWith;
  }

  /** What each piece of the template asks of what it is given. */
  lemma {:induction false} Builders()
    ensures WordsClean()
    ensures (forall f :: CleanText(Print2(f))) && (forall n :: CleanText(Int(n))) && (forall p :: CleanText(Guideline(p)))
    ensures forall part, text :: Clean(Leaf(part, text)) <==> CleanText(text)
    ensures forall part, a, v, text :: Clean(LeafWith(part, a, v, text)) <==> CleanValue(v) && CleanText(text)
    ensures forall part, kids :: Clean(Group(part, kids)) <==> CleanAll(kids)
    ensures forall tag, kids :: Clean(Section(tag, kids)) <==> CleanAll(kids)
    ensures CleanAll(Nil)
    ensures forall n, rest :: CleanAll(One(n, rest)) <==> Clean(n) && CleanAll(rest)
    ensures forall c, n, rest :: CleanAll(When(c, n, rest)) <==> (c ==> Clean(n)) && CleanAll(rest)
    ensures forall part, text, rest :: CleanAll(Text(part, text, rest)) <==> CleanText(text) && CleanAll(rest)
    ensures forall part, o, rest :: CleanAll(Optional(part, o, rest)) <==> TextField(o) && CleanAll(rest)
    ensures forall part, a, v, o, rest ::
      CleanAll(OptionalWith(part, a, v, o, rest)) <==> (Given(o) ==> CleanValue(v) && CleanText(o.value)) && CleanAll(rest)
  {
    Words();
    Leaves();
    Fields();
    forall f ensures CleanText(Print2(f)) {
      PrintedClean(f);
    }
    forall n ensures CleanText(Int(n)) {
      IntClean(n);
    }
    forall p ensures CleanText(Guideline(p)) {
      GuidelineClean(p);
    }
    hide CleanText, CleanValue, Print2, Int, Guideline, Leaf, LeafWith, Optional, OptionalWith;
  }

  // ---- The document ----

  lemma {:induction false} DateClean(part: Part, date: string)
    ensures Clean(Date(part, date)) <==> CleanText(date)
  {
    Builders();
    hide Clean, CleanAll;
  }

  lemma {:induction false} ContextClean(p: Profile)
    ensures Clean(Context(p))
  {
    Builders();
    hide Clean, CleanAll, Guideline;
  }

  lemma {:induction false} NotesClean(ns: seq<Note>)
    ensures CleanAll(Notes(ns)) <==> forall i :: 0 <= i < |ns| ==> FreeNote(ns[i])
  {
    Builders();
    hide Clean, CleanAll;
    if ns != [] {
      assert Clean(NoteNode(ns[0])) <==> FreeNote(ns[0]);
      hide NoteNode, FreeNote;
      NotesClean(ns[1..]);
      assert forall i :: 0 < i < |ns| ==> ns[i] == ns[1..][i - 1];
    }
  }

  lemma {:induction false} DocumentClean(m: Metadata)
    ensures Clean(Document(m)) <==> FreeDocument(m)
  {
    Builders();
    hide Clean, CleanAll, Date, Notes, FreeNote;
    DateClean(IssueDateTime, m.issueDate);
    NotesClean(m.notes);
  }

  // ---- Lines ----

  lemma {:induction false} PeriodsClean(p: Option<Period>, rest: Forest)
    ensures CleanAll(Periods(p, rest)) <==> FreePeriod(p) && CleanAll(rest)
  {
    Builders();
    hide Clean, CleanAll, Date;
    if p.Some? {
      DateClean(StartDateTime, p.value.start);
      DateClean(EndDateTime, p.value.end);
    }
  }

  lemma {:induction false} ProductClean(l: Line)
    ensures Clean(Product(l)) <==> FreeProduct(l)
  {
    Builders();
    hide Clean, CleanAll;
  }

  lemma {:induction false} LineAgreementClean(l: Line)
    ensures Clean(LineAgreement(l))
  {
    Builders();
    hide Clean, CleanAll, Print2;
    assert Clean(GrossPrice(l)) && Clean(NetPrice(l));
    hide GrossPrice, NetPrice;
  }

  lemma {:induction false} VatClean(part: Part, category: string, rate: Float)
    ensures Clean(VatNode(part, category, rate)) <==> CleanText(category)
  {
    Builders();
    hide Clean, CleanAll, Print2;
  }

  lemma {:induction false} LineSettlementClean(l: Line)
    ensures Clean(LineSettlement(l)) <==> CleanText(l.vatCategory) && FreePeriod(l.period)
  {
    Builders();
    hide Clean, CleanAll, Print2, VatNode, Periods, FreePeriod;
    VatClean(ApplicableTradeTax, l.vatCategory, l.vatRate);
    assert Clean(LineSum(l));
    hide LineSum;
    PeriodsClean(l.period, One(LineSum(l), Nil));
  }

  lemma {:induction false} QuantityClean(l: Line, repr: Float -> string)
    ensures var n := Node(S(BilledQuantity), map[UnitCode := l.unitCode], repr(l.quantity), Nil);
            Clean(n) <==> CleanText(repr(l.quantity)) && CleanValue(l.unitCode)
  {
    hide CleanText, CleanValue;
    assert map[UnitCode := l.unitCode][UnitCode] == l.unitCode;
  }

  lemma {:induction false} LineDeliveryClean(l: Line, repr: Float -> string)
    ensures Clean(LineDelivery(l, repr)) <==> CleanText(repr(l.quantity)) && CleanValue(l.unitCode)
  {
    Builders();
    hide Clean, CleanAll;
    QuantityClean(l, repr);
  }

  lemma {:induction false} LineClean(l: Line, repr: Float -> string)
    ensures Clean(LineNode(l, repr)) <==> FreeLine(l, repr)
  {
    Builders();
    hide Clean, CleanAll, Product, LineAgreement, LineDelivery, LineSettlement, FreeProduct, FreePeriod;
    ProductClean(l);
    LineAgreementClean(l);
    LineDeliveryClean(l, repr);
    LineSettlementClean(l);
    assert Clean(LineDocument(l)) <==> CleanText(l.lineId) && TextField(l.note);
    hide LineDocument;
  }

  lemma {:induction false} LinesClean(ls: seq<Line>, repr: Float -> string, rest: Forest)
    ensures CleanAll(LineNodes(ls, repr, rest)) <==> (forall i :: 0 <= i < |ls| ==> FreeLine(ls[i], repr)) && CleanAll(rest)
  {
    hide Clean, FreeLine, LineNode;
    if ls != [] {
      LineClean(ls[0], repr);
      LinesClean(ls[1..], repr, rest);
      assert forall i :: 0 < i < |ls| ==> ls[i] == ls[1..][i - 1];
    }
  }

  // ---- Parties ----

  lemma {:induction false} ContactClean(name: Option<string>, phone: Option<string>, email: Option<string>)
    ensures Clean(Contact(name, phone, email)) <==> TextField(name) && TextField(phone) && TextField(email)
  {
    Builders();
    hide Clean, CleanAll;
  }

  lemma {:induction false} AddressesClean(a: Address)
    ensures Clean(BuyerAddress(a)) <==> FreeAddress(a)
    ensures Clean(SellerAddress(Some(a))) <==> FreeAddress(a) && TextField(a.line2)
    ensures Clean(SellerAddress(None))
  {
    Builders();
    hide Clean, CleanAll;
  }

  lemma {:induction false} RegistrationClean(scheme: string, o: Option<string>)
    ensures CleanValue(scheme) ==> (Clean(TaxRegistration(scheme, o)) <==> TextField(o))
  {
    Builders();
    hide Clean, CleanAll;
  }

  lemma {:induction false} SellerClean(s: Seller)
    ensures Clean(SellerNode(s)) <==> FreeSeller(s)
  {
    Builders();
    hide Clean, CleanAll, Contact, SellerAddress, TaxRegistration, FreeAddress;
    ContactClean(s.contactName, s.phone, s.email);
    if s.address.Some? {
      AddressesClean(s.address.value);
    } else {
      AddressesClean(Address("", None, "", "", ""));
    }
    RegistrationClean("VA", s.vatNumber);
    RegistrationClean("FC", s.taxNumber);
    assert Clean(Siret(s)) <==> TextField(s.siret);
    hide Siret;
  }

  lemma {:induction false} BuyerClean(b: Buyer)
    ensures Clean(BuyerNode(b)) <==> FreeBuyer(b)
  {
    Builders();
    hide Clean, CleanAll, Contact, TaxRegistration, BuyerAddress, FreeAddress;
    ContactClean(b.contactName, b.phone, b.email);
    RegistrationClean("VA", b.vatNumber);
    if b.address.Some? {
      AddressesClean(b.address.value);
    }
    var rest := When(Given(b.vatNumber), TaxRegistration("VA", b.vatNumber), Nil);
    assert CleanAll(BuyerPlace(b.address, rest)) <==> (b.address.Some? ==> FreeAddress(b.address.value)) && CleanAll(rest);
    hide BuyerPlace;
  }

  lemma {:induction false} AgreementClean(m: Metadata)
    ensures Clean(Agreement(m))
       <==> TextField(m.buyerReference) && FreeSeller(m.seller) && FreeBuyer(m.buyer) && TextField(m.contractReference)
  {
    Builders();
    hide Clean, CleanAll, SellerNode, BuyerNode, FreeSeller, FreeBuyer;
    SellerClean(m.seller);
    BuyerClean(m.buyer);
  }

  lemma {:induction false} ShipTosClean(s: Option<ShipTo>, rest: Forest)
    ensures CleanAll(ShipTos(s, rest)) <==> FreeShipTo(s) && CleanAll(rest)
  {
    Builders();
    hide Clean, CleanAll;
  }

  lemma {:induction false} DeliveryClean(m: Metadata)
    ensures Clean(Delivery(m)) <==> FreeShipTo(m.shipTo) && TextField(m.deliveryDate)
  {
    Builders();
    hide Clean, CleanAll, Date, ShipTos, FreeShipTo;
    DateClean(OccurrenceDateTime, m.deliveryDate.GetOr(""));
    var event := Group(ActualDeliverySupplyChainEvent, One(Date(OccurrenceDateTime, m.deliveryDate.GetOr("")), Nil));
    ShipTosClean(m.shipTo, When(Given(m.deliveryDate), event, Nil));
  }

  // ---- Settlement ----

  lemma {:induction false} MeansClean(m: Metadata)
    ensures (Given(m.seller.iban) || Given(m.paymentMeans) ==> Clean(PaymentMeans(m))) <==> FreeMeans(m)
  {
    Builders();
    hide Clean, CleanAll;
    assert Given(m.seller.iban) ==>
      (Clean(Account(m.seller)) <==> CleanText(m.seller.iban.value) && TextField(m.seller.bankName));
    hide Account;
  }

  lemma {:induction false} TaxesClean(ts: seq<TaxDetail>, rest: Forest)
    ensures CleanAll(TaxNodes(ts, rest)) <==> (forall i :: 0 <= i < |ts| ==> FreeTax(ts[i])) && CleanAll(rest)
  {
    Builders();
    hide Clean, CleanAll;
    if ts != [] {
      assert Clean(TaxNode(ts[0])) <==> FreeTax(ts[0]);
      hide TaxNode, FreeTax;
      TaxesClean(ts[1..], rest);
      assert forall i :: 0 < i < |ts| ==> ts[i] == ts[1..][i - 1];
    }
  }

  lemma {:induction false} AdjustmentClean(charge: bool, a: Adjustment)
    ensures Clean(AdjustmentNode(charge, a)) <==> FreeAdjustment(a)
  {
    Builders();
    hide Clean, CleanAll, Print2, VatNode;
    VatClean(CategoryTradeTax, a.vatCategory, a.vatRate);
  }

  lemma {:induction false} AdjustmentsClean(charge: bool, s: seq<Adjustment>, rest: Forest)
    ensures CleanAll(AdjustmentNodes(charge, s, rest))
       <==> (forall i :: 0 <= i < |s| ==> FreeAdjustment(s[i])) && CleanAll(rest)
  {
    Builders();
    hide Clean, CleanAll, AdjustmentNode, FreeAdjustment;
    if s != [] {
      AdjustmentClean(charge, s[0]);
      AdjustmentsClean(charge, s[1..], rest);
      assert forall i :: 0 < i < |s| ==> s[i] == s[1..][i - 1];
    }
  }

  lemma {:induction false} TermsClean(m: Metadata, repr: Float -> string)
    ensures (Given(m.dueDate) || Given(m.paymentTerms) || m.discount.Some? ==> Clean(Terms(m, repr)))
       <==> FreeTerms(m, repr)
  {
    Builders();
    hide Clean, CleanAll, Date, Int;
    DateClean(DueDateDateTime, m.dueDate.GetOr(""));
    assert CleanAll(Discounts(m.discount, repr)) <==> (m.discount.Some? ==> CleanText(repr(m.discount.value.percent)));
    hide Discounts;
  }

  lemma {:induction false} SummationClean(m: Metadata)
    ensures Clean(Summation(m)) <==> FreeAmounts(m.amounts) && CleanValue(m.currency)
  {
    Builders();
    hide Clean, CleanAll;
  }

  lemma {:induction false} BalancesClean(m: Metadata, repr: Float -> string)
    ensures CleanAll(Balances(m, repr)) <==>
            && (forall i :: 0 <= i < |m.taxDetails| ==> FreeTax(m.taxDetails[i]))
            && (forall i :: 0 <= i < |m.allowances| ==> FreeAdjustment(m.allowances[i]))
            && (forall i :: 0 <= i < |m.charges| ==> FreeAdjustment(m.charges[i]))
            && FreeTerms(m, repr) && FreeAmounts(m.amounts) && CleanValue(m.currency)
  {
    Builders();
    hide Clean, CleanAll, Terms, Summation, TaxNodes, AdjustmentNodes, FreeTax, FreeAdjustment, FreeTerms, FreeAmounts;
    var end := When(Given(m.dueDate) || Given(m.paymentTerms) || m.discount.Some?, Terms(m, repr), One(Summation(m), Nil));
    TermsClean(m, repr);
    SummationClean(m);
    AdjustmentsClean(true, m.charges, end);
    AdjustmentsClean(false, m.allowances, AdjustmentNodes(true, m.charges, end));
    TaxesClean(m.taxDetails, AdjustmentNodes(false, m.allowances, AdjustmentNodes(true, m.charges, end)));
  }

  lemma {:induction false} CurrencyClean(currency: string)
    ensures Clean(Node(M(InvoiceCurrencyCode), map[], currency, Nil)) <==> CleanText(currency)
  {
  }

  lemma {:induction false} SettlementClean(m: Metadata, repr: Float -> string)
    ensures Clean(Settlement(m, repr)) <==> FreeSettlement(m, repr)
  {
    Builders();
    hide Clean, CleanAll, PaymentMeans, Balances, FreeMeans, FreeTax, FreeAdjustment, FreeTerms, FreeAmounts;
    CurrencyClean(m.currency);
    MeansClean(m);
    BalancesClean(m, repr);
  }

  // ---- The whole ----

  /** The rendered tree is free of markup exactly when the metadata are. */
  lemma {:induction false} RenderedClean(m: Metadata, repr: Float -> string)
    ensures Clean(Render(m, repr)) <==> FreeOfMarkup(m, repr)
  {
    Builders();
    hide Clean, CleanAll, Context, Document, LineNodes, Agreement, Delivery, Settlement, FreeDocument, FreeLine,
         FreeSeller, FreeBuyer, FreeShipTo, FreeSettlement;
    ContextClean(m.profile);
    DocumentClean(m);
    AgreementClean(m);
    DeliveryClean(m);
    SettlementClean(m, repr);
    LinesClean(m.lines, repr, One(Agreement(m), One(Delivery(m), One(Settlement(m, repr), Nil))));
  }

  /** The generated text reads back as the invoice that was rendered exactly when the metadata
      are free of markup. */
  lemma {:induction false} WrittenExactly(names: Names, m: Metadata, repr: Float -> string)
    requires Sound(names)
    ensures Parse(names, Write(names, Render(m, repr))) == Some(Render(m, repr)) <==> FreeOfMarkup(m, repr)
  {
    hide Sound, Render, FreeOfMarkup, Clean, Parse, Write;
    RenderedClean(m, repr);
    SurvivesExactly(names, Render(m, repr));
  }

  /** From metadata to file and back: whatever the metadata, as long as no text contains
      markup, the written invoice parses, and extracting it gives exactly what the metadata
      promise. */
  lemma {:induction false} ExtractWritten(py: Extractor.Python, names: Names, m: Metadata)
    requires Sound(names) && RoundTrip.Faithful(py, m) && FreeOfMarkup(m, py.repr)
    ensures var read := Parse(names, Write(names, Render(m, py.repr)));
            read.Some? && Extractor.ExtractOf(py, read.value) == RoundTrip.Expected(py, m)
  {
    WrittenExactly(names, m, py.repr);
    RoundTrip.ExtractRendered(py, m);
  }

  /** An ordinary company name is enough: the invoice of "Dupont & Fils" does not read back. */
  lemma {:induction false} Ampersand(names: Names)
    requires Sound(names)
    ensures var m := Sample.INVOICE.(seller := Sample.SELLER.(name := "Dupont & Fils"));
            Parse(names, Write(names, Render(m, Print2))) != Some(Render(m, Print2))
  {
    var m := Sample.INVOICE.(seller := Sample.SELLER.(name := "Dupont & Fils"));
    assert m.seller.name[7] == '&';
    assert !CleanText(m.seller.name);
    hide Sound, Parse, Write, Render, CleanText;
    assert !FreeSeller(m.seller);
    WrittenExactly(names, m, Print2);
  }
}
