/** The reader undoes the template: from a rendered invoice every field comes back that the
    template writes, and each from its own place. */
module ReadBack {
  import opened Wrappers
  import opened Decimal
  import opened Invoice
  import opened Xml
  import opened Template
  import opened Reader
  import Extractor
  import Landmarks
  import XmlText
  import MarkupFree

  // ---- What the metadata show once rendered ----

  /** A field left empty is not written. */
  function Filled(o: Option<string>): (r: Option<string>) { if o.Some? && o.value != "" then o else None }

  function NotEmpty(s: string, default: string): (r: string) { if s == "" then default else s }

  function Scheme(id: Option<string>, scheme: Option<string>, default: string): (r: Option<string>) {
    if Filled(id).Some? then Some(scheme.GetOr(default)) else None
  }

  function ShownNote(n: Note): (r: Note) {
    match n
    case TextNote(text) => TaggedNote(None, text)
    case TaggedNote(subject, content) => TaggedNote(Filled(subject), content)
  }

  /** A price of zero is not written. */
  function ShownPrice(o: Option<Float>): (r: Option<Float>) {
    if o.Some? && o.value.mag != 0.0 then Some(Rounded(o.value)) else None
  }

  function ShownLine(l: Line): (r: Line) {
    l.(netPrice := Rounded(l.netPrice), netTotal := Rounded(l.netTotal), vatRate := Rounded(l.vatRate),
       note := Filled(l.note), globalId := Filled(l.globalId), globalIdScheme := Scheme(l.globalId, l.globalIdScheme, "0160"),
       sellerAssignedId := Filled(l.sellerAssignedId), buyerAssignedId := Filled(l.buyerAssignedId),
       description := Filled(l.description), origin := Filled(l.origin), grossPrice := ShownPrice(l.grossPrice),
       priceDiscount := if ShownPrice(l.grossPrice).Some? then ShownPrice(l.priceDiscount) else None)
  }

  function ShownAddress(a: Address): (r: Address) {
    a.(line1 := NotEmpty(a.line1, "Street"), line2 := Filled(a.line2), city := NotEmpty(a.city, "City"),
       country := NotEmpty(a.country, "FR"))
  }

  function ShownContact(name: Option<string>, phone: Option<string>, email: Option<string>): (r: Option<string>) {
    if Filled(email).Some? || Filled(phone).Some? then Filled(name) else None
  }

  function ShownSeller(s: Seller): (r: Seller) {
    var bank := Filled(s.iban).Some?;
    Seller(
      s.name, if s.address.Some? then Some(ShownAddress(s.address.value)) else None,
      Filled(s.taxNumber), Filled(s.vatNumber), Filled(s.siret), Filled(s.globalId),
      Scheme(s.globalId, s.globalIdScheme, "0088"), ShownContact(s.contactName, s.phone, s.email),
      Filled(s.phone), Filled(s.email), Filled(s.iban), if bank then Filled(s.bic) else None,
      if bank then Filled(s.bankName) else None, Filled(s.id))
  }

  function ShownBuyer(b: Buyer): (r: Buyer) {
    Buyer(
      b.name, if b.address.Some? then Some(ShownAddress(b.address.value).(line2 := None)) else None, Filled(b.vatNumber),
      Filled(b.globalId), Scheme(b.globalId, b.globalIdScheme, "0088"), ShownContact(b.contactName, b.phone, b.email),
      Filled(b.phone), Filled(b.email), Filled(b.id))
  }

  function ShownShipTo(s: ShipTo): (r: ShipTo) {
    ShipTo(Filled(s.id), Filled(s.globalId), Scheme(s.globalId, s.globalIdScheme, "0088"), s.name,
           s.address.(line2 := None))
  }

  function ShownAdjustment(a: Adjustment): (r: Adjustment) {
    a.(amount := Rounded(a.amount), reason := Filled(a.reason), reasonCode := Filled(a.reasonCode),
       vatRate := Rounded(a.vatRate))
  }

  function ShownAmounts(a: Amounts): (r: Amounts) {
    a.(lineTotal := Some(a.lineTotal.GetOr(a.taxBasisTotal)), prepaid := Filled(a.prepaid))
  }

  /** All of the metadata but what the template leaves out: empty fields, prices of zero, more
      than two decimals, a second address line of the buyer or the recipient, a contact without
      e-mail and telephone, a bank without an IBAN. Defaults are filled in. */
  function Shown(m: Metadata): (r: Metadata) {
    m.(seller := ShownSeller(m.seller), buyer := ShownBuyer(m.buyer),
       lines := seq(|m.lines|, i requires 0 <= i < |m.lines| => ShownLine(m.lines[i])),
       amounts := ShownAmounts(m.amounts), dueDate := Filled(m.dueDate), paymentTerms := Filled(m.paymentTerms),
       notes := seq(|m.notes|, i requires 0 <= i < |m.notes| => ShownNote(m.notes[i])),
       buyerReference := Filled(m.buyerReference), contractReference := Filled(m.contractReference),
       deliveryDate := Filled(m.deliveryDate), shipTo := if m.shipTo.Some? then Some(ShownShipTo(m.shipTo.value)) else None,
       creditorReference := Filled(m.creditorReference),
       allowances := seq(|m.allowances|, i requires 0 <= i < |m.allowances| => ShownAdjustment(m.allowances[i])),
       charges := seq(|m.charges|, i requires 0 <= i < |m.charges| => ShownAdjustment(m.charges[i])),
       paymentMeans := if Filled(m.seller.iban).Some? || Filled(m.paymentMeans).Some?
                       then Some(m.paymentMeans.GetOr("58")) else None)
  }

  // ---- Reading through the builders ----

  lemma {:induction false} Fields()
    ensures forall part, o, rest, g ::
      Kid(Optional(part, o, rest), g) == if Filled(o).Some? && P(part) == g then Some(Leaf(part, o.value)) else Kid(rest, g)
    ensures forall part, a, v, o, rest, g ::
      Kid(OptionalWith(part, a, v, o, rest), g)
      == if Filled(o).Some? && P(part) == g then Some(LeafWith(part, a, v, o.value)) else Kid(rest, g)
  {
  }

  /** Which child is found first, builder by builder. */
  lemma {:induction false} Reads()
    ensures forall g :: Kid(Nil, g) == None
    ensures forall n, rest, g :: Kid(One(n, rest), g) == if n.tag == g then Some(n) else Kid(rest, g)
    ensures forall c, n, rest, g :: Kid(When(c, n, rest), g) == if c && n.tag == g then Some(n) else Kid(rest, g)
    ensures forall part, text, rest, g ::
      Kid(Text(part, text, rest), g) == if P(part) == g then Some(Leaf(part, text)) else Kid(rest, g)
    ensures forall part, o, rest, g ::
      Kid(Optional(part, o, rest), g) == if Filled(o).Some? && P(part) == g then Some(Leaf(part, o.value)) else Kid(rest, g)
    ensures forall part, a, v, o, rest, g ::
      Kid(OptionalWith(part, a, v, o, rest), g)
      == if Filled(o).Some? && P(part) == g then Some(LeafWith(part, a, v, o.value)) else Kid(rest, g)
  {
    Fields();
    hide Optional, OptionalWith;
  }

  lemma {:induction false} TaxBack(t: TaxDetail)
    ensures ReadTax(TaxNode(t)) == t
  {
    Reads();
    hide Kid, One, Text;
  }

  lemma {:induction false} DateBack(part: Part, date: string)
    ensures TextWith(Date(part, date).kids, DateTimeString, Format, "102") == Some(date)
  {
    Reads();
    hide Kid, One;
  }

  // ---- The document ----

  lemma {:induction false} NoteBack(n: Note)
    ensures ReadNote(NoteNode(n)) == ShownNote(n)
  {
    Reads();
    hide Kid, Optional, Text;
  }

  lemma {:induction false} NotesBack(ns: seq<Note>)
    ensures var found := Kids(Notes(ns), P(IncludedNote));
            |found| == |ns| && forall i :: 0 <= i < |ns| ==> ReadNote(found[i]) == ShownNote(ns[i])
  {
    if ns != [] {
      NoteBack(ns[0]);
      NotesBack(ns[1..]);
      assert Kids(Notes(ns), P(IncludedNote)) == [NoteNode(ns[0])] + Kids(Notes(ns[1..]), P(IncludedNote));
      hide ReadNote, ShownNote, Kids, NoteNode;
    }
  }

  lemma {:induction false} ProfileBack(p: Profile)
    ensures TextAt(Under(Context(p).kids, P(GuidelineSpecifiedDocumentContextParameter)), ID) == Some(Guideline(p))
    ensures ProfileOf(Guideline(p)) == p
  {
    Reads();
    hide Kid, One, Text;
    assert Guideline(Minimum)[20] == 'm' && Guideline(BasicWl)[20] == 'b';
    assert |Guideline(En16931)| == 23 && |Guideline(Minimum)| == |Guideline(BasicWl)| == 27;
    assert |Guideline(Basic)| == 59 && |Guideline(Extended)| == 63;
  }

  // ---- Lines ----

  lemma {:induction false} VatBack(read: Read, part: Part, category: string, rate: Float)
    requires read(Print2(rate)) == Some(Rounded(rate))
    ensures ReadVat(read, VatNode(part, category, rate).kids) == (category, Rounded(rate))
  {
    Reads();
    hide Kid, Text, Print2, Rounded;
  }

  lemma {:induction false} ProductBack(l: Line)
    ensures var product := Product(l).kids;
            && TextAt(product, Name) == Some(l.name) && TextAt(product, GlobalID) == Filled(l.globalId)
            && AttrAt(product, GlobalID, SchemeID) == Scheme(l.globalId, l.globalIdScheme, "0160")
            && TextAt(product, SellerAssignedID) == Filled(l.sellerAssignedId)
            && TextAt(product, BuyerAssignedID) == Filled(l.buyerAssignedId)
            && TextAt(product, Description) == Filled(l.description)
            && TextAt(Under(product, P(OriginTradeCountry)), ID) == Filled(l.origin)
  {
    Reads();
    hide Kid, When, Text, Optional, OptionalWith, Plain, Bare;
  }

  lemma {:induction false} PricesBack(read: Read, l: Line)
    requires forall f :: read(Print2(f)) == Some(Rounded(f))
    ensures var agreement := LineAgreement(l).kids;
            var gross := Under(agreement, P(GrossPriceProductTradePrice));
            var discount := Under(gross, P(AppliedTradeAllowanceCharge));
            && NumberAt(read, Under(agreement, P(NetPriceProductTradePrice)), ChargeAmount) == Some(Rounded(l.netPrice))
            && NumberAt(read, gross, ChargeAmount) == ShownPrice(l.grossPrice)
            && (if FlagAt(discount) == Some("false") then NumberAt(read, discount, ActualAmount) else None)
               == (if ShownPrice(l.grossPrice).Some? then ShownPrice(l.priceDiscount) else None)
  {
    Reads();
    hide Kid, One, When, Text, Print2, Rounded, Plain, Bare;
  }

  lemma {:induction false} SettledBack(read: Read, l: Line)
    requires forall f :: read(Print2(f)) == Some(Rounded(f))
    ensures var settled := LineSettlement(l).kids;
            && ReadVat(read, Under(settled, P(ApplicableTradeTax))) == (l.vatCategory, Rounded(l.vatRate))
            && NumberAt(read, Under(settled, P(SpecifiedTradeSettlementLineMonetarySummation)), LineTotalAmount)
               == Some(Rounded(l.netTotal))
            && ReadPeriod(settled) == l.period
  {
    Reads();
    VatBack(read, ApplicableTradeTax, l.vatCategory, l.vatRate);
    if l.period.Some? {
      DateBack(StartDateTime, l.period.value.start);
      DateBack(EndDateTime, l.period.value.end);
    }
    hide Kid, One, Text, Print2, Rounded, VatNode, Date, ReadVat, TextWith, Plain, Bare;
  }

  /** The sections of a line. */
  lemma {:induction false} LineParts(l: Line, repr: Float -> string)
    ensures var kids := LineNode(l, repr).kids;
            && Under(kids, P(AssociatedDocumentLineDocument)) == LineDocument(l).kids
            && Under(kids, S(SpecifiedTradeProduct)) == Product(l).kids
            && Under(kids, S(SpecifiedLineTradeAgreement)) == LineAgreement(l).kids
            && Under(kids, S(SpecifiedLineTradeSettlement)) == LineSettlement(l).kids
            && Kid(Under(kids, P(SpecifiedLineTradeDelivery)), S(BilledQuantity))
               == Some(Node(S(BilledQuantity), map[UnitCode := l.unitCode], repr(l.quantity), Nil))
  {
    Reads();
    hide Kid, One, Product, LineAgreement, LineSettlement, LineDocument, Plain, Bare;
  }

  lemma {:induction false} LineBack(py: Extractor.Python, l: Line)
    requires forall f :: py.read(Print2(f)) == Some(Rounded(f))
    requires py.read(py.repr(l.quantity)) == Some(l.quantity)
    ensures ReadLine(py.read, LineNode(l, py.repr)) == ShownLine(l)
  {
    hide Kid, Under, Print2, Rounded, LineNode, Product, LineAgreement, LineSettlement, LineDocument, ReadVat,
         ReadPeriod, NumberAt, FlagAt, TextAt, AttrAt, ShownPrice, Scheme, Filled, Plain, Bare;
    LineParts(l, py.repr);
    ProductBack(l);
    PricesBack(py.read, l);
    SettledBack(py.read, l);
    HeadBack(l);
  }

  lemma {:induction false} HeadBack(l: Line)
    ensures TextAt(LineDocument(l).kids, LineID) == Some(l.lineId)
    ensures TextAt(Under(LineDocument(l).kids, P(IncludedNote)), Content) == Filled(l.note)
  {
    Reads();
    hide Kid, When, Text, Plain, Bare;
  }

  lemma {:induction false} LinesBack(py: Extractor.Python, ls: seq<Line>, rest: Forest)
    requires forall f :: py.read(Print2(f)) == Some(Rounded(f))
    requires forall l :: l in ls ==> py.read(py.repr(l.quantity)) == Some(l.quantity)
    requires Kids(rest, M(IncludedSupplyChainTradeLineItem)) == []
    ensures var found := Kids(LineNodes(ls, py.repr, rest), M(IncludedSupplyChainTradeLineItem));
            |found| == |ls| && forall i :: 0 <= i < |ls| ==> ReadLine(py.read, found[i]) == ShownLine(ls[i])
  {
    hide LineNode, ReadLine, ShownLine, Print2, Rounded;
    if ls != [] {
      LineBack(py, ls[0]);
      LinesBack(py, ls[1..], rest);
    }
  }

  lemma {:induction false} PastLines(ls: seq<Line>, repr: Float -> string, rest: Forest, g: Tag)
    requires g != M(IncludedSupplyChainTradeLineItem)
    ensures Kid(LineNodes(ls, repr, rest), g) == Kid(rest, g)
  {
    hide LineNode;
    if ls != [] {
      PastLines(ls[1..], repr, rest, g);
    }
  }

  // ---- Parties ----

  lemma {:induction false} ContactBack(name: Option<string>, phone: Option<string>, email: Option<string>)
    ensures var contact := Contact(name, phone, email).kids;
            && TextAt(contact, PersonName) == Filled(name)
            && TextAt(Under(contact, P(TelephoneUniversalCommunication)), CompleteNumber) == Filled(phone)
            && TextAt(Under(contact, P(EmailURIUniversalCommunication)), URIID) == Filled(email)
  {
    Reads();
    hide Kid, When, Text, Optional, Plain, Bare;
  }

  lemma {:induction false} AddressesBack(a: Address)
    ensures ReadAddress(SellerAddress(Some(a)).kids) == Some(ShownAddress(a)) && ReadAddress(SellerAddress(None).kids) == None
    ensures ReadAddress(BuyerAddress(a).kids) == Some(ShownAddress(a).(line2 := None))
  {
    Reads();
    hide Kid, Text, Optional, Plain, Bare;
  }

  lemma {:induction false} RegistrationBack(scheme: string, o: Option<string>, other: string)
    ensures TextWith(TaxRegistration(scheme, o).kids, ID, SchemeID, other)
         == if scheme == other then Some(o.GetOr("")) else None
  {
    Reads();
    hide Kid, One, Plain, Bare;
  }

  lemma {:induction false} Registrations()
    ensures forall s :: Registered(Nil, s) == None
    ensures forall n: Node, rest, s :: n.tag != S(SpecifiedTaxRegistration) ==> Registered(One(n, rest), s) == Registered(rest, s)
    ensures forall c, n: Node, rest, s ::
      n.tag != S(SpecifiedTaxRegistration) ==> Registered(When(c, n, rest), s) == Registered(rest, s)
    ensures forall part, text, rest, s :: Registered(Text(part, text, rest), s) == Registered(rest, s)
    ensures forall part, o, rest, s :: Registered(Optional(part, o, rest), s) == Registered(rest, s)
    ensures forall part, a, v, o, rest, s :: Registered(OptionalWith(part, a, v, o, rest), s) == Registered(rest, s)
  {
    hide TextWith;
  }

  lemma {:induction false} RegisteredWhen(c: bool, scheme: string, o: Option<string>, rest: Forest, other: string)
    ensures Registered(When(c, TaxRegistration(scheme, o), rest), other)
         == if c && scheme == other then Some(o.GetOr("")) else Registered(rest, other)
  {
    RegistrationBack(scheme, o, other);
    hide TextWith, TaxRegistration;
  }

  /** The groups of a seller. */
  lemma {:induction false} SellerParts(s: Seller)
    ensures var kids, contact := SellerNode(s).kids, Contact(s.contactName, s.phone, s.email).kids;
            && TextAt(kids, ID) == Filled(s.id) && TextAt(kids, Name) == Some(s.name)
            && TextAt(kids, GlobalID) == Filled(s.globalId)
            && AttrAt(kids, GlobalID, SchemeID) == Scheme(s.globalId, s.globalIdScheme, "0088")
            && Under(kids, P(PostalTradeAddress)) == SellerAddress(s.address).kids
            && Under(kids, P(DefinedTradeContact))
               == (if Filled(s.email).Some? || Filled(s.phone).Some? then contact else Nil)
            && TextWith(Under(kids, P(SpecifiedLegalOrganization)), ID, SchemeID, "0002") == Filled(s.siret)
  {
    Reads();
    hide Kid, One, When, Text, Optional, OptionalWith, Contact, SellerAddress, TaxRegistration, Plain, Bare;
  }

  lemma {:induction false} SellerRegistered(s: Seller)
    ensures Registered(SellerNode(s).kids, "VA") == Filled(s.vatNumber)
    ensures Registered(SellerNode(s).kids, "FC") == Filled(s.taxNumber)
  {
    Registrations();
    var rest := When(Given(s.taxNumber), TaxRegistration("FC", s.taxNumber), Nil);
    RegisteredWhen(Given(s.vatNumber), "VA", s.vatNumber, rest, "VA");
    RegisteredWhen(Given(s.vatNumber), "VA", s.vatNumber, rest, "FC");
    RegisteredWhen(Given(s.taxNumber), "FC", s.taxNumber, Nil, "VA");
    RegisteredWhen(Given(s.taxNumber), "FC", s.taxNumber, Nil, "FC");
    assert "VA"[0] != "FC"[0];
    hide Registered, One, When, Text, Optional, OptionalWith, Contact, SellerAddress, Siret, TaxRegistration, Plain,
         Bare;
  }

  /** The bank, from the payment means. */
  lemma {:induction false} BankBack(m: Metadata)
    ensures var means := PaymentMeans(m).kids;
            var account := Under(means, P(PayeePartyCreditorFinancialAccount));
            && TextAt(means, TypeCode) == Some(m.paymentMeans.GetOr("58"))
            && TextAt(account, IBANID) == Filled(m.seller.iban)
            && TextAt(account, AccountName) == (if Filled(m.seller.iban).Some? then Filled(m.seller.bankName) else None)
            && TextAt(Under(means, P(PayeeSpecifiedCreditorFinancialInstitution)), BICID)
               == (if Filled(m.seller.iban).Some? then Filled(m.seller.bic) else None)
  {
    Reads();
    hide Kid, When, Text, Optional, Plain, Bare;
  }

  function MeansOf(m: Metadata): (ns: Forest) {
    if Given(m.seller.iban) || Given(m.paymentMeans) then PaymentMeans(m).kids else Nil
  }

  /** The bank, whether or not payment means are written. */
  lemma {:induction false} MeansBack(m: Metadata)
    ensures var means, s := MeansOf(m), m.seller;
            var account := Under(means, P(PayeePartyCreditorFinancialAccount));
            && TextAt(account, IBANID) == ShownSeller(s).iban && TextAt(account, AccountName) == ShownSeller(s).bankName
            && TextAt(Under(means, P(PayeeSpecifiedCreditorFinancialInstitution)), BICID) == ShownSeller(s).bic
            && TextAt(means, TypeCode) == Shown(m).paymentMeans
  {
    BankBack(m);
    assert forall g :: Under(Nil, g) == Nil;
    assert forall part :: TextAt(Nil, part) == None;
    hide Kid, Under, TextAt, PaymentMeans, ShownAddress, Scheme, ShownContact, ShownLine, ShownNote, ShownAdjustment;
  }

  /** The contact, whether or not it is written. */
  lemma {:induction false} ShownContactBack(name: Option<string>, phone: Option<string>, email: Option<string>)
    ensures var contact := if Filled(email).Some? || Filled(phone).Some? then Contact(name, phone, email).kids else Nil;
            && TextAt(contact, PersonName) == ShownContact(name, phone, email)
            && TextAt(Under(contact, P(TelephoneUniversalCommunication)), CompleteNumber) == Filled(phone)
            && TextAt(Under(contact, P(EmailURIUniversalCommunication)), URIID) == Filled(email)
  {
    ContactBack(name, phone, email);
    assert forall g :: Under(Nil, g) == Nil;
    assert forall part :: TextAt(Nil, part) == None;
    hide Kid, Under, TextAt, Contact;
  }

  lemma {:induction false} SellerAddressBack(a: Option<Address>)
    ensures ReadAddress(SellerAddress(a).kids) == if a.Some? then Some(ShownAddress(a.value)) else None
  {
    hide ReadAddress, SellerAddress, ShownAddress;
    if a.Some? {
      AddressesBack(a.value);
    } else {
      AddressesBack(Address("", None, "", "", ""));
    }
  }

  lemma {:induction false} SellerBack(m: Metadata)
    ensures ReadSeller(SellerNode(m.seller).kids, MeansOf(m)) == ShownSeller(m.seller)
  {
    var s := m.seller;
    SellerParts(s);
    SellerRegistered(s);
    ShownContactBack(s.contactName, s.phone, s.email);
    MeansBack(m);
    SellerAddressBack(s.address);
    hide Kid, Under, TextAt, AttrAt, TextWith, Registered, ReadAddress, SellerNode, Contact, SellerAddress, MeansOf,
         ShownAddress, ShownContact, Scheme, Shown, Filled, Plain, Bare;
  }

  lemma {:induction false} BuyerParts(b: Buyer)
    ensures var kids, contact := BuyerNode(b).kids, Contact(b.contactName, b.phone, b.email).kids;
            && TextAt(kids, ID) == Filled(b.id) && TextAt(kids, Name) == Some(b.name)
            && TextAt(kids, GlobalID) == Filled(b.globalId)
            && AttrAt(kids, GlobalID, SchemeID) == Scheme(b.globalId, b.globalIdScheme, "0088")
            && Under(kids, P(PostalTradeAddress)) == (if b.address.Some? then BuyerAddress(b.address.value).kids else Nil)
            && Under(kids, P(DefinedTradeContact))
               == (if Filled(b.email).Some? || Filled(b.phone).Some? then contact else Nil)
  {
    Reads();
    hide Kid, One, When, Text, Optional, OptionalWith, Contact, BuyerAddress, TaxRegistration, Plain, Bare;
  }

  lemma {:induction false} BuyerRegistered(b: Buyer)
    ensures Registered(BuyerNode(b).kids, "VA") == Filled(b.vatNumber)
  {
    Registrations();
    RegisteredWhen(Given(b.vatNumber), "VA", b.vatNumber, Nil, "VA");
    hide Registered, One, When, Text, Optional, OptionalWith, Contact, BuyerAddress, TaxRegistration, Plain, Bare;
  }

  lemma {:induction false} BuyerBack(b: Buyer)
    ensures ReadBuyer(BuyerNode(b).kids) == ShownBuyer(b)
  {
    BuyerParts(b);
    BuyerRegistered(b);
    ShownContactBack(b.contactName, b.phone, b.email);
    if b.address.Some? {
      AddressesBack(b.address.value);
    }
    assert ReadAddress(Nil) == None;
    hide Kid, Under, TextAt, AttrAt, Registered, ReadAddress, BuyerNode, Contact, BuyerAddress, ShownAddress,
         ShownContact, Scheme, Plain, Bare;
  }

  // ---- Delivery and settlement ----

  lemma {:induction false} ShipToBack(s: Option<ShipTo>, rest: Forest)
    requires Kid(rest, P(ShipToTradeParty)) == None
    ensures ReadShipTo(ShipTos(s, rest)) == if s.Some? then Some(ShownShipTo(s.value)) else None
    ensures forall g :: g != P(ShipToTradeParty) ==> Kid(ShipTos(s, rest), g) == Kid(rest, g)
  {
    Reads();
    hide Kid, One, Text, Optional, OptionalWith, Plain, Bare;
  }

  lemma {:induction false} AdjustmentBack(read: Read, charge: bool, a: Adjustment)
    requires forall f :: read(Print2(f)) == Some(Rounded(f))
    ensures ReadAdjustment(read, AdjustmentNode(charge, a)) == ShownAdjustment(a)
    ensures FlagAt(AdjustmentNode(charge, a).kids) == Some(if charge then "true" else "false")
  {
    Reads();
    VatBack(read, CategoryTradeTax, a.vatCategory, a.vatRate);
    hide Kid, One, Text, Optional, VatNode, ReadVat, Print2, Rounded, Plain, Bare;
  }

  lemma {:induction false} IntBack(n: int)
    ensures ReadInt(Int(n)) == n
  {
    if n < 0 {
      NatOfDigits(-n);
      assert Int(n)[1..] == Digits(-n);
    } else {
      NatOfDigits(n);
      assert Int(n)[0] != '-';
    }
    hide Digits, NatOf;
  }

  lemma {:induction false} DiscountBack(py: Extractor.Python, d: Option<Discount>)
    requires d.Some? ==> py.read(py.repr(d.value.percent)) == Some(d.value.percent)
    ensures ReadDiscount(py.read, Discounts(d, py.repr)) == d
    ensures forall g :: g != P(ApplicableTradePaymentDiscountTerms) ==> Kid(Discounts(d, py.repr), g) == None
  {
    Reads();
    if d.Some? {
      IntBack(d.value.days);
    }
    hide Kid, One, Text, Int, ReadInt, Plain, Bare;
  }

  lemma {:induction false} TermsBack(py: Extractor.Python, m: Metadata)
    requires m.discount.Some? ==> py.read(py.repr(m.discount.value.percent)) == Some(m.discount.value.percent)
    ensures var terms := Terms(m, py.repr).kids;
            && DateAt(terms, DueDateDateTime) == Filled(m.dueDate) && TextAt(terms, Description) == Filled(m.paymentTerms)
            && ReadDiscount(py.read, terms) == m.discount
  {
    Reads();
    DiscountBack(py, m.discount);
    DateBack(DueDateDateTime, m.dueDate.GetOr(""));
    hide Kid, When, Optional, Discounts, ReadInt, NumberAt, TextWith, Date, Plain, Bare;
  }

  lemma {:induction false} AmountsBack(m: Metadata)
    ensures ReadAmounts(Summation(m).kids, m.currency) == ShownAmounts(m.amounts)
  {
    Reads();
    hide Kid, One, When, Text, Optional, Plain, Bare;
  }

  // ---- Taxes, allowances and charges ----

  lemma {:induction false} PastTaxes(ts: seq<TaxDetail>, rest: Forest, g: Tag)
    requires g != P(ApplicableTradeTax)
    ensures Kid(TaxNodes(ts, rest), g) == Kid(rest, g) && Kids(TaxNodes(ts, rest), g) == Kids(rest, g)
  {
    hide TaxNode;
    if ts != [] {
      PastTaxes(ts[1..], rest, g);
    }
  }

  lemma {:induction false} TaxesBack(ts: seq<TaxDetail>, rest: Forest)
    requires Kids(rest, P(ApplicableTradeTax)) == []
    ensures var found := Kids(TaxNodes(ts, rest), P(ApplicableTradeTax));
            |found| == |ts| && forall i :: 0 <= i < |ts| ==> ReadTax(found[i]) == ts[i]
  {
    hide TaxNode, ReadTax;
    if ts != [] {
      TaxBack(ts[0]);
      TaxesBack(ts[1..], rest);
    }
  }

  lemma {:induction false} PastAdjustments(charge: bool, s: seq<Adjustment>, rest: Forest, g: Tag)
    requires g != P(SpecifiedTradeAllowanceCharge)
    ensures Kid(AdjustmentNodes(charge, s, rest), g) == Kid(rest, g)
    ensures Kids(AdjustmentNodes(charge, s, rest), g) == Kids(rest, g)
  {
    hide AdjustmentNode;
    if s != [] {
      PastAdjustments(charge, s[1..], rest, g);
    }
  }

  function ShownAll(s: seq<Adjustment>): (r: seq<Adjustment>) {
    if s == [] then [] else [ShownAdjustment(s[0])] + ShownAll(s[1..])
  }

  function Flag(charge: bool): (s: string) { if charge then "true" else "false" }

  lemma {:induction false} ReadStep(read: Read, n: Node, more: seq<Node>, flag: string)
    ensures ReadAdjustments(read, [n] + more, flag)
         == (if FlagAt(n.kids) == Some(flag) then [ReadAdjustment(read, n)] else []) + ReadAdjustments(read, more, flag)
  {
    hide FlagAt, ReadAdjustment;
    assert ([n] + more)[1..] == more;
  }

  /** Allowances are told from charges by their indicator, and both keep their order. */
  lemma {:induction false} AdjustmentsBack(read: Read, charge: bool, s: seq<Adjustment>, rest: Forest, flag: bool)
    requires forall f :: read(Print2(f)) == Some(Rounded(f))
    ensures ReadAdjustments(read, Kids(AdjustmentNodes(charge, s, rest), P(SpecifiedTradeAllowanceCharge)), Flag(flag))
         == (if charge == flag then ShownAll(s) else [])
            + ReadAdjustments(read, Kids(rest, P(SpecifiedTradeAllowanceCharge)), Flag(flag))
  {
    hide AdjustmentNode, ReadAdjustments, ReadAdjustment, FlagAt, ShownAdjustment, Print2, Rounded, Plain, Bare, Free,
         Shallow;
    if s != [] {
      var n, more := AdjustmentNode(charge, s[0]), Kids(AdjustmentNodes(charge, s[1..], rest), P(SpecifiedTradeAllowanceCharge));
      assert Kids(AdjustmentNodes(charge, s, rest), P(SpecifiedTradeAllowanceCharge)) == [n] + more;
      assert "true"[0] != "false"[0];
      hide Kids, AdjustmentNodes;
      AdjustmentBack(read, charge, s[0]);
      AdjustmentsBack(read, charge, s[1..], rest, flag);
      ReadStep(read, n, more, Flag(flag));
    }
  }

  lemma {:induction false} ShownAllIs(s: seq<Adjustment>)
    ensures ShownAll(s) == seq(|s|, i requires 0 <= i < |s| => ShownAdjustment(s[i]))
  {
    hide ShownAdjustment;
    if s != [] {
      ShownAllIs(s[1..]);
    }
  }

  // ---- The settlement ----

  function TermsOf(m: Metadata, repr: Float -> string): (ns: Forest) {
    if Given(m.dueDate) || Given(m.paymentTerms) || m.discount.Some? then Terms(m, repr).kids else Nil
  }

  lemma {:induction false} ShownTermsBack(py: Extractor.Python, m: Metadata)
    requires m.discount.Some? ==> py.read(py.repr(m.discount.value.percent)) == Some(m.discount.value.percent)
    ensures var terms := TermsOf(m, py.repr);
            && DateAt(terms, DueDateDateTime) == Filled(m.dueDate) && TextAt(terms, Description) == Filled(m.paymentTerms)
            && ReadDiscount(py.read, terms) == m.discount
  {
    TermsBack(py, m);
    hide Terms, ReadInt, NumberAt;
  }

  lemma {:induction false} BalancesParts(m: Metadata, repr: Float -> string)
    ensures var ns := Balances(m, repr);
            && Under(ns, P(SpecifiedTradePaymentTerms)) == TermsOf(m, repr)
            && Under(ns, M(SpecifiedTradeSettlementHeaderMonetarySummation)) == Summation(m).kids
  {
    var end := When(Given(m.dueDate) || Given(m.paymentTerms) || m.discount.Some?, Terms(m, repr), One(Summation(m), Nil));
    var charges := AdjustmentNodes(true, m.charges, end);
    var allowances := AdjustmentNodes(false, m.allowances, charges);
    forall g | g == P(SpecifiedTradePaymentTerms) || g == M(SpecifiedTradeSettlementHeaderMonetarySummation)
      ensures Kid(Balances(m, repr), g) == Kid(end, g) {
      PastTaxes(m.taxDetails, allowances, g);
      PastAdjustments(false, m.allowances, charges, g);
      PastAdjustments(true, m.charges, end, g);
    }
    Reads();
    hide Kid, One, When, Balances, TaxNodes, AdjustmentNodes, Terms, Summation, Plain, Bare;
  }

  lemma {:induction false} BalancesLists(read: Read, m: Metadata, repr: Float -> string)
    requires forall f :: read(Print2(f)) == Some(Rounded(f))
    ensures var ns := Balances(m, repr);
            var taxes, adjustments := Kids(ns, P(ApplicableTradeTax)), Kids(ns, P(SpecifiedTradeAllowanceCharge));
            && |taxes| == |m.taxDetails| && (forall i :: 0 <= i < |taxes| ==> ReadTax(taxes[i]) == m.taxDetails[i])
            && ReadAdjustments(read, adjustments, "false") == ShownAll(m.allowances)
            && ReadAdjustments(read, adjustments, "true") == ShownAll(m.charges)
  {
    var end := When(Given(m.dueDate) || Given(m.paymentTerms) || m.discount.Some?, Terms(m, repr), One(Summation(m), Nil));
    var charges := AdjustmentNodes(true, m.charges, end);
    var allowances := AdjustmentNodes(false, m.allowances, charges);
    assert Kids(end, P(ApplicableTradeTax)) == [] && Kids(end, P(SpecifiedTradeAllowanceCharge)) == [];
    assert Balances(m, repr) == TaxNodes(m.taxDetails, allowances);
    hide Kids, Balances, TaxNodes, AdjustmentNodes, Terms, Summation, ReadTax, ReadAdjustment, ShownAll, Print2,
         Rounded, FlagAt, One, When, Plain, Bare;
    PastAdjustments(true, m.charges, end, P(ApplicableTradeTax));
    PastAdjustments(false, m.allowances, charges, P(ApplicableTradeTax));
    TaxesBack(m.taxDetails, allowances);
    PastTaxes(m.taxDetails, allowances, P(SpecifiedTradeAllowanceCharge));
    AdjustmentsBack(read, false, m.allowances, charges, false);
    AdjustmentsBack(read, true, m.charges, end, false);
    AdjustmentsBack(read, false, m.allowances, charges, true);
    AdjustmentsBack(read, true, m.charges, end, true);
  }

  lemma {:induction false} SettlementParts(m: Metadata, repr: Float -> string)
    ensures var ns, rest := Settlement(m, repr).kids, Balances(m, repr);
            && TextAt(ns, CreditorReferenceID) == Filled(m.creditorReference)
            && Kid(ns, M(InvoiceCurrencyCode)) == Some(Node(M(InvoiceCurrencyCode), map[], m.currency, Nil))
            && Under(ns, M(SpecifiedTradeSettlementPaymentMeans)) == MeansOf(m)
            && Under(ns, P(SpecifiedTradePaymentTerms)) == Under(rest, P(SpecifiedTradePaymentTerms))
            && Under(ns, M(SpecifiedTradeSettlementHeaderMonetarySummation))
               == Under(rest, M(SpecifiedTradeSettlementHeaderMonetarySummation))
            && Kids(ns, P(ApplicableTradeTax)) == Kids(rest, P(ApplicableTradeTax))
            && Kids(ns, P(SpecifiedTradeAllowanceCharge)) == Kids(rest, P(SpecifiedTradeAllowanceCharge))
  {
    NoneInBalances(m, repr);
    Reads();
    hide Kid, Kids, One, When, Balances, PaymentMeans, Plain, Bare, Free, Shallow;
  }

  lemma {:induction false} NoneInBalances(m: Metadata, repr: Float -> string)
    ensures Kid(Balances(m, repr), P(CreditorReferenceID)) == None
    ensures Kid(Balances(m, repr), M(SpecifiedTradeSettlementPaymentMeans)) == None
  {
    var end := When(Given(m.dueDate) || Given(m.paymentTerms) || m.discount.Some?, Terms(m, repr), One(Summation(m), Nil));
    var charges := AdjustmentNodes(true, m.charges, end);
    forall g | g == P(CreditorReferenceID) || g == M(SpecifiedTradeSettlementPaymentMeans)
      ensures Kid(Balances(m, repr), g) == Kid(end, g) {
      PastTaxes(m.taxDetails, AdjustmentNodes(false, m.allowances, charges), g);
      PastAdjustments(false, m.allowances, charges, g);
      PastAdjustments(true, m.charges, end, g);
    }
    Reads();
    hide Kid, One, When, Balances, TaxNodes, AdjustmentNodes, Terms, Summation, Plain, Bare;
  }

  // ---- The whole ----

  lemma {:induction false} DocumentBack(m: Metadata)
    ensures var document := Document(m).kids;
            && TextAt(document, ID) == Some(m.number) && TextAt(document, TypeCode) == Some(m.documentType)
            && DateAt(document, IssueDateTime) == Some(m.issueDate)
  {
    Reads();
    var date := Date(IssueDateTime, m.issueDate);
    assert date.tag == P(IssueDateTime);
    DateBack(IssueDateTime, m.issueDate);
    hide Kid, One, Text, Date, Notes, Plain, Bare;
  }

  lemma {:induction false} DocumentNotes(m: Metadata)
    ensures Kids(Document(m).kids, P(IncludedNote)) == Kids(Notes(m.notes), P(IncludedNote))
  {
    assert Date(IssueDateTime, m.issueDate).tag == P(IssueDateTime);
    hide Kids, Date, Notes, Free, Shallow, Plain, Bare;
  }

  lemma {:induction false} AgreementParts(m: Metadata)
    ensures var ns := Agreement(m).kids;
            && TextAt(ns, BuyerReference) == Filled(m.buyerReference)
            && Under(ns, M(SellerTradeParty)) == SellerNode(m.seller).kids
            && Under(ns, M(BuyerTradeParty)) == BuyerNode(m.buyer).kids
            && TextAt(Under(ns, P(ContractReferencedDocument)), IssuerAssignedID) == Filled(m.contractReference)
  {
    Reads();
    hide Kid, One, When, Text, Optional, SellerNode, BuyerNode, Plain, Bare;
  }

  lemma {:induction false} DeliveryBack(m: Metadata)
    ensures var ns := Delivery(m).kids;
            && ReadShipTo(ns) == Shown(m).shipTo
            && DateAt(Under(ns, P(ActualDeliverySupplyChainEvent)), OccurrenceDateTime) == Filled(m.deliveryDate)
  {
    Reads();
    var date := Date(OccurrenceDateTime, m.deliveryDate.GetOr(""));
    var rest := When(Given(m.deliveryDate), Group(ActualDeliverySupplyChainEvent, One(date, Nil)), Nil);
    DateBack(OccurrenceDateTime, m.deliveryDate.GetOr(""));
    ShipToBack(m.shipTo, rest);
    hide Kid, One, When, Date, ShipTos, ReadShipTo, ShownShipTo, ShownSeller, ShownBuyer, ShownLine, ShownNote,
         ShownAdjustment, ShownAmounts, Plain, Bare;
  }

  lemma {:induction false} LinesOf(m: Metadata, repr: Float -> string)
    ensures var rest := One(Agreement(m), One(Delivery(m), One(Settlement(m, repr), Nil)));
            && Transaction(m, repr).kids == LineNodes(m.lines, repr, rest)
            && Kids(rest, M(IncludedSupplyChainTradeLineItem)) == []
  {
    hide LineNodes, Agreement, Delivery, Settlement, Plain, Bare, Free, Shallow;
    Landmarks.AgreementTag(m);
    Landmarks.SettlementTag(m, repr);
  }

  lemma {:induction false} TransactionParts(m: Metadata, repr: Float -> string)
    ensures var trade := Transaction(m, repr).kids;
            && Under(trade, P(ApplicableHeaderTradeAgreement)) == Agreement(m).kids
            && Under(trade, P(ApplicableHeaderTradeDelivery)) == Delivery(m).kids
            && Under(trade, M(ApplicableHeaderTradeSettlement)) == Settlement(m, repr).kids
  {
    hide Kid, Kids, One, LineNodes, Transaction, Agreement, Delivery, Settlement, Plain, Bare;
    var rest := One(Agreement(m), One(Delivery(m), One(Settlement(m, repr), Nil)));
    PastLines(m.lines, repr, rest, P(ApplicableHeaderTradeAgreement));
    PastLines(m.lines, repr, rest, P(ApplicableHeaderTradeDelivery));
    PastLines(m.lines, repr, rest, M(ApplicableHeaderTradeSettlement));
    LinesOf(m, repr);
    Landmarks.AgreementTag(m);
    Landmarks.SettlementTag(m, repr);
    Reads();
  }

  lemma {:induction false} TransactionTag(m: Metadata, repr: Float -> string)
    ensures Transaction(m, repr).tag == P(SupplyChainTradeTransaction)
  {
    hide LineNodes, Agreement, Delivery, Settlement;
  }

  lemma {:induction false} RootParts(m: Metadata, repr: Float -> string)
    ensures var ns := Render(m, repr).kids;
            && Under(ns, P(ExchangedDocumentContext)) == Context(m.profile).kids
            && Under(ns, M(ExchangedDocument)) == Document(m).kids
            && Under(ns, P(SupplyChainTradeTransaction)) == Transaction(m, repr).kids
  {
    hide Kid, One, Context, Document, Transaction, Plain, Bare;
    TransactionTag(m, repr);
    Reads();
  }

  /** What is asked of float text: two-decimal text reads as its rounded value, and the numbers
      that are printed without a format read back. */
  ghost predicate ReadsBack(py: Extractor.Python, m: Metadata) {
    && (forall f :: py.read(Print2(f)) == Some(Rounded(f)))
    && (forall l :: l in m.lines ==> py.read(py.repr(l.quantity)) == Some(l.quantity))
    && (m.discount.Some? ==> py.read(py.repr(m.discount.value.percent)) == Some(m.discount.value.percent))
  }

  lemma {:induction false} NotesListed(read: Read, m: Metadata, repr: Float -> string)
    ensures ReadInvoice(read, Render(m, repr)).notes == Shown(m).notes
  {
    hide Kid, Kids, Under, TextAt, DateAt, Render, Transaction, Settlement, Agreement, Delivery, Balances, Document,
         Context, Notes, LineNodes, ReadLine, ReadTax, ReadNote, ReadAdjustments, ReadAdjustment, ReadSeller,
         ReadBuyer, ReadAmounts, ReadShipTo, ReadDiscount, ProfileOf, ShownLine, ShownNote, ShownAdjustment,
         ShownSeller, ShownBuyer, ShownAmounts, ShownShipTo, ShownAll, Print2, Rounded, Filled;
    RootParts(m, repr);
    DocumentNotes(m);
    NotesBack(m.notes);
  }

  lemma {:induction false} LinesListed(py: Extractor.Python, m: Metadata)
    requires ReadsBack(py, m)
    ensures ReadInvoice(py.read, Render(m, py.repr)).lines == Shown(m).lines
  {
    hide Kid, Kids, Under, TextAt, DateAt, Render, Transaction, Settlement, Agreement, Delivery, Balances, Document,
         Context, Notes, LineNodes, ReadLine, ReadTax, ReadNote, ReadAdjustments, ReadAdjustment, ReadSeller,
         ReadBuyer, ReadAmounts, ReadShipTo, ReadDiscount, ProfileOf, ShownLine, ShownNote, ShownAdjustment,
         ShownSeller, ShownBuyer, ShownAmounts, ShownShipTo, ShownAll, Print2, Rounded, Filled;
    RootParts(m, py.repr);
    LinesOf(m, py.repr);
    LinesBack(py, m.lines, One(Agreement(m), One(Delivery(m), One(Settlement(m, py.repr), Nil))));
  }

  lemma {:induction false} SettlementListed(py: Extractor.Python, m: Metadata)
    requires ReadsBack(py, m)
    ensures var r, s := ReadInvoice(py.read, Render(m, py.repr)), Shown(m);
            r.taxDetails == s.taxDetails && r.allowances == s.allowances && r.charges == s.charges
  {
    hide Kid, Kids, Under, TextAt, DateAt, Render, Transaction, Settlement, Agreement, Delivery, Balances, Document,
         Context, Notes, LineNodes, ReadLine, ReadTax, ReadNote, ReadAdjustments, ReadAdjustment, ReadSeller,
         ReadBuyer, ReadAmounts, ReadShipTo, ReadDiscount, ProfileOf, ShownLine, ShownNote, ShownAdjustment,
         ShownSeller, ShownBuyer, ShownAmounts, ShownShipTo, ShownAll, Print2, Rounded, Filled;
    RootParts(m, py.repr);
    TransactionParts(m, py.repr);
    SettlementParts(m, py.repr);
    BalancesLists(py.read, m, py.repr);
    ShownAllIs(m.allowances);
    ShownAllIs(m.charges);
  }

  lemma {:induction false} HeaderBack(py: Extractor.Python, m: Metadata)
    requires ReadsBack(py, m)
    ensures var r, s := ReadInvoice(py.read, Render(m, py.repr)), Shown(m);
            r == s.(lines := r.lines, taxDetails := r.taxDetails, notes := r.notes, allowances := r.allowances, charges := r.charges)
  {
    hide Kid, Kids, Under, TextAt, DateAt, Render, Transaction, Settlement, Agreement, Delivery, Balances, Document,
         Context, Summation, SellerNode, BuyerNode, MeansOf, TermsOf, ReadLine, ReadTax, ReadNote, ReadAdjustments,
         ReadSeller, ReadBuyer, ReadAmounts, ReadShipTo, ReadDiscount, ProfileOf, Guideline, ShownLine, ShownNote,
         ShownAdjustment, ShownSeller, ShownBuyer, ShownAmounts, ShownShipTo, Print2, Rounded, Filled;
    RootParts(m, py.repr);
    TransactionParts(m, py.repr);
    SettlementParts(m, py.repr);
    BalancesParts(m, py.repr);
    ProfileBack(m.profile);
    DocumentBack(m);
    AgreementParts(m);
    DeliveryBack(m);
    SellerBack(m);
    MeansBack(m);
    BuyerBack(m.buyer);
    AmountsBack(m);
    ShownTermsBack(py, m);
  }

  /** Every field that is shown comes back from the rendered invoice, and from its own place: a
      template that dropped one, or wrote one in the place of another, would not be undone. */
  lemma {:induction false} ReadRendered(py: Extractor.Python, m: Metadata)
    requires ReadsBack(py, m)
    ensures ReadInvoice(py.read, Render(m, py.repr)) == Shown(m)
  {
    hide ReadInvoice, Render, Shown, ReadsBack;
    NotesListed(py.read, m, py.repr);
    LinesListed(py, m);
    SettlementListed(py, m);
    HeaderBack(py, m);
  }

  /** So the text of the generated invoice determines all that is shown of the metadata. */
  lemma {:induction false} ReadWrittenInvoice(py: Extractor.Python, names: XmlText.Names, m: Metadata)
    requires XmlText.Sound(names) && ReadsBack(py, m) && MarkupFree.FreeOfMarkup(m, py.repr)
    ensures var tree := XmlText.Parse(names, XmlText.Write(names, Render(m, py.repr)));
            tree.Some? && ReadInvoice(py.read, tree.value) == Shown(m)
  {
    hide ReadInvoice, Render, Shown, ReadsBack, XmlText.Parse, XmlText.Write, XmlText.Sound, MarkupFree.FreeOfMarkup;
    MarkupFree.WrittenExactly(names, m, py.repr);
    ReadRendered(py, m);
  }
}
