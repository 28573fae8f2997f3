/** The invoice template: from metadata to the Cross Industry Invoice tree.

    The tree is the rendered document after parsing, indentation left out. `repr` is
    Python's text of a float, used where the template prints a number without a format. */
module Template {
  import opened Wrappers
  import opened Decimal
  import opened Invoice
  import opened Xml

  function Text(part: Part, text: string, rest: Forest): (r: Forest) { One(Leaf(part, text), rest) }

  /** A leaf emitted only when the field is given. */
  function Optional(part: Part, o: Option<string>, rest: Forest): (r: Forest) {
    When(Given(o), Leaf(part, o.GetOr("")), rest)
  }

  function OptionalWith(part: Part, name: AttrName, value: string, o: Option<string>, rest: Forest): (r: Forest) {
    When(Given(o), LeafWith(part, name, value, o.GetOr("")), rest)
  }

  function Date(part: Part, date: string): (n: Node) {
    Group(part, One(LeafWith(DateTimeString, Format, "102", date), Nil))
  }

  function Guideline(p: Profile): (s: string) {
    match p
    case Minimum => "urn:factur-x.eu:1p0:minimum"
    case BasicWl => "urn:factur-x.eu:1p0:basicwl"
    case Basic => "urn:cen.eu:en16931:2017" + "#compliant#" + "urn:factur-x.eu:1p0:basic"
    case Extended => "urn:cen.eu:en16931:2017" + "#conformant#" + "urn:factur-x.eu:1p0:extended"
    case En16931 => "urn:cen.eu:en16931:2017"
  }

  function Context(p: Profile): (n: Node)
    ensures n.tag == P(ExchangedDocumentContext) && Plain(n.kids) && Bare(n.kids)
  {
    Group(ExchangedDocumentContext,
      One(Group(GuidelineSpecifiedDocumentContextParameter, Text(ID, Guideline(p), Nil)), Nil))
  }

  function NoteNode(n: Note): (r: Node) {
    Group(IncludedNote,
      match n
      case TextNote(text) => Text(Content, text, Nil)
      case TaggedNote(subject, content) => Optional(SubjectCode, subject, Text(Content, content, Nil)))
  }

  function Notes(ns: seq<Note>): (r: Forest)
    ensures Plain(r) && Bare(r)
  {
    if ns == [] then Nil else One(NoteNode(ns[0]), Notes(ns[1..]))
  }

  function Document(m: Metadata): (n: Node)
    ensures n.tag == M(ExchangedDocument) && Plain(n.kids) && Bare(n.kids)
  {
    Section(M(ExchangedDocument),
      Text(ID, m.number,
      Text(TypeCode, m.documentType,
      One(Date(IssueDateTime, m.issueDate),
      Notes(m.notes)))))
  }

  // ---- Lines ----

  function Periods(p: Option<Period>, rest: Forest): (r: Forest)
    ensures Plain(rest) ==> Plain(r)
    ensures Bare(rest) ==> Bare(r)
    ensures forall g :: g != P(BillingSpecifiedPeriod) ==> Kids(r, g) == Kids(rest, g)
  {
    if p.None? then rest else
      One(Group(BillingSpecifiedPeriod,
        One(Date(StartDateTime, p.value.start),
        One(Date(EndDateTime, p.value.end), Nil))), rest)
  }

  function Product(l: Line): (n: Node)
    ensures n.tag == S(SpecifiedTradeProduct) && Plain(n.kids) && Bare(n.kids)
  {
    Section(S(SpecifiedTradeProduct),
      OptionalWith(GlobalID, SchemeID, l.globalIdScheme.GetOr("0160"), l.globalId,
      Optional(SellerAssignedID, l.sellerAssignedId,
      Optional(BuyerAssignedID, l.buyerAssignedId,
      Text(Name, l.name,
      Optional(Description, l.description,
      When(Given(l.origin), Group(OriginTradeCountry, Text(ID, l.origin.GetOr(""), Nil)), Nil)))))))
  }

  function GrossPrice(l: Line): (n: Node)
    ensures n.tag == P(GrossPriceProductTradePrice) && Plain(n.kids) && Bare(n.kids)
  {
    Group(GrossPriceProductTradePrice,
      Text(ChargeAmount, Print2(l.grossPrice.GetOr(ZERO)),
      When(NonZero(l.priceDiscount),
        Group(AppliedTradeAllowanceCharge,
          One(Group(ChargeIndicator, Text(Indicator, "false", Nil)),
          Text(ActualAmount, Print2(l.priceDiscount.GetOr(ZERO)), Nil))), Nil)))
  }

  function NetPrice(l: Line): (n: Node) {
    Group(NetPriceProductTradePrice, Text(ChargeAmount, Print2(l.netPrice), Nil))
  }

  function LineAgreement(l: Line): (n: Node)
    ensures n.tag == S(SpecifiedLineTradeAgreement) && Plain(n.kids) && Bare(n.kids)
  {
    Section(S(SpecifiedLineTradeAgreement),
      When(NonZero(l.grossPrice), GrossPrice(l),
      One(NetPrice(l), Nil)))
  }

  function VatNode(part: Part, category: string, rate: Float): (n: Node)
    ensures n.tag == P(part) && Plain(n.kids) && Bare(n.kids)
  {
    Group(part,
      Text(TypeCode, "VAT",
      Text(CategoryCode, category,
      Text(RateApplicablePercent, Print2(rate), Nil))))
  }

  function LineSum(l: Line): (n: Node) {
    Group(SpecifiedTradeSettlementLineMonetarySummation, Text(LineTotalAmount, Print2(l.netTotal), Nil))
  }

  function LineSettlement(l: Line): (n: Node)
    ensures n.tag == S(SpecifiedLineTradeSettlement) && Plain(n.kids) && Bare(n.kids)
  {
    Section(S(SpecifiedLineTradeSettlement),
      One(VatNode(ApplicableTradeTax, l.vatCategory, l.vatRate),
      Periods(l.period,
      One(LineSum(l), Nil))))
  }

  function LineDocument(l: Line): (n: Node)
    ensures n.tag == P(AssociatedDocumentLineDocument) && Plain(n.kids) && Bare(n.kids)
  {
    Group(AssociatedDocumentLineDocument,
      Text(LineID, l.lineId,
      When(Given(l.note), Group(IncludedNote, Text(Content, l.note.GetOr(""), Nil)), Nil)))
  }

  function LineDelivery(l: Line, repr: Float -> string): (n: Node) {
    Group(SpecifiedLineTradeDelivery,
      One(Node(S(BilledQuantity), map[UnitCode := l.unitCode], repr(l.quantity), Nil), Nil))
  }

  function LineNode(l: Line, repr: Float -> string): (n: Node)
    ensures n.tag == M(IncludedSupplyChainTradeLineItem) && Plain(n.kids)
  {
    Section(M(IncludedSupplyChainTradeLineItem),
      One(LineDocument(l),
      One(Product(l),
      One(LineAgreement(l),
      One(LineDelivery(l, repr),
      One(LineSettlement(l), Nil))))))
  }

  function LineNodes(ls: seq<Line>, repr: Float -> string, rest: Forest): (r: Forest) {
    if ls == [] then rest else Cons(LineNode(ls[0], repr), LineNodes(ls[1..], repr, rest))
  }

  // ---- Parties ----

  function Contact(name: Option<string>, phone: Option<string>, email: Option<string>): (n: Node)
    ensures n.tag == P(DefinedTradeContact) && Plain(n.kids) && Bare(n.kids)
  {
    Group(DefinedTradeContact,
      Optional(PersonName, name,
      When(Given(phone), Group(TelephoneUniversalCommunication, Text(CompleteNumber, phone.GetOr(""), Nil)),
      When(Given(email), Group(EmailURIUniversalCommunication, Text(URIID, email.GetOr(""), Nil)), Nil))))
  }

  function SellerAddress(a: Option<Address>): (n: Node)
    ensures n.tag == P(PostalTradeAddress) && Plain(n.kids) && Bare(n.kids)
  {
    Group(PostalTradeAddress,
      match a
      case None => Text(CountryID, "FR", Nil)
      case Some(a) =>
        Optional(PostcodeCode, Some(a.postcode),
        Text(LineOne, Or(a.line1, "Street"),
        Optional(LineTwo, a.line2,
        Text(CityName, Or(a.city, "City"),
        Text(CountryID, Or(a.country, "FR"), Nil))))))
  }

  function BuyerAddress(a: Address): (n: Node)
    ensures n.tag == P(PostalTradeAddress) && Plain(n.kids) && Bare(n.kids)
  {
    Group(PostalTradeAddress,
      Optional(PostcodeCode, Some(a.postcode),
      Text(LineOne, Or(a.line1, "Street"),
      Text(CityName, Or(a.city, "City"),
      Text(CountryID, Or(a.country, "FR"), Nil)))))
  }

  function TaxRegistration(scheme: string, o: Option<string>): (n: Node)
    ensures n.tag == S(SpecifiedTaxRegistration) && Plain(n.kids) && Bare(n.kids)
  {
    Section(S(SpecifiedTaxRegistration), One(LeafWith(ID, SchemeID, scheme, o.GetOr("")), Nil))
  }

  function Siret(s: Seller): (n: Node)
    ensures n.tag == P(SpecifiedLegalOrganization) && Plain(n.kids) && Bare(n.kids)
  {
    Group(SpecifiedLegalOrganization, One(LeafWith(ID, SchemeID, "0002", s.siret.GetOr("")), Nil))
  }

  function SellerNode(s: Seller): (n: Node)
    ensures n.tag == M(SellerTradeParty) && Plain(n.kids)
  {
    Section(M(SellerTradeParty),
      Optional(ID, s.id,
      OptionalWith(GlobalID, SchemeID, s.globalIdScheme.GetOr("0088"), s.globalId,
      Text(Name, s.name,
      When(Given(s.siret), Siret(s),
      When(Given(s.email) || Given(s.phone), Contact(s.contactName, s.phone, s.email),
      One(SellerAddress(s.address),
      When(Given(s.vatNumber), TaxRegistration("VA", s.vatNumber),
      When(Given(s.taxNumber), TaxRegistration("FC", s.taxNumber), Nil)))))))))
  }

  function BuyerNode(b: Buyer): (n: Node)
    ensures n.tag == M(BuyerTradeParty) && Plain(n.kids)
  {
    Section(M(BuyerTradeParty),
      Optional(ID, b.id,
      OptionalWith(GlobalID, SchemeID, b.globalIdScheme.GetOr("0088"), b.globalId,
      Text(Name, b.name,
      When(Given(b.email) || Given(b.phone), Contact(b.contactName, b.phone, b.email),
      BuyerPlace(b.address,
      When(Given(b.vatNumber), TaxRegistration("VA", b.vatNumber), Nil)))))))
  }

  function BuyerPlace(a: Option<Address>, rest: Forest): (r: Forest)
    ensures Plain(rest) ==> Plain(r)
    ensures Bare(rest) ==> Bare(r)
    ensures forall g ::
      Kids(r, g) == (if a.Some? && g == P(PostalTradeAddress) then [BuyerAddress(a.value)] else []) + Kids(rest, g)
  {
    if a.None? then rest else One(BuyerAddress(a.value), rest)
  }

  function Agreement(m: Metadata): (n: Node) {
    Group(ApplicableHeaderTradeAgreement,
      Optional(BuyerReference, m.buyerReference,
      One(SellerNode(m.seller),
      One(BuyerNode(m.buyer),
      When(Given(m.contractReference),
        Group(ContractReferencedDocument, Text(IssuerAssignedID, m.contractReference.GetOr(""), Nil)), Nil)))))
  }

  function ShipTos(s: Option<ShipTo>, rest: Forest): (r: Forest)
    ensures Plain(rest) ==> Plain(r)
    ensures Bare(rest) ==> Bare(r)
  {
    if s.None? then rest else
      One(Group(ShipToTradeParty,
        Optional(ID, s.value.id,
        OptionalWith(GlobalID, SchemeID, s.value.globalIdScheme.GetOr("0088"), s.value.globalId,
        Text(Name, s.value.name,
        One(Group(PostalTradeAddress,
          Optional(PostcodeCode, Some(s.value.address.postcode),
          Text(LineOne, s.value.address.line1,
          Text(CityName, s.value.address.city,
          Text(CountryID, s.value.address.country, Nil))))), Nil))))), rest)
  }

  function Delivery(m: Metadata): (n: Node)
    ensures n.tag == P(ApplicableHeaderTradeDelivery) && Plain(n.kids) && Bare(n.kids)
  {
    Group(ApplicableHeaderTradeDelivery,
      ShipTos(m.shipTo,
      When(Given(m.deliveryDate),
        Group(ActualDeliverySupplyChainEvent, One(Date(OccurrenceDateTime, m.deliveryDate.GetOr("")), Nil)), Nil)))
  }

  // ---- Settlement ----

  function Account(s: Seller): (n: Node)
    ensures n.tag == P(PayeePartyCreditorFinancialAccount)
  {
    Group(PayeePartyCreditorFinancialAccount,
      Text(IBANID, s.iban.GetOr(""),
      Optional(AccountName, s.bankName, Nil)))
  }

  function PaymentMeans(m: Metadata): (n: Node)
    ensures n.tag == M(SpecifiedTradeSettlementPaymentMeans) && Plain(n.kids) && Bare(n.kids)
  {
    Section(M(SpecifiedTradeSettlementPaymentMeans),
      Text(TypeCode, m.paymentMeans.GetOr("58"),
      When(Given(m.seller.iban), Account(m.seller),
      When(Given(m.seller.iban) && Given(m.seller.bic),
        Group(PayeeSpecifiedCreditorFinancialInstitution, Text(BICID, m.seller.bic.GetOr(""), Nil)), Nil))))
  }

  function TaxNode(t: TaxDetail): (n: Node)
    ensures n.tag == P(ApplicableTradeTax) && Plain(n.kids) && Bare(n.kids)
  {
    Group(ApplicableTradeTax,
      Text(CalculatedAmount, t.calculated,
      Text(TypeCode, "VAT",
      Text(BasisAmount, t.basis,
      Text(CategoryCode, t.category,
      Text(RateApplicablePercent, t.rate, Nil))))))
  }

  function TaxNodes(ts: seq<TaxDetail>, rest: Forest): (r: Forest) {
    if ts == [] then rest else One(TaxNode(ts[0]), TaxNodes(ts[1..], rest))
  }

  function AdjustmentNode(charge: bool, a: Adjustment): (n: Node)
    ensures n.tag == P(SpecifiedTradeAllowanceCharge) && Plain(n.kids) && Bare(n.kids)
  {
    Group(SpecifiedTradeAllowanceCharge,
      One(Group(ChargeIndicator, Text(Indicator, if charge then "true" else "false", Nil)),
      Text(ActualAmount, Print2(a.amount),
      Optional(Reason, a.reason,
      Optional(ReasonCode, a.reasonCode,
      One(VatNode(CategoryTradeTax, a.vatCategory, a.vatRate), Nil))))))
  }

  function AdjustmentNodes(charge: bool, s: seq<Adjustment>, rest: Forest): (r: Forest) {
    if s == [] then rest else One(AdjustmentNode(charge, s[0]), AdjustmentNodes(charge, s[1..], rest))
  }

  function Discounts(d: Option<Discount>, repr: Float -> string): (r: Forest)
    ensures Plain(r) && Bare(r)
  {
    if d.None? then Nil else
      One(Group(ApplicableTradePaymentDiscountTerms,
        One(LeafWith(BasisPeriodMeasure, UnitCode, "DAY", Int(d.value.days)),
        Text(CalculationPercent, repr(d.value.percent), Nil))), Nil)
  }

  function Terms(m: Metadata, repr: Float -> string): (n: Node)
    ensures n.tag == P(SpecifiedTradePaymentTerms) && Plain(n.kids) && Bare(n.kids)
  {
    Group(SpecifiedTradePaymentTerms,
      Optional(Description, m.paymentTerms,
      When(Given(m.dueDate), Date(DueDateDateTime, m.dueDate.GetOr("")),
      Discounts(m.discount, repr))))
  }

  function Summation(m: Metadata): (n: Node)
    ensures n.tag == M(SpecifiedTradeSettlementHeaderMonetarySummation) && Plain(n.kids) && Bare(n.kids)
  {
    var a := m.amounts;
    Section(M(SpecifiedTradeSettlementHeaderMonetarySummation),
      Text(LineTotalAmount, a.lineTotal.GetOr(a.taxBasisTotal),
      When(a.chargeTotal.Some?, Leaf(ChargeTotalAmount, a.chargeTotal.GetOr("")),
      When(a.allowanceTotal.Some?, Leaf(AllowanceTotalAmount, a.allowanceTotal.GetOr("")),
      Text(TaxBasisTotalAmount, a.taxBasisTotal,
      One(LeafWith(TaxTotalAmount, CurrencyID, m.currency, a.taxTotal),
      Text(GrandTotalAmount, a.grandTotal,
      Optional(TotalPrepaidAmount, a.prepaid,
      Text(DuePayableAmount, a.duePayable, Nil)))))))))
  }

  /** The settlement from the tax details on. */
  function Balances(m: Metadata, repr: Float -> string): (r: Forest) {
    TaxNodes(m.taxDetails,
    AdjustmentNodes(false, m.allowances,
    AdjustmentNodes(true, m.charges,
    When(Given(m.dueDate) || Given(m.paymentTerms) || m.discount.Some?, Terms(m, repr),
    One(Summation(m), Nil)))))
  }

  function Settlement(m: Metadata, repr: Float -> string): (n: Node) {
    Section(M(ApplicableHeaderTradeSettlement),
      Optional(CreditorReferenceID, m.creditorReference,
      One(Node(M(InvoiceCurrencyCode), map[], m.currency, Nil),
      When(Given(m.seller.iban) || Given(m.paymentMeans), PaymentMeans(m),
      Balances(m, repr)))))
  }

  function Transaction(m: Metadata, repr: Float -> string): (n: Node) {
    Group(SupplyChainTradeTransaction,
      LineNodes(m.lines, repr,
      One(Agreement(m),
      One(Delivery(m),
      One(Settlement(m, repr), Nil)))))
  }

  /** The whole rendered invoice. */
  function Render(m: Metadata, repr: Float -> string): (root: Node) {
    Group(CrossIndustryInvoice,
      One(Context(m.profile),
      One(Document(m),
      One(Transaction(m, repr), Nil))))
  }
}
