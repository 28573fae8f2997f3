/** A reader of whole rendered invoices: it takes every field back from the place and under the
    attribute where the standard layout has it, so that it tells what the template writes where. */
module Reader {
  import opened Wrappers
  import opened Decimal
  import opened Invoice
  import opened Xml

  // ---- Looking into a forest ----

  /** The first child with the tag. */
  function Kid(ns: Forest, g: Tag): (r: Option<Node>) {
    match ns case Nil => None case Cons(n, rest) => if n.tag == g then Some(n) else Kid(rest, g)
  }

  /** What the first child with the tag contains. */
  function Under(ns: Forest, g: Tag): (r: Forest) { match Kid(ns, g) case None => Nil case Some(n) => n.kids }

  function TextAt(ns: Forest, part: Part): (r: Option<string>) {
    match Kid(ns, P(part)) case None => None case Some(n) => Some(n.text)
  }

  function AttrAt(ns: Forest, part: Part, a: AttrName): (r: Option<string>) {
    match Kid(ns, P(part)) case None => None case Some(n) => if a in n.attrs then Some(n.attrs[a]) else None
  }

  /** The text, if the attribute has the given value. */
  function TextWith(ns: Forest, part: Part, a: AttrName, value: string): (r: Option<string>) {
    if AttrAt(ns, part, a) == Some(value) then TextAt(ns, part) else None
  }

  function DateAt(ns: Forest, part: Part): (r: Option<string>) {
    TextWith(Under(ns, P(part)), DateTimeString, Format, "102")
  }

  function FlagAt(ns: Forest): (r: Option<string>) { TextAt(Under(ns, P(ChargeIndicator)), Indicator) }

  // ---- Numbers and codes ----

  /** How numbers are read: None is no number. */
  type Read = string -> Option<Float>

  function NumberAt(read: Read, ns: Forest, part: Part): (r: Option<Float>) {
    match TextAt(ns, part) case None => None case Some(s) => read(s)
  }

  function ReadInt(s: string): (n: int) {
    if s != "" && s[0] == '-' && AllDigits(s[1..]) then -(NatOf(s[1..]) as int)
    else if AllDigits(s) then NatOf(s) else 0
  }

  function ProfileOf(urn: string): (p: Profile) {
    if urn == "urn:factur-x.eu:1p0:minimum" then Minimum
    else if urn == "urn:factur-x.eu:1p0:basicwl" then BasicWl
    else if urn == "urn:cen.eu:en16931:2017" + "#compliant#" + "urn:factur-x.eu:1p0:basic" then Basic
    else if urn == "urn:cen.eu:en16931:2017" + "#conformant#" + "urn:factur-x.eu:1p0:extended" then Extended
    else En16931
  }

  // ---- Groups ----

  function ReadNote(n: Node): (r: Note) { TaggedNote(TextAt(n.kids, SubjectCode), TextAt(n.kids, Content).GetOr("")) }

  function ReadPeriod(ns: Forest): (r: Option<Period>) {
    match Kid(ns, P(BillingSpecifiedPeriod))
    case None => None
    case Some(n) => Some(Period(DateAt(n.kids, StartDateTime).GetOr(""), DateAt(n.kids, EndDateTime).GetOr("")))
  }

  /** Category and rate of a VAT group. */
  function ReadVat(read: Read, ns: Forest): (r: (string, Float)) {
    if TextAt(ns, TypeCode) == Some("VAT")
    then (TextAt(ns, CategoryCode).GetOr(""), NumberAt(read, ns, RateApplicablePercent).GetOr(ZERO))
    else ("", ZERO)
  }

  function ReadLine(read: Read, n: Node): (l: Line) {
    var head, product := Under(n.kids, P(AssociatedDocumentLineDocument)), Under(n.kids, S(SpecifiedTradeProduct));
    var agreement, settled := Under(n.kids, S(SpecifiedLineTradeAgreement)), Under(n.kids, S(SpecifiedLineTradeSettlement));
    var gross, net := Under(agreement, P(GrossPriceProductTradePrice)), Under(agreement, P(NetPriceProductTradePrice));
    var discount, vat := Under(gross, P(AppliedTradeAllowanceCharge)), ReadVat(read, Under(settled, P(ApplicableTradeTax)));
    var quantity := Kid(Under(n.kids, P(SpecifiedLineTradeDelivery)), S(BilledQuantity));
    Line(
      TextAt(head, LineID).GetOr(""), TextAt(product, Name).GetOr(""),
      (if quantity.Some? then read(quantity.value.text) else None).GetOr(ZERO),
      (if quantity.Some? && UnitCode in quantity.value.attrs then quantity.value.attrs[UnitCode] else ""),
      NumberAt(read, net, ChargeAmount).GetOr(ZERO),
      NumberAt(read, Under(settled, P(SpecifiedTradeSettlementLineMonetarySummation)), LineTotalAmount).GetOr(ZERO),
      vat.1, vat.0,
      TextAt(Under(head, P(IncludedNote)), Content), TextAt(product, GlobalID), AttrAt(product, GlobalID, SchemeID),
      TextAt(product, SellerAssignedID), TextAt(product, BuyerAssignedID), TextAt(product, Description),
      TextAt(Under(product, P(OriginTradeCountry)), ID),
      NumberAt(read, gross, ChargeAmount),
      (if FlagAt(discount) == Some("false") then NumberAt(read, discount, ActualAmount) else None),
      ReadPeriod(settled))
  }

  function ReadAddress(ns: Forest): (r: Option<Address>) {
    if TextAt(ns, LineOne).None? then None
    else Some(Address(TextAt(ns, LineOne).value, TextAt(ns, LineTwo), TextAt(ns, PostcodeCode).GetOr(""),
                      TextAt(ns, CityName).GetOr(""), TextAt(ns, CountryID).GetOr("")))
  }

  /** The tax registration under the scheme. */
  function Registered(ns: Forest, scheme: string): (r: Option<string>) {
    match ns
    case Nil => None
    case Cons(n, rest) =>
      var id := TextWith(n.kids, ID, SchemeID, scheme);
      if n.tag == S(SpecifiedTaxRegistration) && id.Some? then id else Registered(rest, scheme)
  }

  function ReadSeller(ns: Forest, means: Forest): (s: Seller) {
    var contact, account := Under(ns, P(DefinedTradeContact)), Under(means, P(PayeePartyCreditorFinancialAccount));
    Seller(
      TextAt(ns, Name).GetOr(""), ReadAddress(Under(ns, P(PostalTradeAddress))),
      Registered(ns, "FC"), Registered(ns, "VA"), TextWith(Under(ns, P(SpecifiedLegalOrganization)), ID, SchemeID, "0002"),
      TextAt(ns, GlobalID), AttrAt(ns, GlobalID, SchemeID), TextAt(contact, PersonName),
      TextAt(Under(contact, P(TelephoneUniversalCommunication)), CompleteNumber),
      TextAt(Under(contact, P(EmailURIUniversalCommunication)), URIID),
      TextAt(account, IBANID), TextAt(Under(means, P(PayeeSpecifiedCreditorFinancialInstitution)), BICID),
      TextAt(account, AccountName), TextAt(ns, ID))
  }

  function ReadBuyer(ns: Forest): (b: Buyer) {
    var contact := Under(ns, P(DefinedTradeContact));
    Buyer(
      TextAt(ns, Name).GetOr(""), ReadAddress(Under(ns, P(PostalTradeAddress))), Registered(ns, "VA"),
      TextAt(ns, GlobalID), AttrAt(ns, GlobalID, SchemeID), TextAt(contact, PersonName),
      TextAt(Under(contact, P(TelephoneUniversalCommunication)), CompleteNumber),
      TextAt(Under(contact, P(EmailURIUniversalCommunication)), URIID), TextAt(ns, ID))
  }

  function ReadShipTo(ns: Forest): (r: Option<ShipTo>) {
    match Kid(ns, P(ShipToTradeParty))
    case None => None
    case Some(n) =>
      var address := ReadAddress(Under(n.kids, P(PostalTradeAddress)));
      Some(ShipTo(TextAt(n.kids, ID), TextAt(n.kids, GlobalID), AttrAt(n.kids, GlobalID, SchemeID),
                  TextAt(n.kids, Name).GetOr(""), address.GetOr(Address("", None, "", "", ""))))
  }

  function ReadTax(n: Node): (t: TaxDetail) {
    if TextAt(n.kids, TypeCode) != Some("VAT") then TaxDetail("", "", "", "")
    else TaxDetail(TextAt(n.kids, CalculatedAmount).GetOr(""), TextAt(n.kids, BasisAmount).GetOr(""),
                   TextAt(n.kids, RateApplicablePercent).GetOr(""), TextAt(n.kids, CategoryCode).GetOr(""))
  }

  function ReadAdjustment(read: Read, n: Node): (a: Adjustment) {
    var vat := ReadVat(read, Under(n.kids, P(CategoryTradeTax)));
    Adjustment(NumberAt(read, n.kids, ActualAmount).GetOr(ZERO), TextAt(n.kids, Reason), TextAt(n.kids, ReasonCode),
               vat.0, vat.1)
  }

  /** The allowances, or the charges, by their indicator. */
  function ReadAdjustments(read: Read, ns: seq<Node>, flag: string): (r: seq<Adjustment>) {
    if ns == [] then []
    else (if FlagAt(ns[0].kids) == Some(flag) then [ReadAdjustment(read, ns[0])] else [])
         + ReadAdjustments(read, ns[1..], flag)
  }

  function ReadDiscount(read: Read, ns: Forest): (r: Option<Discount>) {
    match Kid(ns, P(ApplicableTradePaymentDiscountTerms))
    case None => None
    case Some(n) =>
      Some(Discount(ReadInt(TextWith(n.kids, BasisPeriodMeasure, UnitCode, "DAY").GetOr("")),
                    NumberAt(read, n.kids, CalculationPercent).GetOr(ZERO)))
  }

  function ReadAmounts(ns: Forest, currency: string): (a: Amounts) {
    Amounts(
      TextAt(ns, TaxBasisTotalAmount).GetOr(""), TextWith(ns, TaxTotalAmount, CurrencyID, currency).GetOr(""),
      TextAt(ns, GrandTotalAmount).GetOr(""), TextAt(ns, DuePayableAmount).GetOr(""),
      TextAt(ns, LineTotalAmount), TextAt(ns, ChargeTotalAmount), TextAt(ns, AllowanceTotalAmount),
      TextAt(ns, TotalPrepaidAmount))
  }

  function Each<T>(ns: seq<Node>, f: Node -> T): (r: seq<T>)
    ensures |r| == |ns| && forall i :: 0 <= i < |r| ==> r[i] == f(ns[i])
  {
    seq(|ns|, i requires 0 <= i < |ns| => f(ns[i]))
  }

  // ---- The invoice ----

  function ReadInvoice(read: Read, root: Node): (m: Metadata) {
    var context, document := Under(root.kids, P(ExchangedDocumentContext)), Under(root.kids, M(ExchangedDocument));
    var trade := Under(root.kids, P(SupplyChainTradeTransaction));
    var agreement, delivery := Under(trade, P(ApplicableHeaderTradeAgreement)), Under(trade, P(ApplicableHeaderTradeDelivery));
    var settled := Under(trade, M(ApplicableHeaderTradeSettlement));
    var means, terms := Under(settled, M(SpecifiedTradeSettlementPaymentMeans)), Under(settled, P(SpecifiedTradePaymentTerms));
    var adjustments := Kids(settled, P(SpecifiedTradeAllowanceCharge));
    var currency := match Kid(settled, M(InvoiceCurrencyCode)) case None => "" case Some(n) => n.text;
    Metadata(
      TextAt(document, ID).GetOr(""), DateAt(document, IssueDateTime).GetOr(""),
      ReadSeller(Under(agreement, M(SellerTradeParty)), means), ReadBuyer(Under(agreement, M(BuyerTradeParty))),
      Each(Kids(trade, M(IncludedSupplyChainTradeLineItem)), n => ReadLine(read, n)),
      Each(Kids(settled, P(ApplicableTradeTax)), ReadTax),
      ReadAmounts(Under(settled, M(SpecifiedTradeSettlementHeaderMonetarySummation)), currency),
      currency, ProfileOf(TextAt(Under(context, P(GuidelineSpecifiedDocumentContextParameter)), ID).GetOr("")),
      DateAt(terms, DueDateDateTime), TextAt(terms, Description), TextAt(document, TypeCode).GetOr(""),
      Each(Kids(document, P(IncludedNote)), ReadNote),
      TextAt(agreement, BuyerReference), TextAt(Under(agreement, P(ContractReferencedDocument)), IssuerAssignedID),
      DateAt(Under(delivery, P(ActualDeliverySupplyChainEvent)), OccurrenceDateTime), ReadShipTo(delivery),
      TextAt(settled, CreditorReferenceID), ReadAdjustments(read, adjustments, "false"),
      ReadAdjustments(read, adjustments, "true"), ReadDiscount(read, terms), TextAt(means, TypeCode))
  }
}
