/** Invoice metadata, as the request model declares it; a field dropped by
    `exclude_none` is None here. */
module Invoice {
  import opened Wrappers
  import opened Decimal

  datatype Address = Address(line1: string, line2: Option<string>, postcode: string, city: string, country: string)

  datatype Period = Period(start: string, end: string)

  datatype ShipTo = ShipTo(
    id: Option<string>, globalId: Option<string>, globalIdScheme: Option<string>, name: string, address: Address)

  datatype Adjustment = Adjustment(
    amount: Float, reason: Option<string>, reasonCode: Option<string>, vatCategory: string, vatRate: Float)

  datatype Discount = Discount(days: int, percent: Float)

  datatype Seller = Seller(
    name: string, address: Option<Address>, taxNumber: Option<string>, vatNumber: Option<string>,
    siret: Option<string>, globalId: Option<string>, globalIdScheme: Option<string>,
    contactName: Option<string>, phone: Option<string>, email: Option<string>,
    iban: Option<string>, bic: Option<string>, bankName: Option<string>, id: Option<string>)

  datatype Buyer = Buyer(
    name: string, address: Option<Address>, vatNumber: Option<string>,
    globalId: Option<string>, globalIdScheme: Option<string>,
    contactName: Option<string>, phone: Option<string>, email: Option<string>, id: Option<string>)

  datatype TaxDetail = TaxDetail(calculated: string, basis: string, rate: string, category: string)

  datatype Line = Line(
    lineId: string, name: string, quantity: Float, unitCode: string,
    netPrice: Float, netTotal: Float, vatRate: Float, vatCategory: string,
    note: Option<string>, globalId: Option<string>, globalIdScheme: Option<string>,
    sellerAssignedId: Option<string>, buyerAssignedId: Option<string>, description: Option<string>,
    origin: Option<string>, grossPrice: Option<Float>, priceDiscount: Option<Float>, period: Option<Period>)

  datatype Amounts = Amounts(
    taxBasisTotal: string, taxTotal: string, grandTotal: string, duePayable: string,
    lineTotal: Option<string>, chargeTotal: Option<string>, allowanceTotal: Option<string>, prepaid: Option<string>)

  datatype Note = TextNote(text: string) | TaggedNote(subject: Option<string>, content: string)

  datatype Profile = Minimum | BasicWl | Basic | En16931 | Extended

  datatype Metadata = Metadata(
    number: string, issueDate: string, seller: Seller, buyer: Buyer, lines: seq<Line>,
    taxDetails: seq<TaxDetail>, amounts: Amounts, currency: string, profile: Profile,
    dueDate: Option<string>, paymentTerms: Option<string>, documentType: string, notes: seq<Note>,
    buyerReference: Option<string>, contractReference: Option<string>, deliveryDate: Option<string>,
    shipTo: Option<ShipTo>, creditorReference: Option<string>, allowances: seq<Adjustment>,
    charges: seq<Adjustment>, discount: Option<Discount>, paymentMeans: Option<string>)

  /** A field that is present and not empty: what `{% if field %}` tests. */
  predicate Given(o: Option<string>) { o.Some? && o.value != "" }

  /** `value or default` */
  function Or(s: string, default: string): (r: string) { if s == "" then default else s }

  /** A float field that is present and not zero. */
  predicate NonZero(o: Option<Float>) { o.Some? && o.value.mag != 0.0 }

  function Int(n: int): (s: string) { if n < 0 then "-" + Digits(-n) else Digits(n) }
}
