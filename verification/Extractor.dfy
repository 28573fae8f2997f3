/** The extractor: ordered searches with fallbacks over an invoice tree. */
module Extractor {
  import opened Wrappers
  import opened Decimal
  import opened Xml

  /** Python's reading and writing of floats: `float(text)`, None when it raises, and `repr`. */
  datatype Python = Python(read: string -> Option<Float>, repr: Float -> string)

  datatype Place = Place(line: string, city: string, postcode: string, country: string)
  datatype Party = Party(name: string, vat: string, place: Place)
  datatype Item = Item(
    description: string, quantity: string, unitCode: string, unitPrice: string, vatRate: string, lineTotal: string)
  datatype Totals = Totals(net: string, tax: string, gross: string, payable: string)
  datatype Extract = Extract(
    number: Option<string>, date: Option<string>, currency: string, seller: Party, buyer: Party,
    totals: Totals, items: seq<Item>, noLinesWarning: bool)

  const MOST_LINES := 10

  const NUMBER := [Down([M(ExchangedDocument), P(ID)]), Down([P(HeaderExchangedDocument), P(ID)])]
  const DATE := [
    Down([M(ExchangedDocument), P(IssueDateTime), P(DateTimeString)]),
    Down([P(HeaderExchangedDocument), P(IssueDateTime), P(DateTimeString)]),
    Down([P(IssueDateTime), P(DateTimeString)])]
  const CURRENCY := [Down([M(InvoiceCurrencyCode)])]
  const LINES := Down([M(IncludedSupplyChainTradeLineItem)])
  const LINE_NAME := [Down([S(SpecifiedTradeProduct), P(Name)])]
  const LINE_QUANTITY := [Down([S(BilledQuantity)])]
  const LINE_PRICE := [
    Down([S(SpecifiedLineTradeAgreement), P(NetPriceProductTradePrice), P(ChargeAmount)]),
    Down([P(NetPriceProductTradePrice), P(ChargeAmount)]),
    Down([P(GrossPriceProductTradePrice), P(ChargeAmount)])]
  const LINE_TOTAL := [
    Down([S(SpecifiedLineTradeSettlement), P(SpecifiedTradeSettlementLineMonetarySummation), P(LineTotalAmount)]),
    Down([P(SpecifiedTradeSettlementMonetarySummation), P(LineTotalAmount)])]
  const LINE_RATE := [
    Down([S(SpecifiedLineTradeSettlement), P(ApplicableTradeTax), P(RateApplicablePercent)]),
    Down([P(ApplicableTradeTax), P(RateApplicablePercent)])]
  const NET := [
    Down([M(ApplicableHeaderTradeSettlement), M(SpecifiedTradeSettlementHeaderMonetarySummation), P(TaxBasisTotalAmount)]),
    Down([P(SpecifiedTradeSettlementMonetarySummation), P(TaxBasisTotalAmount)]),
    Down([P(SpecifiedTradeSettlementMonetarySummation), P(LineTotalAmount)])]

  function HeaderTotal(amount: Part): (paths: seq<Path>) {
    [Down([M(ApplicableHeaderTradeSettlement), M(SpecifiedTradeSettlementHeaderMonetarySummation), P(amount)]),
     Down([P(SpecifiedTradeSettlementMonetarySummation), P(amount)])]
  }

  function PartyPath(party: Mark, steps: seq<Tag>): (paths: seq<Path>) { [Down([M(party)] + steps)] }

  function PartyVat(party: Mark): (paths: seq<Path>) { [Path(Some(M(party)), [S(SpecifiedTaxRegistration), P(ID)])] }

  // ---- What the searches mean ----

  /** The text of an element: lxml gives None for an empty one. */
  function TextOf(n: Node): (r: Option<string>) { if n.text == "" then None else Some(n.text) }

  /** The text found by the first search that finds any node. */
  function FirstText(ns: Forest, paths: seq<Path>): (r: Option<string>) {
    if paths == [] then None
    else var found := Select(ns, [], paths[0]);
      if found != [] then TextOf(found[0]) else FirstText(ns, paths[1..])
  }

  /** The first value of an attribute among the selected nodes: `path/@name`. */
  function FirstAttr(found: seq<Node>, name: AttrName): (r: Option<string>) {
    if found == [] then None
    else if name in found[0].attrs then Some(found[0].attrs[name]) else FirstAttr(found[1..], name)
  }

  function OrElse(o: Option<string>, default: string): (r: string) {
    if o.Some? && o.value != "" then o.value else default
  }

  /** `float(raw) if raw else default`, and the default again when `float` raises. */
  function ReadOr(py: Python, raw: Option<string>, default: Float): (r: Float) {
    if raw.Some? && raw.value != "" then py.read(raw.value).GetOr(default) else default
  }

  function Quantity(py: Python, item: Node): (r: Float) { ReadOr(py, FirstText(item.kids, LINE_QUANTITY), ONE) }
  function Price(py: Python, item: Node): (r: Float) { ReadOr(py, FirstText(item.kids, LINE_PRICE), ZERO) }
  function Rate(py: Python, item: Node): (r: Float) { ReadOr(py, FirstText(item.kids, LINE_RATE), ZERO) }
  function LineTotal(py: Python, item: Node): (r: Float) {
    ReadOr(py, FirstText(item.kids, LINE_TOTAL), Mul(Quantity(py, item), Price(py, item)))
  }

  function ItemOf(py: Python, item: Node): (r: Item) {
    Item(
      OrElse(FirstText(item.kids, LINE_NAME), "Item"),
      py.repr(Quantity(py, item)),
      OrElse(FirstAttr(Select(item.kids, [], LINE_QUANTITY[0]), UnitCode), "C62"),
      Print2(Price(py, item)),
      Print2(Rate(py, item)),
      Print2(LineTotal(py, item)))
  }

  /** The rows of the first `k` items. */
  function Items(py: Python, ns: seq<Node>, k: nat): (r: seq<Item>)
    requires k <= |ns|
    ensures |r| == k && forall i :: 0 <= i < k ==> r[i] == ItemOf(py, ns[i])
  {
    seq(k, i requires 0 <= i < k => ItemOf(py, ns[i]))
  }

  /** The running net total after `k` items. */
  function SumLines(py: Python, ns: seq<Node>, k: nat): (r: Float)
    requires k <= |ns|
  {
    if k == 0 then ZERO else Add(SumLines(py, ns, k - 1), LineTotal(py, ns[k - 1]))
  }

  /** `items[:10]` */
  function Kept(n: nat): (k: nat) { if n <= MOST_LINES then n else MOST_LINES }

  /** The cascade of totals: each falls back on the ones before it. */
  function TotalsOf(py: Python, doc: Forest, lines: Float): (r: Totals) {
    var net := ReadOr(py, FirstText(doc, NET), lines);
    var tax := ReadOr(py, FirstText(doc, HeaderTotal(TaxTotalAmount)), ZERO);
    var gross := ReadOr(py, FirstText(doc, HeaderTotal(GrandTotalAmount)), Add(net, tax));
    var payable := ReadOr(py, FirstText(doc, HeaderTotal(DuePayableAmount)), gross);
    Totals(Print2(net), Print2(tax), Print2(gross), Print2(payable))
  }

  function PartyOf(doc: Forest, party: Mark): (r: Party) {
    Party(
      OrElse(FirstText(doc, PartyPath(party, [P(Name)])), ""),
      OrElse(FirstText(doc, PartyVat(party)), ""),
      Place(
        OrElse(FirstText(doc, PartyPath(party, [P(PostalTradeAddress), P(LineOne)])), ""),
        OrElse(FirstText(doc, PartyPath(party, [P(PostalTradeAddress), P(CityName)])), ""),
        OrElse(FirstText(doc, PartyPath(party, [P(PostalTradeAddress), P(PostcodeCode)])), ""),
        OrElse(FirstText(doc, PartyPath(party, [P(PostalTradeAddress), P(CountryID)])), "")))
  }

  /** The specification of the extractor on any tree. */
  function ExtractOf(py: Python, root: Node): (r: Extract) {
    var doc := Cons(root, Nil);
    var lines := Select(doc, [], LINES);
    Extract(
      FirstText(doc, NUMBER), FirstText(doc, DATE), OrElse(FirstText(doc, CURRENCY), "EUR"),
      PartyOf(doc, SellerTradeParty), PartyOf(doc, BuyerTradeParty),
      TotalsOf(py, doc, SumLines(py, lines, Kept(|lines|))),
      Items(py, lines, Kept(|lines|)),
      lines == [])
  }

  // ---- The extractor as it runs ----

  /** `xpath_first`: try each search in turn and stop at the first that finds a node. */
  method XPathFirst(ns: Forest, paths: seq<Path>) returns (r: Option<string>)
    ensures r == FirstText(ns, paths)
  {
    var i := 0;
    while i < |paths|
      invariant 0 <= i <= |paths|
      invariant FirstText(ns, paths) == FirstText(ns, paths[i..])
    {
      var found := Select(ns, [], paths[i]);
      if found != [] {
        return TextOf(found[0]);
      }
      i := i + 1;
    }
    return None;
  }

  method ReadFloat(py: Python, ns: Forest, paths: seq<Path>, default: Float) returns (r: Float)
    ensures r == ReadOr(py, FirstText(ns, paths), default)
  {
    var raw := XPathFirst(ns, paths);
    r := default;
    if raw.Some? && raw.value != "" {
      var parsed := py.read(raw.value);
      if parsed.Some? {
        r := parsed.value;
      }
    }
  }

  /** One turn of the line loop: the row and the amount it adds. */
  method ReadLine(py: Python, item: Node) returns (row: Item, lineTotal: Float)
    ensures row == ItemOf(py, item) && lineTotal == LineTotal(py, item)
  {
    var name := XPathFirst(item.kids, LINE_NAME);
    var qty := ReadFloat(py, item.kids, LINE_QUANTITY, ONE);
    var price := ReadFloat(py, item.kids, LINE_PRICE, ZERO);
    lineTotal := ReadFloat(py, item.kids, LINE_TOTAL, Mul(qty, price));
    var rate := ReadFloat(py, item.kids, LINE_RATE, ZERO);
    var unit := FirstAttr(Select(item.kids, [], LINE_QUANTITY[0]), UnitCode);
    row := Item(OrElse(name, "Item"), py.repr(qty), OrElse(unit, "C62"),
                Print2(price), Print2(rate), Print2(lineTotal));
  }

  /** The line loop: at most ten items, their rows and the running net total. */
  method ReadLines(py: Python, lines: seq<Node>) returns (items: seq<Item>, total: Float)
    ensures items == Items(py, lines, Kept(|lines|))
    ensures total == SumLines(py, lines, Kept(|lines|))
  {
    hide ItemOf, LineTotal;
    items, total := [], ZERO;
    var i := 0;
    while i < |lines| && i < MOST_LINES
      invariant 0 <= i <= Kept(|lines|)
      invariant items == Items(py, lines, i)
      invariant total == SumLines(py, lines, i)
    {
      var row, lineTotal := ReadLine(py, lines[i]);
      items := items + [row];
      total := Add(total, lineTotal);
      i := i + 1;
    }
  }

  method ReadParty(doc: Forest, party: Mark) returns (r: Party)
    ensures r == PartyOf(doc, party)
  {
    var name := XPathFirst(doc, PartyPath(party, [P(Name)]));
    var vat := XPathFirst(doc, PartyVat(party));
    var line := XPathFirst(doc, PartyPath(party, [P(PostalTradeAddress), P(LineOne)]));
    var city := XPathFirst(doc, PartyPath(party, [P(PostalTradeAddress), P(CityName)]));
    var postcode := XPathFirst(doc, PartyPath(party, [P(PostalTradeAddress), P(PostcodeCode)]));
    var country := XPathFirst(doc, PartyPath(party, [P(PostalTradeAddress), P(CountryID)]));
    r := Party(OrElse(name, ""), OrElse(vat, ""),
               Place(OrElse(line, ""), OrElse(city, ""), OrElse(postcode, ""), OrElse(country, "")));
  }

  method ParseInvoice(py: Python, root: Node) returns (r: Extract)
    ensures r == ExtractOf(py, root)
  {
    var doc := Cons(root, Nil);
    var number := XPathFirst(doc, NUMBER);
    var date := XPathFirst(doc, DATE);
    var currency := XPathFirst(doc, CURRENCY);
    var lines := Select(doc, [], LINES);
    var items, total := ReadLines(py, lines);
    var net := ReadFloat(py, doc, NET, total);
    var tax := ReadFloat(py, doc, HeaderTotal(TaxTotalAmount), ZERO);
    var gross := ReadFloat(py, doc, HeaderTotal(GrandTotalAmount), Add(net, tax));
    var payable := ReadFloat(py, doc, HeaderTotal(DuePayableAmount), gross);
    var seller := ReadParty(doc, SellerTradeParty);
    var buyer := ReadParty(doc, BuyerTradeParty);
    r := Extract(number, date, OrElse(currency, "EUR"), seller, buyer,
                 Totals(Print2(net), Print2(tax), Print2(gross), Print2(payable)), items, lines == []);
  }
}
