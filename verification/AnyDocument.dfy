/** What the extractor makes of any document, whoever wrote it: where it looks, in which order,
    and what it falls back on. */
module AnyDocument {
  import opened Wrappers
  import opened Decimal
  import opened Xml
  import opened Extractor

  // ---- The first search that finds a node ----

  /** The search `k` is the first of the list that finds anything. */
  predicate Hits(ns: Forest, paths: seq<Path>, k: nat) {
    && k < |paths| && Select(ns, [], paths[k]) != []
    && forall j :: 0 <= j < k ==> Select(ns, [], paths[j]) == []
  }

  predicate NoneHits(ns: Forest, paths: seq<Path>) { forall j :: 0 <= j < |paths| ==> Select(ns, [], paths[j]) == [] }

  /** The text is that of the first node that the first successful search finds, even when it is
      empty and a later search would find one that is not. */
  lemma {:induction false} FirstTextIs(ns: Forest, paths: seq<Path>, k: nat)
    ensures Hits(ns, paths, k) ==>
              var n := Select(ns, [], paths[k])[0]; FirstText(ns, paths) == if n.text == "" then None else Some(n.text)
    ensures NoneHits(ns, paths) ==> FirstText(ns, paths) == None
  {
    hide Select;
    if paths != [] {
      var rest := paths[1..];
      assert forall j :: 0 < j < |paths| ==> paths[j] == rest[j - 1];
      assert forall j :: 0 <= j < |rest| ==> rest[j] == paths[j + 1];
      FirstTextIs(ns, rest, if k == 0 then 0 else k - 1);
    }
  }

  // ---- Lines ----

  function Number(py: Python, ns: Forest, paths: seq<Path>): (r: Option<Float>) {
    var t := FirstText(ns, paths);
    if t.None? || t.value == "" then None else py.read(t.value)
  }

  function Words(ns: Forest, paths: seq<Path>, default: string): (s: string) {
    var t := FirstText(ns, paths);
    if t.None? || t.value == "" then default else t.value
  }

  /** A line of any document: the quantity is one and the price zero when they cannot be read;
      the net price comes before the gross price; and where the total cannot be read, it is the
      product of the two. */
  lemma {:induction false} AnyLine(py: Python, item: Node)
    ensures var net := [P(NetPriceProductTradePrice), P(ChargeAmount)];
            var quantity := Number(py, item.kids, [Down([S(BilledQuantity)])]).GetOr(Float(false, 1.0));
            var price := Number(py, item.kids, [
              Down([S(SpecifiedLineTradeAgreement)] + net), Down(net),
              Down([P(GrossPriceProductTradePrice), P(ChargeAmount)])]).GetOr(Float(false, 0.0));
            var total := Number(py, item.kids, [
              Down([S(SpecifiedLineTradeSettlement), P(SpecifiedTradeSettlementLineMonetarySummation), P(LineTotalAmount)]),
              Down([P(SpecifiedTradeSettlementMonetarySummation), P(LineTotalAmount)])]);
            var rate := Number(py, item.kids, [
              Down([S(SpecifiedLineTradeSettlement), P(ApplicableTradeTax), P(RateApplicablePercent)]),
              Down([P(ApplicableTradeTax), P(RateApplicablePercent)])]).GetOr(Float(false, 0.0));
            var row, amount := ItemOf(py, item), LineTotal(py, item);
            && row.description == Words(item.kids, [Down([S(SpecifiedTradeProduct), P(Name)])], "Item")
            && row.quantity == py.repr(quantity) && row.unitPrice == Print2(price) && row.vatRate == Print2(rate)
            && row.lineTotal == Print2(amount)
            && (total.Some? ==> amount == total.value)
            && (total.None? ==> Value(amount) == Value(quantity) * Value(price))
  {
    hide Select, FirstText, Print2;
    assert [S(SpecifiedLineTradeAgreement)] + [P(NetPriceProductTradePrice), P(ChargeAmount)]
        == [S(SpecifiedLineTradeAgreement), P(NetPriceProductTradePrice), P(ChargeAmount)];
  }

  /** The unit is that of the first quantity that has one. */
  lemma {:induction false} AnyUnit(py: Python, item: Node, k: nat)
    ensures var found := Select(item.kids, [], Down([S(BilledQuantity)]));
            && (k < |found| && UnitCode in found[k].attrs && found[k].attrs[UnitCode] != ""
                && (forall j :: 0 <= j < k ==> UnitCode !in found[j].attrs)
                ==> ItemOf(py, item).unitCode == found[k].attrs[UnitCode])
            && ((forall j :: 0 <= j < |found| ==> UnitCode !in found[j].attrs) ==> ItemOf(py, item).unitCode == "C62")
  {
    AttrIs(Select(item.kids, [], Down([S(BilledQuantity)])), k);
    hide Select, FirstText, FirstAttr, Print2;
  }

  lemma {:induction false} AttrIs(found: seq<Node>, k: nat)
    ensures k < |found| && UnitCode in found[k].attrs && (forall j :: 0 <= j < k ==> UnitCode !in found[j].attrs)
            ==> FirstAttr(found, UnitCode) == Some(found[k].attrs[UnitCode])
    ensures (forall j :: 0 <= j < |found| ==> UnitCode !in found[j].attrs) ==> FirstAttr(found, UnitCode) == None
  {
    if found != [] {
      var rest := found[1..];
      assert forall j :: 0 < j < |found| ==> found[j] == rest[j - 1];
      assert forall j :: 0 <= j < |rest| ==> rest[j] == found[j + 1];
      AttrIs(rest, if k == 0 then 0 else k - 1);
    }
  }

  /** Each of the first ten lines adds its total to the net. */
  lemma {:induction false} NetAddsUp(py: Python, lines: seq<Node>, k: nat)
    requires k < |lines|
    ensures Value(SumLines(py, lines, 0)) == 0.0
    ensures Value(SumLines(py, lines, k + 1)) == Value(SumLines(py, lines, k)) + Value(LineTotal(py, lines[k]))
  {
    hide LineTotal;
  }

  // ---- The document ----

  function Settled(amount: Part): (p: Path) {
    Down([M(ApplicableHeaderTradeSettlement), M(SpecifiedTradeSettlementHeaderMonetarySummation), P(amount)])
  }

  function Older(amount: Part): (p: Path) { Down([P(SpecifiedTradeSettlementMonetarySummation), P(amount)]) }

  /** The header of any document: where number, date and currency are looked for, and that at most
      ten lines are kept. */
  lemma {:induction false} AnyHeader(py: Python, root: Node)
    ensures var doc, r := Cons(root, Nil), ExtractOf(py, root);
            var lines := Select(doc, [], Down([M(IncludedSupplyChainTradeLineItem)]));
            && r.number == FirstText(doc, [Down([M(ExchangedDocument), P(ID)]), Down([P(HeaderExchangedDocument), P(ID)])])
            && r.date == FirstText(doc, [
                 Down([M(ExchangedDocument), P(IssueDateTime), P(DateTimeString)]),
                 Down([P(HeaderExchangedDocument), P(IssueDateTime), P(DateTimeString)]),
                 Down([P(IssueDateTime), P(DateTimeString)])])
            && r.currency == Words(doc, [Down([M(InvoiceCurrencyCode)])], "EUR")
            && |r.items| == (if |lines| <= 10 then |lines| else 10)
            && (forall i :: 0 <= i < |r.items| ==> r.items[i] == ItemOf(py, lines[i]))
            && (r.noLinesWarning <==> lines == [])
  {
    hide Select, FirstText, ItemOf, SumLines, TotalsOf, PartyOf;
  }

  /** The totals of any document: read where they are declared, in the newer layout or the older
      one; otherwise the net is the sum over the lines, the tax zero, the gross their sum and the
      payable amount the gross. */
  lemma {:induction false} AnyTotals(py: Python, root: Node) returns (net: Float, tax: Float, gross: Float, payable: Float)
    ensures var doc, t := Cons(root, Nil), ExtractOf(py, root).totals;
            var lines := Select(doc, [], Down([M(IncludedSupplyChainTradeLineItem)]));
            && t == Totals(Print2(net), Print2(tax), Print2(gross), Print2(payable))
            && net == Number(py, doc, [Settled(TaxBasisTotalAmount), Older(TaxBasisTotalAmount), Older(LineTotalAmount)])
                      .GetOr(SumLines(py, lines, if |lines| <= 10 then |lines| else 10))
            && tax == Number(py, doc, [Settled(TaxTotalAmount), Older(TaxTotalAmount)]).GetOr(Float(false, 0.0))
            && (var g := Number(py, doc, [Settled(GrandTotalAmount), Older(GrandTotalAmount)]);
                if g.Some? then gross == g.value else Value(gross) == Value(net) + Value(tax))
            && payable == Number(py, doc, [Settled(DuePayableAmount), Older(DuePayableAmount)]).GetOr(gross)
  {
    hide Select, FirstText, SumLines, PartyOf, Items, Print2;
    var doc := Cons(root, Nil);
    var lines := Select(doc, [], LINES);
    net := ReadOr(py, FirstText(doc, NET), SumLines(py, lines, Kept(|lines|)));
    tax := ReadOr(py, FirstText(doc, HeaderTotal(TaxTotalAmount)), ZERO);
    gross := ReadOr(py, FirstText(doc, HeaderTotal(GrandTotalAmount)), Add(net, tax));
    payable := ReadOr(py, FirstText(doc, HeaderTotal(DuePayableAmount)), gross);
  }

  /** The parties of any document. */
  lemma {:induction false} AnyParties(py: Python, root: Node)
    ensures var doc, r := Cons(root, Nil), ExtractOf(py, root);
            && r.seller == AnyParty(doc, SellerTradeParty) && r.buyer == AnyParty(doc, BuyerTradeParty)
  {
    hide Select, FirstText, SumLines, TotalsOf, Items;
    forall party: Mark, steps: seq<Tag> ensures PartyPath(party, steps) == [Down([M(party)] + steps)] {
    }
    forall party: Mark, part: Part
      ensures [M(party)] + [P(PostalTradeAddress), P(part)] == [M(party), P(PostalTradeAddress), P(part)]
           && [M(party)] + [P(part)] == [M(party), P(part)] {
    }
  }

  function AnyParty(doc: Forest, party: Mark): (r: Party) {
    var street := [M(party), P(PostalTradeAddress), P(LineOne)];
    Party(
      Words(doc, [Down([M(party), P(Name)])], ""),
      Words(doc, [Path(Some(M(party)), [S(SpecifiedTaxRegistration), P(ID)])], ""),
      Place(Words(doc, [Down(street)], ""),
            Words(doc, [Down([M(party), P(PostalTradeAddress), P(CityName)])], ""),
            Words(doc, [Down([M(party), P(PostalTradeAddress), P(PostcodeCode)])], ""),
            Words(doc, [Down([M(party), P(PostalTradeAddress), P(CountryID)])], "")))
  }
}
