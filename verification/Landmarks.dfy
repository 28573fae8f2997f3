/** Where each search over a rendered invoice ends up, whatever the metadata. */
module Landmarks {
  import opened Wrappers
  import opened Decimal
  import opened Invoice
  import opened Xml
  import opened Template

  // ---- Sections without a given mark ----

  lemma {:induction false} TaxesFree(ts: seq<TaxDetail>, rest: Forest, g: Mark)
    requires Free(rest, M(g))
    ensures Free(TaxNodes(ts, rest), M(g))
  {
    if ts != [] {
      TaxesFree(ts[1..], rest, g);
      PlainIsFree(TaxNode(ts[0]).kids, g);
    }
  }

  lemma {:induction false} AdjustmentsFree(charge: bool, s: seq<Adjustment>, rest: Forest, g: Mark)
    requires Free(rest, M(g))
    ensures Free(AdjustmentNodes(charge, s, rest), M(g))
  {
    if s != [] {
      AdjustmentsFree(charge, s[1..], rest, g);
      PlainIsFree(AdjustmentNode(charge, s[0]).kids, g);
    }
  }

  lemma {:induction false} BalancesFree(m: Metadata, repr: Float -> string, g: Mark)
    requires g != SpecifiedTradeSettlementHeaderMonetarySummation
    ensures Free(Balances(m, repr), M(g))
  {
    hide Terms, Summation;
    PlainIsFree(Summation(m).kids, g);
    PlainIsFree(Terms(m, repr).kids, g);
    var terms := When(Given(m.dueDate) || Given(m.paymentTerms) || m.discount.Some?, Terms(m, repr),
                      One(Summation(m), Nil));
    AdjustmentsFree(true, m.charges, terms, g);
    AdjustmentsFree(false, m.allowances, AdjustmentNodes(true, m.charges, terms), g);
    TaxesFree(m.taxDetails, AdjustmentNodes(false, m.allowances, AdjustmentNodes(true, m.charges, terms)), g);
  }

  predicate InSettlement(g: Mark) {
    || g == SpecifiedTradeSettlementHeaderMonetarySummation || g == SpecifiedTradeSettlementPaymentMeans
    || g == InvoiceCurrencyCode
  }

  lemma {:induction false} SettlementFree(m: Metadata, repr: Float -> string, g: Mark)
    requires !InSettlement(g)
    ensures Free(Settlement(m, repr).kids, M(g))
  {
    hide PaymentMeans, Balances;
    PlainIsFree(PaymentMeans(m).kids, g);
    BalancesFree(m, repr, g);
  }

  lemma {:induction false} AgreementFree(m: Metadata, g: Mark)
    requires g != SellerTradeParty && g != BuyerTradeParty
    ensures Free(Agreement(m).kids, M(g))
  {
    hide SellerNode, BuyerNode;
    PlainIsFree(SellerNode(m.seller).kids, g);
    PlainIsFree(BuyerNode(m.buyer).kids, g);
  }

  // ---- Descending to a mark ----

  lemma {:induction false} IntoTransaction(m: Metadata, repr: Float -> string, trail: seq<Tag>, p: Path, g: Mark)
    requires Needs(p, M(g)) && M(g) !in trail && g != ExchangedDocument
    ensures Select(Render(m, repr).kids, trail, p)
         == Select(Transaction(m, repr).kids, trail + [P(SupplyChainTradeTransaction)], p)
  {
    hide Context, Document, Select;
    PlainIsFree(Context(m.profile).kids, g);
    PlainIsFree(Document(m).kids, g);
    var last := Cons(Transaction(m, repr), Nil);
    PassOver(Context(m.profile), Cons(Document(m), last), trail, p, M(g));
    PassOver(Document(m), last, trail, p, M(g));
    PassThrough(Transaction(m, repr), Nil, trail, p, M(g));
  }

  lemma {:induction false} PastLines(ls: seq<Line>, repr: Float -> string, rest: Forest, trail: seq<Tag>, p: Path, g: Mark)
    requires Needs(p, M(g)) && M(g) !in trail && g != IncludedSupplyChainTradeLineItem
    ensures Select(LineNodes(ls, repr, rest), trail, p) == Select(rest, trail, p)
  {
    hide LineNode, Select;
    if ls != [] {
      PlainIsFree(LineNode(ls[0], repr).kids, g);
      PassOver(LineNode(ls[0], repr), LineNodes(ls[1..], repr, rest), trail, p, M(g));
      PastLines(ls[1..], repr, rest, trail, p, g);
    }
  }

  function Headers(m: Metadata, repr: Float -> string): (r: Forest) {
    One(Agreement(m), One(Delivery(m), One(Settlement(m, repr), Nil)))
  }

  /** To the three header sections, past the document and every line. */
  lemma {:induction false} IntoHeaders(m: Metadata, repr: Float -> string, trail: seq<Tag>, p: Path, g: Mark)
    requires Needs(p, M(g)) && M(g) !in trail && g != ExchangedDocument && g != IncludedSupplyChainTradeLineItem
    ensures Select(Render(m, repr).kids, trail, p)
         == Select(Headers(m, repr), trail + [P(SupplyChainTradeTransaction)], p)
  {
    hide Select, Agreement, Delivery, Settlement, Render;
    IntoTransaction(m, repr, trail, p, g);
    PastLines(m.lines, repr, Headers(m, repr), trail + [P(SupplyChainTradeTransaction)], p, g);
  }

  /** The children of the agreement from the seller on. */
  function Parties(m: Metadata): (r: Forest) {
    Cons(SellerNode(m.seller), Cons(BuyerNode(m.buyer),
    When(Given(m.contractReference),
      Group(ContractReferencedDocument, Text(IssuerAssignedID, m.contractReference.GetOr(""), Nil)), Nil)))
  }

  lemma {:induction false} IntoParties(m: Metadata, repr: Float -> string, trail: seq<Tag>, p: Path, g: Mark)
    requires Needs(p, M(g)) && M(g) !in trail && (g == SellerTradeParty || g == BuyerTradeParty)
    ensures Select(Render(m, repr).kids, trail, p)
         == Select(Parties(m), trail + [P(SupplyChainTradeTransaction), P(ApplicableHeaderTradeAgreement)], p)
  {
    hide Select, Render, Delivery, Settlement, SellerNode, BuyerNode;
    IntoHeaders(m, repr, trail, p, g);
    var here := trail + [P(SupplyChainTradeTransaction)];
    PlainIsFree(Delivery(m).kids, g);
    SettlementFree(m, repr, g);
    SettlementTag(m, repr);
    PassThrough(Agreement(m), Cons(Delivery(m), Cons(Settlement(m, repr), Nil)), here, p, M(g));
    var there := here + [P(ApplicableHeaderTradeAgreement)];
    PassWhen(Given(m.buyerReference), Leaf(BuyerReference, m.buyerReference.GetOr("")), Parties(m), there, p, M(g));
    assert there == trail + [P(SupplyChainTradeTransaction), P(ApplicableHeaderTradeAgreement)];
  }

  lemma {:induction false} SettlementTag(m: Metadata, repr: Float -> string)
    ensures Settlement(m, repr).tag == M(ApplicableHeaderTradeSettlement)
  {
  }

  lemma {:induction false} ReachSeller(m: Metadata, repr: Float -> string, trail: seq<Tag>, steps: seq<Tag>)
    requires M(SellerTradeParty) !in trail + steps
    ensures Select(Render(m, repr).kids, trail, Down([M(SellerTradeParty)] + steps))
         == Found(SellerNode(m.seller), [M(SellerTradeParty)] + steps)
  {
    hide Select, Render, SellerNode, BuyerNode, Found;
    var p := Down([M(SellerTradeParty)] + steps);
    var here := trail + [P(SupplyChainTradeTransaction), P(ApplicableHeaderTradeAgreement)];
    IntoParties(m, repr, trail, p, SellerTradeParty);
    PlainIsFree(SellerNode(m.seller).kids, SellerTradeParty);
    PlainIsFree(BuyerNode(m.buyer).kids, SellerTradeParty);
    Arrive(SellerNode(m.seller), Parties(m).tail, here, p.steps);
    SelectNone(Parties(m).tail, here, p, M(SellerTradeParty));
  }

  lemma {:induction false} ReachBuyer(m: Metadata, repr: Float -> string, trail: seq<Tag>, steps: seq<Tag>)
    requires M(BuyerTradeParty) !in trail + steps
    ensures Select(Render(m, repr).kids, trail, Down([M(BuyerTradeParty)] + steps))
         == Found(BuyerNode(m.buyer), [M(BuyerTradeParty)] + steps)
  {
    hide Select, Render, SellerNode, BuyerNode, Found;
    var p := Down([M(BuyerTradeParty)] + steps);
    var here := trail + [P(SupplyChainTradeTransaction), P(ApplicableHeaderTradeAgreement)];
    IntoParties(m, repr, trail, p, BuyerTradeParty);
    PlainIsFree(SellerNode(m.seller).kids, BuyerTradeParty);
    PlainIsFree(BuyerNode(m.buyer).kids, BuyerTradeParty);
    PassOver(SellerNode(m.seller), Parties(m).tail, here, p, M(BuyerTradeParty));
    Arrive(BuyerNode(m.buyer), Parties(m).tail.tail, here, p.steps);
    SelectNone(Parties(m).tail.tail, here, p, M(BuyerTradeParty));
  }

  lemma {:induction false} IntoSettlement(m: Metadata, repr: Float -> string, trail: seq<Tag>, p: Path, g: Mark)
    requires Needs(p, M(g)) && M(g) !in trail && (InSettlement(g) || g == ApplicableHeaderTradeSettlement)
    ensures Select(Render(m, repr).kids, trail, p)
         == Select(Cons(Settlement(m, repr), Nil), trail + [P(SupplyChainTradeTransaction)], p)
  {
    hide Select, Render, Agreement, Delivery, Settlement;
    IntoHeaders(m, repr, trail, p, g);
    AgreementTag(m);
    AgreementFree(m, g);
    PlainIsFree(Delivery(m).kids, g);
    var here := trail + [P(SupplyChainTradeTransaction)];
    PassOver(Agreement(m), Cons(Delivery(m), Cons(Settlement(m, repr), Nil)), here, p, M(g));
    PassOver(Delivery(m), Cons(Settlement(m, repr), Nil), here, p, M(g));
  }

  lemma {:induction false} AgreementTag(m: Metadata)
    ensures Agreement(m).tag == P(ApplicableHeaderTradeAgreement)
  {
  }

  lemma {:induction false} ReachSettlement(m: Metadata, repr: Float -> string, trail: seq<Tag>, steps: seq<Tag>)
    requires M(ApplicableHeaderTradeSettlement) !in trail + steps
    ensures Select(Render(m, repr).kids, trail, Down([M(ApplicableHeaderTradeSettlement)] + steps))
         == Found(Settlement(m, repr), [M(ApplicableHeaderTradeSettlement)] + steps)
  {
    hide Render, Settlement, Found;
    var p := Down([M(ApplicableHeaderTradeSettlement)] + steps);
    IntoSettlement(m, repr, trail, p, ApplicableHeaderTradeSettlement);
    SettlementTag(m, repr);
    SettlementFree(m, repr, ApplicableHeaderTradeSettlement);
    Arrive(Settlement(m, repr), Nil, trail + [P(SupplyChainTradeTransaction)], p.steps);
  }

  /** The children of the settlement from the currency on. */
  function Settled(m: Metadata, repr: Float -> string): (r: Forest) {
    Cons(Node(M(InvoiceCurrencyCode), map[], m.currency, Nil),
    When(Given(m.seller.iban) || Given(m.paymentMeans), PaymentMeans(m), Balances(m, repr)))
  }

  lemma {:induction false} InsideSettlement(m: Metadata, repr: Float -> string, trail: seq<Tag>, p: Path, g: Mark)
    requires Needs(p, M(g)) && M(g) !in trail && InSettlement(g)
    ensures Select(Render(m, repr).kids, trail, p)
         == Select(Settled(m, repr), trail + [P(SupplyChainTradeTransaction), M(ApplicableHeaderTradeSettlement)], p)
  {
    hide Select, Render, PaymentMeans, Balances;
    IntoSettlement(m, repr, trail, p, g);
    var here := trail + [P(SupplyChainTradeTransaction)];
    PassThrough(Settlement(m, repr), Nil, here, p, M(g));
    var there := here + [M(ApplicableHeaderTradeSettlement)];
    PassWhen(Given(m.creditorReference), Leaf(CreditorReferenceID, m.creditorReference.GetOr("")),
             Settled(m, repr), there, p, M(g));
    assert there == trail + [P(SupplyChainTradeTransaction), M(ApplicableHeaderTradeSettlement)];
  }

  lemma {:induction false} ReachCurrency(m: Metadata, repr: Float -> string, trail: seq<Tag>)
    requires M(InvoiceCurrencyCode) !in trail
    ensures Select(Render(m, repr).kids, trail, Down([M(InvoiceCurrencyCode)]))
         == [Node(M(InvoiceCurrencyCode), map[], m.currency, Nil)]
  {
    hide Select, Render, PaymentMeans, Balances;
    var p := Down([M(InvoiceCurrencyCode)]);
    InsideSettlement(m, repr, trail, p, InvoiceCurrencyCode);
    var here := trail + [P(SupplyChainTradeTransaction), M(ApplicableHeaderTradeSettlement)];
    BalancesFree(m, repr, InvoiceCurrencyCode);
    PlainIsFree(PaymentMeans(m).kids, InvoiceCurrencyCode);
    Arrive(Settled(m, repr).head, Settled(m, repr).tail, here, p.steps);
    SelectNone(Settled(m, repr).tail, here, p, M(InvoiceCurrencyCode));
  }

  lemma {:induction false} PastTaxes(ts: seq<TaxDetail>, rest: Forest, trail: seq<Tag>, p: Path, g: Mark)
    requires Needs(p, M(g)) && M(g) !in trail
    ensures Select(TaxNodes(ts, rest), trail, p) == Select(rest, trail, p)
  {
    hide TaxNode, Select;
    if ts != [] {
      PlainIsFree(TaxNode(ts[0]).kids, g);
      PassOver(TaxNode(ts[0]), TaxNodes(ts[1..], rest), trail, p, M(g));
      PastTaxes(ts[1..], rest, trail, p, g);
    }
  }

  lemma {:induction false} PastAdjustments(charge: bool, s: seq<Adjustment>, rest: Forest, trail: seq<Tag>, p: Path, g: Mark)
    requires Needs(p, M(g)) && M(g) !in trail
    ensures Select(AdjustmentNodes(charge, s, rest), trail, p) == Select(rest, trail, p)
  {
    hide AdjustmentNode, Select;
    if s != [] {
      PlainIsFree(AdjustmentNode(charge, s[0]).kids, g);
      PassOver(AdjustmentNode(charge, s[0]), AdjustmentNodes(charge, s[1..], rest), trail, p, M(g));
      PastAdjustments(charge, s[1..], rest, trail, p, g);
    }
  }

  lemma {:induction false} ToSummation(m: Metadata, repr: Float -> string, trail: seq<Tag>, p: Path)
    requires Needs(p, M(SpecifiedTradeSettlementHeaderMonetarySummation))
    requires M(SpecifiedTradeSettlementHeaderMonetarySummation) !in trail
    ensures Select(Balances(m, repr), trail, p) == Select(Cons(Summation(m), Nil), trail, p)
  {
    hide Select, Terms, Summation, TaxNodes, AdjustmentNodes;
    var g := SpecifiedTradeSettlementHeaderMonetarySummation;
    var last := One(Summation(m), Nil);
    var c := Given(m.dueDate) || Given(m.paymentTerms) || m.discount.Some?;
    var terms := When(c, Terms(m, repr), last);
    var charges := AdjustmentNodes(true, m.charges, terms);
    PastTaxes(m.taxDetails, AdjustmentNodes(false, m.allowances, charges), trail, p, g);
    PastAdjustments(false, m.allowances, charges, trail, p, g);
    PastAdjustments(true, m.charges, terms, trail, p, g);
    PlainIsFree(Terms(m, repr).kids, g);
    PassWhen(c, Terms(m, repr), last, trail, p, M(g));
  }

  lemma {:induction false} ReachSummation(m: Metadata, repr: Float -> string, trail: seq<Tag>, steps: seq<Tag>)
    requires M(SpecifiedTradeSettlementHeaderMonetarySummation) !in trail + steps
    ensures Select(Render(m, repr).kids, trail, Down([M(SpecifiedTradeSettlementHeaderMonetarySummation)] + steps))
         == Found(Summation(m), [M(SpecifiedTradeSettlementHeaderMonetarySummation)] + steps)
  {
    hide Select, Render, PaymentMeans, Balances, Summation, Found;
    var g := SpecifiedTradeSettlementHeaderMonetarySummation;
    var p := Down([M(g)] + steps);
    var here := trail + [P(SupplyChainTradeTransaction), M(ApplicableHeaderTradeSettlement)];
    InsideSettlement(m, repr, trail, p, g);
    PassOver(Settled(m, repr).head, Settled(m, repr).tail, here, p, M(g));
    PlainIsFree(PaymentMeans(m).kids, g);
    PassWhen(Given(m.seller.iban) || Given(m.paymentMeans), PaymentMeans(m), Balances(m, repr), here, p, M(g));
    ToSummation(m, repr, here, p);
    PlainIsFree(Summation(m).kids, g);
    Arrive(Summation(m), Nil, here, p.steps);
    SelectNone(Nil, here, p, M(g));
  }

  lemma {:induction false} ReachMeans(m: Metadata, repr: Float -> string, trail: seq<Tag>, steps: seq<Tag>)
    requires M(SpecifiedTradeSettlementPaymentMeans) !in trail + steps
    ensures Select(Render(m, repr).kids, trail, Down([M(SpecifiedTradeSettlementPaymentMeans)] + steps))
         == if Given(m.seller.iban) || Given(m.paymentMeans)
            then Found(PaymentMeans(m), [M(SpecifiedTradeSettlementPaymentMeans)] + steps) else []
  {
    hide Select, Render, PaymentMeans, Balances, Found;
    var g := SpecifiedTradeSettlementPaymentMeans;
    var p := Down([M(g)] + steps);
    var here := trail + [P(SupplyChainTradeTransaction), M(ApplicableHeaderTradeSettlement)];
    InsideSettlement(m, repr, trail, p, g);
    PassOver(Settled(m, repr).head, Settled(m, repr).tail, here, p, M(g));
    BalancesFree(m, repr, g);
    SelectNone(Balances(m, repr), here, p, M(g));
    PlainIsFree(PaymentMeans(m).kids, g);
    Arrive(PaymentMeans(m), Balances(m, repr), here, p.steps);
  }

  lemma {:induction false} ReachDocument(m: Metadata, repr: Float -> string, trail: seq<Tag>, steps: seq<Tag>)
    requires M(ExchangedDocument) !in trail + steps
    ensures Select(Render(m, repr).kids, trail, Down([M(ExchangedDocument)] + steps))
         == Found(Document(m), [M(ExchangedDocument)] + steps)
  {
    hide Select, Context, Document, Transaction, Found;
    var p := Down([M(ExchangedDocument)] + steps);
    PlainIsFree(Context(m.profile).kids, ExchangedDocument);
    PlainIsFree(Document(m).kids, ExchangedDocument);
    TransactionFree(m, repr);
    var last := Cons(Transaction(m, repr), Nil);
    PassOver(Context(m.profile), Cons(Document(m), last), trail, p, M(ExchangedDocument));
    Arrive(Document(m), last, trail, p.steps);
    SelectNone(last, trail, p, M(ExchangedDocument));
  }

  lemma {:induction false} TransactionFree(m: Metadata, repr: Float -> string)
    ensures Free(Cons(Transaction(m, repr), Nil), M(ExchangedDocument))
  {
    hide Agreement, Delivery, Settlement;
    AgreementFree(m, ExchangedDocument);
    AgreementTag(m);
    PlainIsFree(Delivery(m).kids, ExchangedDocument);
    SettlementFree(m, repr, ExchangedDocument);
    SettlementTag(m, repr);
    LinesFree(m.lines, repr, Headers(m, repr), ExchangedDocument);
  }

  lemma {:induction false} LinesFree(ls: seq<Line>, repr: Float -> string, rest: Forest, g: Mark)
    requires Free(rest, M(g)) && g != IncludedSupplyChainTradeLineItem
    ensures Free(LineNodes(ls, repr, rest), M(g))
  {
    hide LineNode;
    if ls != [] {
      PlainIsFree(LineNode(ls[0], repr).kids, g);
      LinesFree(ls[1..], repr, rest, g);
    }
  }

  // ---- The lines ----

  /** What a search that starts at the lines yields, line by line. */
  function FoundLines(ls: seq<Line>, repr: Float -> string, steps: seq<Tag>): (r: seq<Node>)
    requires steps != []
  {
    if ls == [] then [] else Found(LineNode(ls[0], repr), steps) + FoundLines(ls[1..], repr, steps)
  }

  lemma {:induction false} AlongLines(ls: seq<Line>, repr: Float -> string, rest: Forest, trail: seq<Tag>, steps: seq<Tag>)
    requires steps != [] && steps[0] == M(IncludedSupplyChainTradeLineItem)
    requires steps[0] !in trail && steps[0] !in steps[1..] && Free(rest, steps[0])
    ensures Select(LineNodes(ls, repr, rest), trail, Down(steps)) == FoundLines(ls, repr, steps)
  {
    hide LineNode, Select, Found;
    if ls == [] {
      SelectNone(rest, trail, Down(steps), steps[0]);
    } else {
      PlainIsFree(LineNode(ls[0], repr).kids, IncludedSupplyChainTradeLineItem);
      Arrive(LineNode(ls[0], repr), LineNodes(ls[1..], repr, rest), trail, steps);
      AlongLines(ls[1..], repr, rest, trail, steps);
    }
  }

  /** Every line is found, in order, and nothing else is taken for one. */
  lemma {:induction false} ReachLines(m: Metadata, repr: Float -> string, trail: seq<Tag>, steps: seq<Tag>)
    requires M(IncludedSupplyChainTradeLineItem) !in trail + steps
    ensures Select(Render(m, repr).kids, trail, Down([M(IncludedSupplyChainTradeLineItem)] + steps))
         == FoundLines(m.lines, repr, [M(IncludedSupplyChainTradeLineItem)] + steps)
  {
    hide Select, Render, Agreement, Delivery, Settlement, Found;
    var g := IncludedSupplyChainTradeLineItem;
    var p := Down([M(g)] + steps);
    IntoTransaction(m, repr, trail, p, g);
    AgreementFree(m, g);
    AgreementTag(m);
    PlainIsFree(Delivery(m).kids, g);
    SettlementFree(m, repr, g);
    SettlementTag(m, repr);
    AlongLines(m.lines, repr, Headers(m, repr), trail + [P(SupplyChainTradeTransaction)], p.steps);
  }
}
