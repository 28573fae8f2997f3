/** Cross Industry Invoice trees and the path searches that read them.

    A search `//a/b/c` (or `.//a/b/c`) selects, in document order, every node whose
    trail of tags from the context ends in a, b, c; `//u//a/b` further asks for a `u`
    above the `a` (sections 2.4 and 2.5 of XPath 1.0). */
module Xml {
  import opened Wrappers

  /** The elements that searches over a whole invoice start from... */
  datatype Mark =
    | ExchangedDocument | IncludedSupplyChainTradeLineItem | SellerTradeParty | BuyerTradeParty
    | ApplicableHeaderTradeSettlement | InvoiceCurrencyCode | SpecifiedTradeSettlementPaymentMeans
    | SpecifiedTradeSettlementHeaderMonetarySummation

  /** ...those that searches inside a line or a party start from... */
  datatype Spot =
    | SpecifiedTradeProduct | SpecifiedLineTradeAgreement | SpecifiedLineTradeSettlement | BilledQuantity
    | SpecifiedTaxRegistration

  /** ...and the other elements of the template, with the two that only the searches for
      the older ZUGFeRD layout mention at the end. */
  datatype Part =
    | CrossIndustryInvoice | ExchangedDocumentContext | GuidelineSpecifiedDocumentContextParameter | ID
    | TypeCode | IssueDateTime | DateTimeString | IncludedNote | SubjectCode | Content
    | SupplyChainTradeTransaction | AssociatedDocumentLineDocument | LineID | GlobalID
    | SellerAssignedID | BuyerAssignedID | Name | Description | OriginTradeCountry
    | GrossPriceProductTradePrice | ChargeAmount | AppliedTradeAllowanceCharge
    | ChargeIndicator | Indicator | ActualAmount | NetPriceProductTradePrice | SpecifiedLineTradeDelivery
    | ApplicableTradeTax | CategoryCode
    | RateApplicablePercent | BillingSpecifiedPeriod | StartDateTime | EndDateTime
    | SpecifiedTradeSettlementLineMonetarySummation | LineTotalAmount | ApplicableHeaderTradeAgreement
    | BuyerReference | SpecifiedLegalOrganization | DefinedTradeContact | PersonName
    | TelephoneUniversalCommunication | CompleteNumber | EmailURIUniversalCommunication | URIID
    | PostalTradeAddress | PostcodeCode | LineOne | LineTwo | CityName | CountryID
    | ContractReferencedDocument | IssuerAssignedID | ApplicableHeaderTradeDelivery | ShipToTradeParty
    | ActualDeliverySupplyChainEvent | OccurrenceDateTime | CreditorReferenceID
    | PayeePartyCreditorFinancialAccount | IBANID | AccountName | PayeeSpecifiedCreditorFinancialInstitution
    | BICID | CalculatedAmount | BasisAmount | SpecifiedTradeAllowanceCharge | Reason | ReasonCode
    | CategoryTradeTax | SpecifiedTradePaymentTerms | DueDateDateTime | ApplicableTradePaymentDiscountTerms
    | BasisPeriodMeasure | CalculationPercent | ChargeTotalAmount | AllowanceTotalAmount | TaxBasisTotalAmount
    | TaxTotalAmount | GrandTotalAmount | TotalPrepaidAmount | DuePayableAmount | HeaderExchangedDocument
    | SpecifiedTradeSettlementMonetarySummation

  /** A qualified element name. */
  datatype Tag = M(mark: Mark) | S(spot: Spot) | P(part: Part)

  datatype AttrName = SchemeID | UnitCode | Format | CurrencyID

  /** An element, its text before the first child, and its children in order. */
  datatype Node = Node(tag: Tag, attrs: map<AttrName, string>, text: string, kids: Forest)
  datatype Forest = Nil | Cons(head: Node, tail: Forest)

  /** `//steps` when `under` is None, `//under//steps` otherwise. */
  datatype Path = Path(under: Option<Tag>, steps: seq<Tag>)

  function Down(steps: seq<Tag>): (p: Path) { Path(None, steps) }

  predicate Matches(trail: seq<Tag>, p: Path) {
    && |p.steps| <= |trail|
    && trail[|trail| - |p.steps|..] == p.steps
    && (p.under.Some? ==> p.under.value in trail[..|trail| - |p.steps|])
  }

  /** The nodes of a forest that `p` selects, in document order; `trail` is the list of
      tags between the context node and the forest. */
  function Select(ns: Forest, trail: seq<Tag>, p: Path): (r: seq<Node>) {
    match ns
    case Nil => []
    case Cons(n, rest) =>
      var here := trail + [n.tag];
      (if Matches(here, p) then [n] else []) + Select(n.kids, here, p) + Select(rest, trail, p)
  }

  // ---- Where a tag does not occur ----

  predicate Free(ns: Forest, g: Tag) {
    ns.Cons? ==> ns.head.tag != g && Free(ns.head.kids, g) && Free(ns.tail, g)
  }

  /** A tag that may stand at the top of the forest but not below. */
  predicate Shallow(ns: Forest, g: Tag) {
    ns.Cons? ==> Free(ns.head.kids, g) && Shallow(ns.tail, g)
  }

  /** The children with a given tag, in order: one step of a child path. */
  function Kids(ns: Forest, g: Tag): (r: seq<Node>) {
    match ns
    case Nil => []
    case Cons(n, rest) => (if n.tag == g then [n] else []) + Kids(rest, g)
  }

  /** A path of child steps from a forest: `s1/s2/...`. */
  function Steps(ns: Forest, steps: seq<Tag>): (r: seq<Node>)
    requires steps != []
    decreases |steps|, 1
  {
    if |steps| == 1 then Kids(ns, steps[0]) else StepsInto(Kids(ns, steps[0]), steps[1..])
  }

  function StepsInto(ns: seq<Node>, steps: seq<Tag>): (r: seq<Node>)
    requires steps != []
    decreases |steps|, 2, ns
  {
    if ns == [] then [] else Steps(ns[0].kids, steps) + StepsInto(ns[1..], steps)
  }

  lemma {:induction false} TwoSteps(ns: Forest, a: Tag, b: Tag)
    ensures Kids(ns, a) == [] ==> Steps(ns, [a, b]) == []
    ensures forall n :: Kids(ns, a) == [n] ==> Steps(ns, [a, b]) == Kids(n.kids, b)
  {
    assert [a, b][1..] == [b];
    forall n | Kids(ns, a) == [n] ensures Steps(ns, [a, b]) == Kids(n.kids, b) {
      assert StepsInto([n], [b]) == Kids(n.kids, b) + StepsInto([n][1..], [b]);
    }
  }

  lemma {:induction false} ThreeSteps(ns: Forest, a: Tag, n: Node, b: Tag, k: Node, c: Tag)
    requires Kids(ns, a) == [n] && Kids(n.kids, b) == [k]
    ensures Steps(ns, [a, b, c]) == Kids(k.kids, c)
  {
    assert [a, b, c][1..] == [b, c];
    TwoSteps(n.kids, b, c);
    assert StepsInto([n], [b, c]) == Kids(k.kids, c) + StepsInto([n][1..], [b, c]);
  }

  /** No mark occurs in the forest. */
  predicate Plain(ns: Forest) {
    ns.Cons? ==> !ns.head.tag.M? && Plain(ns.head.kids) && Plain(ns.tail)
  }

  /** Neither a mark nor a spot occurs in the forest. */
  predicate Bare(ns: Forest) {
    ns.Cons? ==> ns.head.tag.P? && Bare(ns.head.kids) && Bare(ns.tail)
  }

  lemma {:induction false} PlainIsFree(ns: Forest, g: Mark)
    requires Plain(ns)
    ensures Free(ns, M(g))
  {
    if ns.Cons? {
      PlainIsFree(ns.head.kids, g);
      PlainIsFree(ns.tail, g);
    }
  }

  lemma {:induction false} BareIsFree(ns: Forest, g: Spot)
    requires Bare(ns)
    ensures Free(ns, S(g))
  {
    if ns.Cons? {
      BareIsFree(ns.head.kids, g);
      BareIsFree(ns.tail, g);
    }
  }

  // ---- Builders: each puts one node, or none, in front of the rest ----

  function Leaf(part: Part, text: string): (n: Node) { Node(P(part), map[], text, Nil) }

  function LeafWith(part: Part, name: AttrName, value: string, text: string): (n: Node) {
    Node(P(part), map[name := value], text, Nil)
  }

  function Group(part: Part, kids: Forest): (n: Node) { Node(P(part), map[], "", kids) }

  function Section(tag: Tag, kids: Forest): (n: Node) { Node(tag, map[], "", kids) }

  function When(c: bool, n: Node, rest: Forest): (r: Forest)
    ensures Plain(r) <==> (c ==> !n.tag.M? && Plain(n.kids)) && Plain(rest)
    ensures Bare(r) <==> (c ==> n.tag.P? && Bare(n.kids)) && Bare(rest)
    ensures forall g :: Free(r, g) <==> (c ==> n.tag != g && Free(n.kids, g)) && Free(rest, g)
    ensures forall g :: Shallow(r, g) <==> (c ==> Free(n.kids, g)) && Shallow(rest, g)
    ensures forall g :: Kids(r, g) == (if c && n.tag == g then [n] else []) + Kids(rest, g)
  {
    if c then Cons(n, rest) else rest
  }

  function One(n: Node, rest: Forest): (r: Forest)
    ensures Plain(r) <==> !n.tag.M? && Plain(n.kids) && Plain(rest)
    ensures Bare(r) <==> n.tag.P? && Bare(n.kids) && Bare(rest)
    ensures forall g :: Free(r, g) <==> n.tag != g && Free(n.kids, g) && Free(rest, g)
    ensures forall g :: Shallow(r, g) <==> Free(n.kids, g) && Shallow(rest, g)
    ensures forall g :: Kids(r, g) == (if n.tag == g then [n] else []) + Kids(rest, g)
  {
    Cons(n, rest)
  }

  // ---- Laws of the search ----

  predicate Needs(p: Path, g: Tag) { g in p.steps || p.under == Some(g) }

  /** A search finds nothing where one of its tags cannot be met. */
  lemma {:induction false} SelectNone(ns: Forest, trail: seq<Tag>, p: Path, g: Tag)
    requires Needs(p, g) && g !in trail && Free(ns, g)
    ensures Select(ns, trail, p) == []
  {
    if ns.Cons? {
      var here := trail + [ns.head.tag];
      assert g !in here;
      assert !Matches(here, p);
      SelectNone(ns.head.kids, here, p, g);
      SelectNone(ns.tail, trail, p, g);
    }
  }

  lemma {:induction false} StepsCons(n: Node, rest: Forest, todo: seq<Tag>)
    requires todo != []
    ensures Steps(Cons(n, rest), todo)
         == (if n.tag != todo[0] then [] else if |todo| == 1 then [n] else Steps(n.kids, todo[1..])) + Steps(rest, todo)
  {
    if n.tag == todo[0] {
      var ks := Kids(rest, todo[0]);
      assert Kids(Cons(n, rest), todo[0]) == [n] + ks && ([n] + ks)[1..] == ks;
    } else {
      assert Kids(Cons(n, rest), todo[0]) == Kids(rest, todo[0]);
    }
  }

  /** Once the first tag of `//s1/.../sk` is on the trail and cannot recur below, the
      search is the plain child path that remains. */
  lemma {:induction false} SelectSteps(ns: Forest, above: seq<Tag>, done: seq<Tag>, todo: seq<Tag>)
    requires done != [] && done[0] !in above && done[0] !in done[1..] && Free(ns, done[0])
    requires todo != [] && done[0] !in todo
    ensures Select(ns, above + done, Path(None, done + todo)) == Steps(ns, todo)
    decreases ns, 0
  {
    if ns.Nil? {
      StepsNil(todo);
    } else {
      StepsCons(ns.head, ns.tail, todo);
      hide Steps, Matches;
      SelectSteps(ns.tail, above, done, todo);
      SelectHead(ns.head, above, done, todo);
    }
  }

  /** The same at one node. */
  lemma {:induction false} SelectHead(n: Node, above: seq<Tag>, done: seq<Tag>, todo: seq<Tag>)
    requires done != [] && done[0] !in above && done[0] !in done[1..] && n.tag != done[0] && Free(n.kids, done[0])
    requires todo != [] && done[0] !in todo
    ensures var p, here := Path(None, done + todo), above + done + [n.tag];
            (if Matches(here, p) then [n] else []) + Select(n.kids, here, p)
            == if n.tag != todo[0] then [] else if |todo| == 1 then [n] else Steps(n.kids, todo[1..])
    decreases n, 1
  {
    hide Select, Steps, Free;
    var p, next, here := Path(None, done + todo), done + [n.tag], above + done + [n.tag];
    assert above + next == here;
    OnTrail(above, next, p.steps);
    if n.tag == todo[0] {
      assert done + todo == next + todo[1..];
      if |todo| == 1 {
        assert here[|here| - |p.steps|..] == p.steps;
        TooDeep(n.kids, above, next, p.steps);
      } else {
        SelectSteps(n.kids, above, next, todo[1..]);
      }
    } else {
      assert next[|done|] != p.steps[|done|];
      TooDeep(n.kids, above, next, p.steps);
    }
  }

  lemma {:induction false} StepsNil(todo: seq<Tag>)
    requires todo != []
    ensures Steps(Nil, todo) == []
  {
  }

  /** A trail that has left the path, or is as long as it, matches nowhere below. */
  lemma {:induction false} TooDeep(ns: Forest, above: seq<Tag>, done: seq<Tag>, steps: seq<Tag>)
    requires done != [] && steps != [] && steps[0] == done[0]
    requires done[0] !in above && done[0] !in done[1..] && Free(ns, done[0])
    requires |done| >= |steps| || done != steps[..|done|]
    ensures Select(ns, above + done, Path(None, steps)) == []
    decreases ns
  {
    if ns.Cons? {
      var next := done + [ns.head.tag];
      assert above + next == above + done + [ns.head.tag];
      OnTrail(above, next, steps);
      TooDeep(ns.head.kids, above, next, steps);
      TooDeep(ns.tail, above, done, steps);
    }
  }

  /** A trail that starts its only `steps[0]` at `done` can match only by being `steps`. */
  lemma {:induction false} OnTrail(above: seq<Tag>, done: seq<Tag>, steps: seq<Tag>)
    requires done != [] && steps != [] && steps[0] == done[0]
    requires done[0] !in above && done[0] !in done[1..]
    ensures Matches(above + done, Path(None, steps)) ==> done == steps
  {
    var trail := above + done;
    if Matches(trail, Path(None, steps)) {
      var k := |trail| - |steps|;
      assert trail[k..][0] == trail[k] == done[0];
      assert k == |above|;
      assert trail[k..] == done;
    }
  }

  lemma {:induction false} LastTag(trail: seq<Tag>, p: Path)
    requires p.steps != []
    ensures Matches(trail, p) ==> trail[|trail| - 1] == p.steps[|p.steps| - 1]
  {
    if Matches(trail, p) {
      assert trail[|trail| - |p.steps|..][|p.steps| - 1] == trail[|trail| - 1];
    }
  }

  // ---- Following a search down to its first tag ----

  /** A node without the needed tag is passed over... */
  lemma {:induction false} PassOver(n: Node, rest: Forest, trail: seq<Tag>, p: Path, g: Tag)
    requires Needs(p, g) && g !in trail && n.tag != g && Free(n.kids, g)
    ensures Select(Cons(n, rest), trail, p) == Select(rest, trail, p)
  {
    var here := trail + [n.tag];
    assert g !in here;
    assert !Matches(here, p);
    SelectNone(n.kids, here, p, g);
  }

  lemma {:induction false} PassWhen(c: bool, n: Node, rest: Forest, trail: seq<Tag>, p: Path, g: Tag)
    requires Needs(p, g) && g !in trail && n.tag != g && Free(n.kids, g)
    ensures Select(When(c, n, rest), trail, p) == Select(rest, trail, p)
  {
    PassOver(n, rest, trail, p, g);
  }

  /** ...and one that has it further down is passed through. */
  lemma {:induction false} PassThrough(n: Node, rest: Forest, trail: seq<Tag>, p: Path, g: Tag)
    requires Needs(p, g) && g !in trail && n.tag != g && Free(rest, g)
    ensures Select(Cons(n, rest), trail, p) == Select(n.kids, trail + [n.tag], p)
  {
    var here := trail + [n.tag];
    assert g !in here;
    assert !Matches(here, p);
    SelectNone(rest, trail, p, g);
  }

  /** What a search yields at a node that has its first tag: the node, or a child path. */
  function Found(n: Node, steps: seq<Tag>): (r: seq<Node>)
    requires steps != []
  {
    if |steps| == 1 then [n] else Steps(n.kids, steps[1..])
  }

  lemma {:induction false} Arrive(n: Node, rest: Forest, trail: seq<Tag>, steps: seq<Tag>)
    requires steps != [] && n.tag == steps[0] && steps[0] !in trail && steps[0] !in steps[1..]
    requires Free(n.kids, steps[0])
    ensures Select(Cons(n, rest), trail, Path(None, steps)) == Found(n, steps) + Select(rest, trail, Path(None, steps))
  {
    var here := trail + [n.tag];
    OnTrail(trail, [n.tag], steps);
    if |steps| == 1 {
      assert here[|here| - 1..] == steps;
      assert steps == [n.tag];
      TooDeep(n.kids, trail, steps, steps);
    } else {
      assert [n.tag] + steps[1..] == steps;
      SelectSteps(n.kids, trail, [n.tag], steps[1..]);
    }
  }

  /** A search whose first tag stands only at the top of the forest is a child path. */
  lemma {:induction false} SelectShallow(ns: Forest, trail: seq<Tag>, steps: seq<Tag>)
    requires steps != [] && steps[0] !in trail && steps[0] !in steps[1..] && Shallow(ns, steps[0])
    ensures Select(ns, trail, Path(None, steps)) == Steps(ns, steps)
    decreases ns
  {
    if ns.Cons? {
      SelectShallow(ns.tail, trail, steps);
      if ns.head.tag == steps[0] {
        Arrive(ns.head, ns.tail, trail, steps);
      } else {
        PassOver(ns.head, ns.tail, trail, Path(None, steps), steps[0]);
        assert Kids(ns, steps[0]) == Kids(ns.tail, steps[0]);
      }
    }
  }

  /** Below `u`, the search `//u//steps` is the search `//steps`. */
  lemma {:induction false} BelowUnder(ns: Forest, above: seq<Tag>, below: seq<Tag>, u: Tag, steps: seq<Tag>)
    requires u in above && steps != [] && steps[0] !in above
    ensures Select(ns, above + below, Path(Some(u), steps)) == Select(ns, above + below, Path(None, steps))
    decreases ns
  {
    if ns.Cons? {
      var next := below + [ns.head.tag];
      var here := above + below + [ns.head.tag];
      assert above + next == here;
      if Matches(here, Path(None, steps)) {
        var k := |here| - |steps|;
        assert here[k..][0] == here[k];
        assert k >= |above|;
        assert forall i :: 0 <= i < |above| ==> here[..k][i] == above[i];
      }
      BelowUnder(ns.head.kids, above, next, u, steps);
      BelowUnder(ns.tail, above, below, u, steps);
    }
  }
}
