/** The validator's own table of patterns and messages. */
module ErrorMap {
  import opened Strings
  import opened Humanize

  datatype Hint =
    | Date | Context | Number | Name | Postcode | Line | Country | Currency | Kind | Transaction | Items | Totals

  function Pattern(h: Hint): (s: string) {
    match h
    case Date => "udt:DateTimeString"
    case Context => "SpecifiedExchangedDocumentContext"
    case Number => "ram:ID' is unexpected"
    case Name =>
      "Expected is ( {urn:" + "un:unece:uncefact:data:standard:ReusableAggregateBusinessInformationEntity:100}" + "Name )"
    case Postcode => "PostcodeCode"
    case Line => "LineOne"
    case Country => "CountryID"
    case Currency => "currencyID"
    case Kind => "TypeCode"
    case Transaction => "SupplyChainTradeTransaction"
    case Items => "IncludedSupplyChainTradeLineItem"
    case Totals => "SpecifiedTradeSettlement" + "HeaderMonetarySummation"
  }

  function Message(h: Hint): (s: string) {
    match h
    case Date => "Le format de la date " + "est invalide (Format " + "attendu: YYYYMMDD)."
    case Context => "La structure du " + "document est mal form\U{E9}e " + "(Contexte manquant)."
    case Number => "Le num\U{E9}ro de facture " + "(ID) est mal positionn\U{E9} " + "ou dupliqu\U{E9}."
    case Name => "Le nom de l'entreprise " + "(Seller Name) est " + "obligatoire."
    case Postcode => "Le code postal est " + "manquant dans l'adresse."
    case Line => "La premi\U{E8}re ligne de " + "l'adresse est " + "obligatoire."
    case Country => "Le code pays (ex: FR) " + "est manquant."
    case Currency => "Le code devise (ex: " + "EUR) est invalide ou " + "absent."
    case Kind => "Le type de document " + "(TypeCode 380) est " + "manquant."
    case Transaction => "La section Transaction " + "(calculs) est manquante " + "ou mal plac\U{E9}e."
    case Items => "Les lignes de facture " + "(articles) sont " + "obligatoires pour ce " + "profil."
    case Totals => "La section Totaux est " + "mal form\U{E9}e ou " + "incompl\U{E8}te."
  }

  const ORDER := [Date, Context, Number, Name, Postcode, Line, Country, Currency, Kind, Transaction, Items, Totals]

  function TableOf(hints: seq<Hint>): (r: Table)
    ensures |r| == |hints| && forall i :: 0 <= i < |r| ==> r[i] == (Pattern(hints[i]), Message(hints[i]))
  {
    seq(|hints|, i requires 0 <= i < |hints| => (Pattern(hints[i]), Message(hints[i])))
  }

  const ERROR_MAP := TableOf(ORDER)

  lemma {:induction false} EntryAt(k: nat, h: Hint)
    requires k < |ORDER| && ORDER[k] == h
    ensures |ERROR_MAP| == 12 && ERROR_MAP[k] == (Pattern(h), Message(h))
  {
    hide Pattern, Message;
  }

  /** The twelve entries, in the order in which they are tried: the first three... */
  lemma {:induction false} FirstEntries()
    ensures |ERROR_MAP| == 12
    ensures ERROR_MAP[0] == (
      "udt:DateTimeString",
      "Le format de la date " + "est invalide (Format " + "attendu: YYYYMMDD).")
    ensures ERROR_MAP[1] == (
      "SpecifiedExchangedDocumentContext",
      "La structure du " + "document est mal form\U{E9}e " + "(Contexte manquant).")
    ensures ERROR_MAP[2] == (
      "ram:ID' is unexpected",
      "Le num\U{E9}ro de facture " + "(ID) est mal positionn\U{E9} " + "ou dupliqu\U{E9}.")
  {
    hide ERROR_MAP, TableOf;
    EntryAt(0, Date);
    EntryAt(1, Context);
    EntryAt(2, Number);
  }

  /** ...the fourth... */
  lemma {:induction false} NameEntry()
    ensures |ERROR_MAP| == 12
    ensures ERROR_MAP[3] == (
      "Expected is ( {urn:" + "un:unece:uncefact:data:standard:ReusableAggregateBusinessInformationEntity:100}" + "Name )",
      "Le nom de l'entreprise " + "(Seller Name) est " + "obligatoire.")
  {
    hide ERROR_MAP, TableOf;
    EntryAt(3, Name);
  }

  /** ...the next four... */
  lemma {:induction false} MiddleEntries()
    ensures |ERROR_MAP| == 12
    ensures ERROR_MAP[4] == ("PostcodeCode", "Le code postal est " + "manquant dans l'adresse.")
    ensures ERROR_MAP[5] == ("LineOne", "La premi\U{E8}re ligne de " + "l'adresse est " + "obligatoire.")
    ensures ERROR_MAP[6] == ("CountryID", "Le code pays (ex: FR) " + "est manquant.")
    ensures ERROR_MAP[7] == ("currencyID", "Le code devise (ex: " + "EUR) est invalide ou " + "absent.")
  {
    hide ERROR_MAP, TableOf;
    EntryAt(4, Postcode);
    EntryAt(5, Line);
    EntryAt(6, Country);
    EntryAt(7, Currency);
  }

  /** ...and the last four. */
  lemma {:induction false} LastEntries()
    ensures |ERROR_MAP| == 12
    ensures ERROR_MAP[8] == ("TypeCode", "Le type de document " + "(TypeCode 380) est " + "manquant.")
    ensures ERROR_MAP[9] == (
      "SupplyChainTradeTransaction",
      "La section Transaction " + "(calculs) est manquante " + "ou mal plac\U{E9}e.")
    ensures ERROR_MAP[10] == (
      "IncludedSupplyChainTradeLineItem",
      "Les lignes de facture " + "(articles) sont " + "obligatoires pour ce " + "profil.")
    ensures ERROR_MAP[11] == (
      "SpecifiedTradeSettlement" + "HeaderMonetarySummation",
      "La section Totaux est " + "mal form\U{E9}e ou " + "incompl\U{E8}te.")
  {
    hide ERROR_MAP, TableOf;
    EntryAt(8, Kind);
    EntryAt(9, Transaction);
    EntryAt(10, Items);
    EntryAt(11, Totals);
  }

  /** So a message about a date that the schema rejects becomes the sentence about dates. */
  lemma {:induction false} DateGuidance(before: string, after: string)
    ensures Guidance(ERROR_MAP, before + "udt:DateTimeString" + after)
         == "Le format de la date " + "est invalide (Format " + "attendu: YYYYMMDD)."
  {
    var err := before + "udt:DateTimeString" + after;
    FirstEntries();
    assert err[|before|..] == "udt:DateTimeString" + after;
    ContainsIs(err, "udt:DateTimeString");
    hide *;
    GuidanceIs(ERROR_MAP, err, 0);
  }

  // ---- No message contains the pattern of another ----

  /** Characters that the message does not have; every other pattern has one of them. */
  function Spare(h: Hint): (s: string) {
    match h
    case Date => "COc"
    case Context => "Piy"
    case Number => ":COy"
    case Name => "COu"
    case Postcode => "iy"
    case Line => "Cu"
    case Country => "CDi"
    case Currency => "COm"
    case Kind => "DPi"
    case Transaction => "DOd"
    case Items => ":COy"
    case Totals => "DOd"
  }

  /** Characters that the pattern has; they meet those of every other hint's message. */
  function Letters(g: Hint): (s: string) {
    match g
    case Date => ":Dimu"
    case Context => "CDi"
    case Number => ":Dcimu"
    case Name => ":cdimu"
    case Postcode => "CPd"
    case Line => "Oi"
    case Country => "CDy"
    case Currency => "Dcuy"
    case Kind => "Cdy"
    case Transaction => "Cdi"
    case Items => "Cdi"
    case Totals => "cdimuy"
  }

  predicate Lacks(s: string, chars: string) { forall i :: 0 <= i < |s| ==> s[i] !in chars }

  predicate Has(s: string, chars: string) { forall i :: 0 <= i < |chars| ==> chars[i] in s }

  predicate Apart(h: Hint) { Lacks(Message(h), Spare(h)) && Has(Pattern(h), Letters(h)) }

  lemma {:induction false} LacksJoin(s: string, t: string, chars: string)
    requires Lacks(s, chars) && Lacks(t, chars)
    ensures Lacks(s + t, chars)
  {
  }

  lemma {:induction false} DateApart()
    ensures Apart(Date)
  {
    LacksJoin("Le format de la date ", "est invalide (Format ", "COc");
    LacksJoin("Le format de la date " + "est invalide (Format ", "attendu: YYYYMMDD).", "COc");
  }

  lemma {:induction false} ContextApart()
    ensures Apart(Context)
  {
    LacksJoin("La structure du ", "document est mal form\U{E9}e ", "Piy");
    LacksJoin("La structure du " + "document est mal form\U{E9}e ", "(Contexte manquant).", "Piy");
  }

  lemma {:induction false} NumberApart()
    ensures Apart(Number)
  {
    LacksJoin("Le num\U{E9}ro de facture ", "(ID) est mal positionn\U{E9} ", ":COy");
    LacksJoin("Le num\U{E9}ro de facture " + "(ID) est mal positionn\U{E9} ", "ou dupliqu\U{E9}.", ":COy");
  }

  lemma {:induction false} NameApart()
    ensures Apart(Name)
  {
    LacksJoin("Le nom de l'entreprise ", "(Seller Name) est ", "COu");
    LacksJoin("Le nom de l'entreprise " + "(Seller Name) est ", "obligatoire.", "COu");
  }

  lemma {:induction false} PostcodeApart()
    ensures Apart(Postcode)
  {
    LacksJoin("Le code postal est ", "manquant dans l'adresse.", "iy");
  }

  lemma {:induction false} LineApart()
    ensures Apart(Line)
  {
    LacksJoin("La premi\U{E8}re ligne de ", "l'adresse est ", "Cu");
    LacksJoin("La premi\U{E8}re ligne de " + "l'adresse est ", "obligatoire.", "Cu");
  }

  lemma {:induction false} CountryApart()
    ensures Apart(Country)
  {
    LacksJoin("Le code pays (ex: FR) ", "est manquant.", "CDi");
  }

  lemma {:induction false} CurrencyApart()
    ensures Apart(Currency)
  {
    LacksJoin("Le code devise (ex: ", "EUR) est invalide ou ", "COm");
    LacksJoin("Le code devise (ex: " + "EUR) est invalide ou ", "absent.", "COm");
  }

  lemma {:induction false} KindApart()
    ensures Apart(Kind)
  {
    LacksJoin("Le type de document ", "(TypeCode 380) est ", "DPi");
    LacksJoin("Le type de document " + "(TypeCode 380) est ", "manquant.", "DPi");
  }

  lemma {:induction false} TransactionApart()
    ensures Apart(Transaction)
  {
    LacksJoin("La section Transaction ", "(calculs) est manquante ", "DOd");
    LacksJoin("La section Transaction " + "(calculs) est manquante ", "ou mal plac\U{E9}e.", "DOd");
  }

  lemma {:induction false} ItemsApart()
    ensures Apart(Items)
  {
    LacksJoin("Les lignes de facture ", "(articles) sont ", ":COy");
    LacksJoin("Les lignes de facture " + "(articles) sont ", "obligatoires pour ce ", ":COy");
    LacksJoin("Les lignes de facture " + "(articles) sont " + "obligatoires pour ce ", "profil.", ":COy");
  }

  lemma {:induction false} TotalsApart()
    ensures Apart(Totals)
  {
    LacksJoin("La section Totaux est ", "mal form\U{E9}e ou ", "DOd");
    LacksJoin("La section Totaux est " + "mal form\U{E9}e ou ", "incompl\U{E8}te.", "DOd");
  }

  lemma {:induction false} EachApart(h: Hint)
    ensures Apart(h)
  {
    hide Apart;
    match h
    case Date => DateApart();
    case Context => ContextApart();
    case Number => NumberApart();
    case Name => NameApart();
    case Postcode => PostcodeApart();
    case Line => LineApart();
    case Country => CountryApart();
    case Currency => CurrencyApart();
    case Kind => KindApart();
    case Transaction => TransactionApart();
    case Items => ItemsApart();
    case Totals => TotalsApart();
  }

  /** A character of the pattern of `g` that the message of `h` does not have. */
  function Witness(h: Hint, g: Hint): (c: char) {
    match g
    case Date =>
      if h == Currency then 'm' else if h == Context || h == Postcode then 'i'
      else if h == Number || h == Items then ':' else if h == Name || h == Line then 'u' else 'D'
    case Context => if h == Postcode then 'i' else if h == Kind || h == Transaction || h == Totals then 'D' else 'C'
    case Number =>
      if h == Date then 'c' else if h == Currency then 'm' else if h == Items then ':'
      else if h == Context || h == Postcode then 'i' else if h == Name || h == Line then 'u' else 'D'
    case Name =>
      if h == Date then 'c' else if h == Line then 'u' else if h == Currency then 'm'
      else if h == Number || h == Items then ':' else if h == Transaction || h == Totals then 'd' else 'i'
    case Postcode => if h == Context || h == Kind then 'P' else if h == Transaction || h == Totals then 'd' else 'C'
    case Line => if h == Context || h == Postcode || h == Country || h == Kind then 'i' else 'O'
    case Country =>
      if h == Context || h == Postcode then 'y' else if h == Kind || h == Transaction || h == Totals then 'D'
      else 'C'
    case Currency =>
      if h == Date then 'c' else if h == Name || h == Line then 'u'
      else if h == Context || h == Number || h == Postcode || h == Items then 'y' else 'D'
    case Kind => if h == Context || h == Postcode then 'y' else if h == Transaction || h == Totals then 'd' else 'C'
    case Transaction => if h == Totals then 'd' else if h == Context || h == Postcode || h == Kind then 'i' else 'C'
    case Items =>
      if h == Transaction || h == Totals then 'd' else if h == Context || h == Postcode || h == Kind then 'i'
      else 'C'
    case Totals =>
      if h == Date then 'c' else if h == Currency then 'm' else if h == Transaction then 'd'
      else if h == Number || h == Items then 'y' else if h == Name || h == Line then 'u' else 'i'
  }

  lemma {:induction false} WitnessBoth(h: Hint, g: Hint)
    requires h != g
    ensures Witness(h, g) in Spare(h) && Witness(h, g) in Letters(g)
  {
  }

  lemma {:induction false} LacksCharacter(s: string, p: string, c: char)
    requires c in p && c !in s
    ensures !Contains(s, p)
  {
    PrefixCharacters(s, p, c);
    if s != [] {
      LacksCharacter(s[1..], p, c);
    }
  }

  lemma {:induction false} PrefixCharacters(s: string, p: string, c: char)
    requires c in p
    ensures p <= s ==> c in s
  {
    var k :| 0 <= k < |p| && p[k] == c;
    assert p <= s ==> s[k] == c;
  }

  /** No message contains the pattern of another. */
  lemma {:induction false} NoCrossTalk(h: Hint, g: Hint)
    ensures Contains(Message(h), Pattern(g)) ==> h == g
  {
    hide Message, Pattern, Spare, Letters, Witness, Contains;
    if h != g {
      EachApart(h);
      EachApart(g);
      WitnessBoth(h, g);
      var c := Witness(h, g);
      var k :| 0 <= k < |Letters(g)| && Letters(g)[k] == c;
      assert c in Pattern(g);
      LacksCharacter(Message(h), Pattern(g), c);
    }
  }

  lemma {:induction false} MessageKept(h: Hint, hints: seq<Hint>)
    ensures Guidance(TableOf(hints), Message(h)) == Message(h)
  {
    hide Message, Pattern, Contains;
    if hints != [] {
      NoCrossTalk(h, hints[0]);
      assert TableOf(hints)[1..] == TableOf(hints[1..]);
      MessageKept(h, hints[1..]);
    }
  }

  lemma {:induction false} NeverEmpty(h: Hint)
    ensures Message(h) != ""
  {
    assert Message(h)[0] == 'L';
  }

  lemma {:induction false} TableSettled(hints: seq<Hint>)
    ensures Settled(TableOf(hints))
  {
    hide Message, Pattern, Contains;
    var table := TableOf(hints);
    forall k | 0 <= k < |table| ensures table[k].1 != "" && Guidance(table, table[k].1) == table[k].1 {
      NeverEmpty(hints[k]);
      MessageKept(hints[k], hints);
    }
  }

  /** Humanizing with the validator's table twice is humanizing once. */
  lemma {:induction false} HumanizeTwice(errs: seq<string>)
    ensures Humanized(ERROR_MAP, Humanized(ERROR_MAP, errs)) == Humanized(ERROR_MAP, errs)
  {
    hide Message, Pattern, Contains;
    TableSettled(ORDER);
    Idempotent(TableOf(ORDER), errs);
  }
}
