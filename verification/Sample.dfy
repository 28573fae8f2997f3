/** A small invoice, for the results that need a particular one. */
module Sample {
  import opened Wrappers
  import opened Decimal
  import opened Invoice

  const SELLER := Seller("Vendeur SARL", None, None, Some("FR32123456789"), Some("12345678900012"), None, None, None, None,
                         None, None, None, None, None)

  const BUYER := Buyer("Acheteur SA", None, None, None, None, None, None, None, None)

  const AMOUNTS := Amounts("", "0.00", "0.00", "0.00", None, None, None, None)

  /** A line of one unit at the given price. */
  function LineOf(price: Float): (l: Line) {
    Line("1", "Article", ONE, "C62", price, price, ZERO, "S",
         None, None, None, None, None, None, None, None, None, None)
  }

  /** An invoice without a net total of its own. */
  const INVOICE := Metadata(
    "F-1", "20250131", SELLER, BUYER, [], [], AMOUNTS, "EUR", En16931, None, None, "380", [], None, None, None,
    None, None, [], [], None, None)
}
