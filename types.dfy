/** The records shared by the backend and the frontend: a submitted product,
    a priced line item, the three invoice totals, and the logged-in user. */
module Types {

  datatype Option<+T> = None | Some(value: T)

  /** The fixed 18% GST rate; the controller and the products slice both
      write it as the literal 0.18. */
  const GstRate: real := 0.18

  /** A product as the client submits it: a name, a quantity and a unit rate.
      JavaScript numbers are modelled as exact reals, so "qty is an integer"
      is a property a validator checks, not a fact of the type. */
  datatype Product = Product(name: string, qty: real, rate: real)

  /** A line item after pricing: the submitted fields plus the derived
      `total` and `gst`. */
  datatype PricedProduct = PricedProduct(name: string, qty: real, rate: real, total: real, gst: real)

  /** The three amounts an invoice carries. */
  datatype Totals = Totals(totalAmount: real, totalGST: real, grandTotal: real)

  /** The user record the frontend keeps after login. */
  datatype User = User(id: string, name: string, email: string)

  /** The submitted fields of a priced line item (the derived ones dropped). */
  function Payload(p: PricedProduct): Product
  {
    Product(p.name, p.qty, p.rate)
  }

  /** A line item whose derived fields agree with its quantity and rate. */
  predicate IsPriced(p: PricedProduct)
  {
    p.total == p.qty * p.rate && p.gst == p.total * GstRate
  }

  predicate AllPriced(ps: seq<PricedProduct>)
  {
    forall i :: 0 <= i < |ps| ==> IsPriced(ps[i])
  }

  /** The bounds the pricer's callers guarantee: at least one unit, and a
      rate that is not negative. */
  predicate InPricingRange(p: Product)
  {
    p.qty >= 1.0 && p.rate >= 0.0
  }
}
