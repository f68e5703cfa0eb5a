/** The pricing and aggregation step of the invoice controller: every
    submitted product gets `total = qty * rate` and `gst = total * 0.18`, and
    the invoice carries the sum of the totals, the sum of the line GST and
    their sum. PDF rendering and persistence around it are not modelled. */
module InvoiceController {
  import opened Types

  /** The record the controller builds for one product (`{...product, total, gst}`). */
  function Price(p: Product): (r: PricedProduct)
    ensures Payload(r) == p && IsPriced(r)
  {
    var total := p.qty * p.rate;
    PricedProduct(p.name, p.qty, p.rate, total, total * GstRate)
  }

  /** A line item is priced exactly when it is what the pricer makes of its own
      submitted fields; so pricing the payload of a priced item changes nothing. */
  lemma PricedIffPriceOfPayload(q: PricedProduct)
    ensures IsPriced(q) <==> q == Price(Payload(q))
  {
  }

  /** Within the callers' bounds a line is never negative, its total is at
      least its rate, and its GST is at most its total. */
  lemma PriceBounds(p: Product)
    requires InPricingRange(p)
    ensures 0.0 <= Price(p).gst <= Price(p).total
    ensures Price(p).total >= p.rate
  {
    var total := p.qty * p.rate;
    MulNonNegative(p.qty - 1.0, p.rate);
    assert total == p.rate + (p.qty - 1.0) * p.rate;
    assert total * GstRate <= total;
  }

  lemma MulNonNegative(a: real, b: real)
    requires a >= 0.0 && b >= 0.0
    ensures a * b >= 0.0
  {
  }

  /** The `products.map(...)` step: one priced line per product, in order. */
  function ProcessProducts(products: seq<Product>): (r: seq<PricedProduct>)
    ensures |r| == |products|
    ensures AllPriced(r)
    ensures forall i :: 0 <= i < |r| ==> Payload(r[i]) == products[i]
  {
    seq(|products|, i requires 0 <= i < |products| => Price(products[i]))
  }

  /** `reduce((sum, p) => sum + p.total, 0)`: a left-to-right sum from 0. */
  function SumTotals(ps: seq<PricedProduct>): real
  {
    if ps == [] then 0.0 else SumTotals(ps[..|ps| - 1]) + ps[|ps| - 1].total
  }

  /** `reduce((sum, p) => sum + p.gst, 0)`: a left-to-right sum from 0. */
  function SumGst(ps: seq<PricedProduct>): real
  {
    if ps == [] then 0.0 else SumGst(ps[..|ps| - 1]) + ps[|ps| - 1].gst
  }

  /** The sum of the totals splits over a concatenation. */
  lemma {:induction false} SumTotalsConcat(a: seq<PricedProduct>, b: seq<PricedProduct>)
    ensures SumTotals(a + b) == SumTotals(a) + SumTotals(b)
  {
    if b == [] {
      assert a + b == a;
    } else {
      assert (a + b)[..|a + b| - 1] == a + b[..|b| - 1];
      SumTotalsConcat(a, b[..|b| - 1]);
    }
  }

  /** The line GST adds up to the rate times the sum of the line totals: the
      per-line and the whole-invoice formula agree over exact arithmetic. */
  lemma {:induction false} SumGstIsRateTimesSumTotals(ps: seq<PricedProduct>)
    requires AllPriced(ps)
    ensures SumGst(ps) == SumTotals(ps) * GstRate
  {
    if ps != [] {
      var init := ps[..|ps| - 1];
      assert AllPriced(init) by {
        forall i | 0 <= i < |init| ensures IsPriced(init[i]) { assert init[i] == ps[i]; }
      }
      SumGstIsRateTimesSumTotals(init);
      assert IsPriced(ps[|ps| - 1]);
    }
  }

  /** Lines that are each not negative add up to a sum that is not negative. */
  lemma {:induction false} SumTotalsNonNegative(ps: seq<PricedProduct>)
    requires forall i :: 0 <= i < |ps| ==> ps[i].total >= 0.0
    ensures SumTotals(ps) >= 0.0
  {
    if ps != [] {
      SumTotalsNonNegative(ps[..|ps| - 1]);
    }
  }

  /** Lines that are each not negative add up to at least any one of them. */
  lemma SumTotalsAtLeastEach(ps: seq<PricedProduct>, i: int)
    requires forall j :: 0 <= j < |ps| ==> ps[j].total >= 0.0
    requires 0 <= i < |ps|
    ensures SumTotals(ps) >= ps[i].total
  {
    var before, rest := ps[..i], ps[i + 1..];
    assert ps == before + ([ps[i]] + rest);
    SumTotalsConcat(before, [ps[i]] + rest);
    SumTotalsConcat([ps[i]], rest);
    assert SumTotals([ps[i]]) == ps[i].total by {
      assert [ps[i]][..0] == [];
    }
    SumTotalsNonNegative(before);
    SumTotalsNonNegative(rest);
  }

  /** The three aggregates of a list of priced lines. */
  function InvoiceTotals(ps: seq<PricedProduct>): (t: Totals)
  {
    var totalAmount := SumTotals(ps);
    var totalGST := SumGst(ps);
    Totals(totalAmount, totalGST, totalAmount + totalGST)
  }

  /** An invoice with no lines has all three amounts 0. */
  lemma InvoiceTotalsEmpty()
    ensures InvoiceTotals([]) == Totals(0.0, 0.0, 0.0)
  {
  }

  /** What the controller hands to persistence: the priced lines and the totals. */
  datatype PricedInvoice = PricedInvoice(products: seq<PricedProduct>, totals: Totals)

  /** Lines 17-29 of the controller. The lines keep the submitted order and
      fields and are priced; the GST total, although summed line by line,
      is 18% of the amount, and the grand total is the amount plus the GST. */
  function PriceInvoice(products: seq<Product>): (inv: PricedInvoice)
    ensures |inv.products| == |products|
    ensures AllPriced(inv.products)
    ensures forall i :: 0 <= i < |products| ==> Payload(inv.products[i]) == products[i]
    ensures inv.totals.totalAmount == SumTotals(inv.products)
    ensures inv.totals.totalGST == SumGst(inv.products) == inv.totals.totalAmount * GstRate
    ensures inv.totals.grandTotal == inv.totals.totalAmount + inv.totals.totalGST
    ensures products == [] ==> inv.totals == Totals(0.0, 0.0, 0.0)
  {
    var processed := ProcessProducts(products);
    SumGstIsRateTimesSumTotals(processed);
    PricedInvoice(processed, InvoiceTotals(processed))
  }

  /** When every product is within the callers' bounds, no amount is negative,
      the grand total is at least the amount, and the amount is at least each
      line's rate. */
  lemma PriceInvoiceNonNegative(products: seq<Product>)
    requires forall i :: 0 <= i < |products| ==> InPricingRange(products[i])
    ensures var t := PriceInvoice(products).totals;
      t.totalAmount >= 0.0 && t.totalGST >= 0.0 && t.grandTotal >= t.totalAmount
    ensures forall i :: 0 <= i < |products| ==> PriceInvoice(products).totals.totalAmount >= products[i].rate
  {
    var inv := PriceInvoice(products);
    forall i | 0 <= i < |inv.products| ensures inv.products[i].total >= products[i].rate >= 0.0 {
      PriceBounds(products[i]);
    }
    SumTotalsNonNegative(inv.products);
    forall i | 0 <= i < |products| ensures inv.totals.totalAmount >= products[i].rate {
      SumTotalsAtLeastEach(inv.products, i);
    }
  }

  /** One line of 2 at 100: total 200, GST 36, grand total 236. */
  lemma OneLineInvoice()
    ensures PriceInvoice([Product("Widget", 2.0, 100.0)]).totals == Totals(200.0, 36.0, 236.0)
  {
    var inv := PriceInvoice([Product("Widget", 2.0, 100.0)]);
    assert inv.products == [PricedProduct("Widget", 2.0, 100.0, 200.0, 36.0)];
  }

  /** Lines of 1 at 50 and 3 at 10: amount 80, GST 9 + 5.4 = 14.4, grand total 94.4. */
  lemma TwoLineInvoice()
    ensures PriceInvoice([Product("A", 1.0, 50.0), Product("B", 3.0, 10.0)]).totals
         == Totals(80.0, 14.4, 94.4)
  {
    var inv := PriceInvoice([Product("A", 1.0, 50.0), Product("B", 3.0, 10.0)]);
    var ps := inv.products;
    assert ps[0].total == 50.0;
    assert ps[1].total == 30.0;
    assert ps[..1][..0] == [];
    assert SumTotals(ps[..1]) == 50.0;
    assert SumTotals(ps) == 80.0;
  }
}
