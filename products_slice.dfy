/** The client-side list of invoice lines. `CalculateTotals` recomputes the
    three amounts from quantity and rate; the reducers edit the list in place
    and then store what `CalculateTotals` returns. */
module ProductsSlice {
  import opened Types
  import InvoiceController
  import JsString

  /** The amount of one line as the slice computes it, from quantity and rate. */
  function LineAmount(p: PricedProduct): real
  {
    p.qty * p.rate
  }

  /** `products.reduce((sum, p) => sum + p.qty * p.rate, 0)`. */
  function LineSum(ps: seq<PricedProduct>): real
  {
    if ps == [] then 0.0 else LineSum(ps[..|ps| - 1]) + LineAmount(ps[|ps| - 1])
  }

  /** The slice's own aggregate: the GST is taken as 18% of the amount
      rather than summed from the lines. */
  function CalculateTotals(ps: seq<PricedProduct>): (t: Totals)
  {
    var totalAmount := LineSum(ps);
    var totalGST := totalAmount * GstRate;
    Totals(totalAmount, totalGST, totalAmount + totalGST)
  }

  /** The empty list has all three amounts 0, which is what `clearProducts` stores. */
  lemma CalculateTotalsEmpty()
    ensures CalculateTotals([]) == Totals(0.0, 0.0, 0.0)
  {
  }

  /** On priced lines the slice's sum of `qty * rate` is the sum of the stored totals. */
  lemma {:induction false} LineSumIsSumOfTotals(ps: seq<PricedProduct>)
    requires AllPriced(ps)
    ensures LineSum(ps) == InvoiceController.SumTotals(ps)
  {
    if ps != [] {
      var init := ps[..|ps| - 1];
      assert AllPriced(init) by {
        forall i | 0 <= i < |init| ensures IsPriced(init[i]) { assert init[i] == ps[i]; }
      }
      LineSumIsSumOfTotals(init);
      assert IsPriced(ps[|ps| - 1]);
    }
  }

  /** The frontend and the backend agree: on priced lines the slice's totals,
      with GST as 18% of the amount, are the controller's totals, with GST
      summed line by line. In particular the slice's GST is the sum of the
      stored per-line GST. */
  lemma SliceTotalsMatchBackend(ps: seq<PricedProduct>)
    requires AllPriced(ps)
    ensures CalculateTotals(ps) == InvoiceController.InvoiceTotals(ps)
    ensures CalculateTotals(ps).totalGST == InvoiceController.SumGst(ps)
  {
    LineSumIsSumOfTotals(ps);
    InvoiceController.SumGstIsRateTimesSumTotals(ps);
  }

  /** The figures shown for a list the user built are those the backend
      computes for the same products. */
  lemma ShownTotalsAreInvoiceTotals(products: seq<Product>)
    ensures CalculateTotals(InvoiceController.ProcessProducts(products))
         == InvoiceController.PriceInvoice(products).totals
  {
    SliceTotalsMatchBackend(InvoiceController.ProcessProducts(products));
  }

  /** The start index `Array.prototype.splice` uses: a negative index counts
      back from the end (and stops at 0), a large one stops at the length. */
  function SpliceStart(start: int, len: nat): (k: nat)
    ensures k <= len
    ensures 0 <= start <= len ==> k == start
    ensures start > len ==> k == len
    ensures start < 0 ==> k == JsString.Max(0, len + start)
  {
    if start < 0 then (if len + start < 0 then 0 else len + start)
    else if start > len then len
    else start
  }

  /** `splice(start, 1)`: removes the element at the start index, if there is one. */
  function SpliceOne(ps: seq<PricedProduct>, start: int): (r: seq<PricedProduct>)
    ensures 0 <= start < |ps| ==> r == ps[..start] + ps[start + 1..]
    ensures start >= |ps| ==> r == ps
    ensures |r| == if ps != [] && start < |ps| then |ps| - 1 else |ps|
  {
    var k := SpliceStart(start, |ps|);
    if k < |ps| then ps[..k] + ps[k + 1..] else ps
  }

  /** The slice's sum splits over a concatenation. */
  lemma {:induction false} LineSumConcat(a: seq<PricedProduct>, b: seq<PricedProduct>)
    ensures LineSum(a + b) == LineSum(a) + LineSum(b)
  {
    if b == [] {
      assert a + b == a;
    } else {
      assert (a + b)[..|a + b| - 1] == a + b[..|b| - 1];
      LineSumConcat(a, b[..|b| - 1]);
    }
  }

  /** A list splits at `i` into what comes before line `i`, that line, and the rest. */
  lemma LineSumAt(ps: seq<PricedProduct>, i: nat)
    requires i < |ps|
    ensures LineSum(ps) == LineSum(ps[..i]) + LineAmount(ps[i]) + LineSum(ps[i + 1..])
  {
    assert ps == ps[..i] + ps[i..];
    LineSumConcat(ps[..i], ps[i..]);
    assert ps[i..] == [ps[i]] + ps[i + 1..];
    LineSumConcat([ps[i]], ps[i + 1..]);
    assert [ps[i]][..0] == [];
  }

  /** Removing line `i` lowers the amount by exactly that line's `qty * rate`. */
  lemma RemoveLowersAmount(ps: seq<PricedProduct>, i: nat)
    requires i < |ps|
    ensures LineSum(ps[..i] + ps[i + 1..]) == LineSum(ps) - LineAmount(ps[i])
  {
    LineSumAt(ps, i);
    LineSumConcat(ps[..i], ps[i + 1..]);
  }

  /** Replacing line `i` by `q` changes the amount by the difference of the two lines. */
  lemma ReplaceChangesAmount(ps: seq<PricedProduct>, i: nat, q: PricedProduct)
    requires i < |ps|
    ensures LineSum(ps[i := q]) == LineSum(ps) - LineAmount(ps[i]) + LineAmount(q)
  {
    var qs := ps[i := q];
    LineSumAt(ps, i);
    LineSumAt(qs, i);
    assert qs[..i] == ps[..i] && qs[i + 1..] == ps[i + 1..];
  }

  /** Removing a line leaves every other line priced. */
  lemma SpliceKeepsPriced(ps: seq<PricedProduct>, start: int)
    requires AllPriced(ps)
    ensures AllPriced(SpliceOne(ps, start))
  {
    var k := SpliceStart(start, |ps|);
    if k < |ps| {
      var r := SpliceOne(ps, start);
      forall i | 0 <= i < |r| ensures IsPriced(r[i]) {
        if i < k { assert r[i] == ps[i]; } else { assert r[i] == ps[i + 1]; }
      }
    }
  }

  /** The state of the slice. The object invariant: every stored line is
      priced and the three amounts are those of `CalculateTotals`. */
  class ProductsState {
    var products: seq<PricedProduct>
    var totalAmount: real
    var totalGST: real
    var grandTotal: real

    ghost predicate Valid()
      reads this
    {
      && AllPriced(products)
      && Totals(totalAmount, totalGST, grandTotal) == CalculateTotals(products)
    }

    /** `initialState`: no lines and zero amounts. */
    constructor ()
      ensures Valid()
      ensures products == [] && totalAmount == 0.0 && totalGST == 0.0 && grandTotal == 0.0
    {
      products := [];
      totalAmount, totalGST, grandTotal := 0.0, 0.0, 0.0;
    }

    /** `addProduct`: appends the priced line at the end; earlier lines do not change. */
    method AddProduct(product: Product)
      requires Valid()
      modifies this
      ensures Valid()
      ensures products == old(products) + [InvoiceController.Price(product)]
      ensures totalAmount == old(totalAmount) + product.qty * product.rate
    {
      // the slice prices the line with the same formula as the controller
      products := products + [InvoiceController.Price(product)];
      assert products[..|products| - 1] == old(products);
      var totals := CalculateTotals(products);
      totalAmount, totalGST, grandTotal := totals.totalAmount, totals.totalGST, totals.grandTotal;
    }

    /** `removeProduct(index)`: `splice(index, 1)`. An index in range removes
        exactly that line and keeps the order of the rest; one at or past the
        end changes nothing; a negative one counts back from the end. */
    method RemoveProduct(index: int)
      requires Valid()
      modifies this
      ensures Valid()
      ensures products == SpliceOne(old(products), index)
      ensures 0 <= index < |old(products)| ==>
        totalAmount == old(totalAmount) - LineAmount(old(products)[index])
    {
      ghost var before := products;
      var k := SpliceStart(index, |products|);
      if k < |products| {
        products := products[..k] + products[k + 1..];
      }
      SpliceKeepsPriced(before, index);
      if 0 <= index < |before| {
        RemoveLowersAmount(before, index);
      }
      var totals := CalculateTotals(products);
      totalAmount, totalGST, grandTotal := totals.totalAmount, totals.totalGST, totals.grandTotal;
    }

    /** `updateProduct(index, product)`: `products[index] = priced line`.
        An index in range replaces that line only; the length is kept. An
        index equal to the length appends, as assignment past the end of a
        JavaScript array does; a negative index sets a property that is not an
        array element, so the lines stay as they are. */
    method UpdateProduct(index: int, product: Product)
      requires Valid()
      requires index <= |products|
      modifies this
      ensures Valid()
      ensures 0 <= index < |old(products)| ==>
        products == old(products)[index := InvoiceController.Price(product)]
      ensures index == |old(products)| ==> products == old(products) + [InvoiceController.Price(product)]
      ensures index < 0 ==> products == old(products)
      ensures 0 <= index < |old(products)| ==>
        totalAmount == old(totalAmount) - LineAmount(old(products)[index]) + product.qty * product.rate
    {
      var line := InvoiceController.Price(product);
      if 0 <= index < |products| {
        ReplaceChangesAmount(products, index, line);
        products := products[index := line];
      } else if index == |products| {
        products := products + [line];
      }
      var totals := CalculateTotals(products);
      totalAmount, totalGST, grandTotal := totals.totalAmount, totals.totalGST, totals.grandTotal;
    }

    /** `clearProducts`: no lines and zero amounts, from any state. */
    method ClearProducts()
      modifies this
      ensures Valid()
      ensures products == [] && totalAmount == 0.0 && totalGST == 0.0 && grandTotal == 0.0
    {
      products := [];
      totalAmount, totalGST, grandTotal := 0.0, 0.0, 0.0;
    }

    /** What the state shows agrees with the backend: the GST figure is the
        sum of the stored per-line GST, and the totals are the invoice's. */
    method ShownTotals() returns (t: Totals)
      requires Valid()
      ensures t == InvoiceController.InvoiceTotals(products)
      ensures t.totalGST == InvoiceController.SumGst(products)
    {
      t := Totals(totalAmount, totalGST, grandTotal);
      SliceTotalsMatchBackend(products);
    }
  }
}
