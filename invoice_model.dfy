/** The invoice document: the bounds its product schema puts on each stored
    line, and the number the pre-save hook gives a new invoice,
    `"INV-" + (count + 1)` left-padded with '0' to at least six digits, where `count`
    is the number of invoices already stored. */
module InvoiceModel {
  import opened Types
  import opened JsString

  const NumberPrefix: string := "INV-"
  const NumberWidth: nat := 6

  /** The number of the invoice created when `count` invoices exist. It starts
      with the prefix, every later character is a digit, and there are at
      least six of them. */
  function FormatInvoiceNumber(count: nat): (r: string)
    ensures |r| >= |NumberPrefix| + NumberWidth
    ensures r[..|NumberPrefix|] == NumberPrefix
    ensures AllDigits(r[|NumberPrefix|..])
  {
    var digits := NatToString(count + 1);
    var padded := PadStart(digits, NumberWidth, '0');
    assert AllDigits(padded) by {
      forall i | 0 <= i < |padded| ensures IsDigit(padded[i]) {
        if i >= |padded| - |digits| {
          assert padded[i] == padded[|padded| - |digits|..][i - (|padded| - |digits|)];
        }
      }
    }
    assert (NumberPrefix + padded)[|NumberPrefix|..] == padded;
    NumberPrefix + padded
  }

  /** Reads a number back: the prefix followed by at least one digit. */
  function ParseInvoiceNumber(s: string): (r: Option<nat>)
    ensures r.Some? ==> |s| > |NumberPrefix| && s[..|NumberPrefix|] == NumberPrefix
  {
    if |s| > |NumberPrefix| && s[..|NumberPrefix|] == NumberPrefix && AllDigits(s[|NumberPrefix|..])
    then Some(ParseDigits(s[|NumberPrefix|..]))
    else None
  }

  /** Round trip: the digits after the prefix read back as `count + 1`. */
  lemma ParseFormatInvoiceNumber(count: nat)
    ensures ParseInvoiceNumber(FormatInvoiceNumber(count)) == Some(count + 1)
  {
    var digits := NatToString(count + 1);
    var padded := PadStart(digits, NumberWidth, '0');
    var r := FormatInvoiceNumber(count);
    assert r[|NumberPrefix|..] == padded;
    var zeros := |padded| - |digits|;
    assert padded == Repeat('0', zeros) + digits by {
      assert padded[zeros..] == digits;
      assert forall i :: 0 <= i < zeros ==> padded[i] == '0';
      assert padded == padded[..zeros] + padded[zeros..];
      assert padded[..zeros] == Repeat('0', zeros);
    }
    ParseLeadingZeros(zeros, digits);
    ParseNatToString(count + 1);
  }

  /** Distinct counts give distinct numbers. */
  lemma FormatInvoiceNumberInjective(m: nat, n: nat)
    requires FormatInvoiceNumber(m) == FormatInvoiceNumber(n)
    ensures m == n
  {
    ParseFormatInvoiceNumber(m);
    ParseFormatInvoiceNumber(n);
  }

  /** Up to the millionth invoice the number is exactly ten characters long:
      the prefix and six digits. */
  lemma FormatInvoiceNumberFixedWidth(count: nat)
    requires count + 1 <= 999999
    ensures |FormatInvoiceNumber(count)| == |NumberPrefix| + NumberWidth
  {
    NatToStringLength(count + 1, NumberWidth);
    assert Pow10(NumberWidth) == 1000000;
  }

  /** Padding never truncates: from the millionth invoice on, all the digits
      of `count + 1` follow the prefix, with no zeros added. */
  lemma FormatInvoiceNumberKeepsAllDigits(count: nat)
    requires count + 1 >= 1000000
    ensures FormatInvoiceNumber(count) == NumberPrefix + NatToString(count + 1)
  {
    NatToStringLength(count + 1, NumberWidth);
    assert Pow10(NumberWidth) == 1000000;
  }

  /** Dictionary order on strings, as JavaScript compares them. */
  ghost predicate LexLess(a: string, b: string)
  {
    (exists k :: 0 <= k < |a| && k < |b| && a[..k] == b[..k] && a[k] < b[k])
    || (|a| < |b| && a == b[..|a|])
  }

  /** Equal-length digit strings compare in dictionary order as their values do. */
  lemma {:induction false} DigitOrderIsNumericOrder(a: string, b: string)
    requires AllDigits(a) && AllDigits(b) && |a| == |b|
    requires ParseDigits(a) < ParseDigits(b)
    ensures exists k :: 0 <= k < |a| && a[..k] == b[..k] && a[k] < b[k]
  {
    var n := |a|;
    var a', b' := a[..n - 1], b[..n - 1];
    var x, y := DigitValue(a[n - 1]), DigitValue(b[n - 1]);
    if ParseDigits(a') < ParseDigits(b') {
      DigitOrderIsNumericOrder(a', b');
      var k :| 0 <= k < |a'| && a'[..k] == b'[..k] && a'[k] < b'[k];
      assert a[..k] == a'[..k] && b[..k] == b'[..k];
      assert a[k] == a'[k] && b[k] == b'[k];
    } else if ParseDigits(a') == ParseDigits(b') {
      SameValueSameDigits(a', b');
      assert a[..n - 1] == b[..n - 1];
      assert x < y;
      assert a[n - 1] < b[n - 1] by {
        assert DigitChar(x) == a[n - 1] && DigitChar(y) == b[n - 1];
      }
    }
  }

  /** Equal-length digit strings with equal values are equal. */
  lemma {:induction false} SameValueSameDigits(a: string, b: string)
    requires AllDigits(a) && AllDigits(b) && |a| == |b|
    requires ParseDigits(a) == ParseDigits(b)
    ensures a == b
  {
    if a != [] {
      var n := |a|;
      var a', b' := a[..n - 1], b[..n - 1];
      var x, y := DigitValue(a[n - 1]), DigitValue(b[n - 1]);
      LastDigitDetermined(ParseDigits(a'), x, ParseDigits(b'), y);
      SameValueSameDigits(a', b');
      assert a[n - 1] == DigitChar(x) == b[n - 1];
      assert a == a' + [a[n - 1]] && b == b' + [b[n - 1]];
    }
  }

  /** The last digit and the rest of a decimal are determined by its value. */
  lemma LastDigitDetermined(p: nat, x: nat, q: nat, y: nat)
    requires x < 10 && y < 10 && 10 * p + x == 10 * q + y
    ensures p == q && x == y
  {
  }

  /** Below the millionth invoice the digits of two numbers have the same
      width and are read as the two counts plus one. */
  lemma NumberDigitsCompare(i: nat, j: nat)
    requires i < j && j + 1 <= 999999
    ensures var da, db := FormatInvoiceNumber(i)[|NumberPrefix|..], FormatInvoiceNumber(j)[|NumberPrefix|..];
      |da| == |db| && AllDigits(da) && AllDigits(db) && ParseDigits(da) < ParseDigits(db)
  {
    FormatInvoiceNumberFixedWidth(i);
    FormatInvoiceNumberFixedWidth(j);
    ParseFormatInvoiceNumber(i);
    ParseFormatInvoiceNumber(j);
  }

  /** Behind a shared prefix, strings that agree up to `k` and differ there
      are in dictionary order. */
  lemma LexLessBehindPrefix(x: string, da: string, db: string, k: nat)
    requires k < |da| && k < |db| && da[..k] == db[..k] && da[k] < db[k]
    ensures LexLess(x + da, x + db)
  {
    var a, b := x + da, x + db;
    assert a[..|x| + k] == x + da[..k];
    assert b[..|x| + k] == x + db[..k];
    assert a[|x| + k] == da[k] && b[|x| + k] == db[k];
  }

  /** A number is the prefix followed by its digits. */
  lemma NumberSplits(count: nat)
    ensures FormatInvoiceNumber(count) == NumberPrefix + FormatInvoiceNumber(count)[|NumberPrefix|..]
  {
    var a := FormatInvoiceNumber(count);
    assert a == a[..|NumberPrefix|] + a[|NumberPrefix|..];
  }

  /** Below the millionth invoice the numbers sort, as strings, in creation order. */
  lemma FormatInvoiceNumberSorts(i: nat, j: nat)
    requires i < j && j + 1 <= 999999
    ensures LexLess(FormatInvoiceNumber(i), FormatInvoiceNumber(j))
  {
    var p := |NumberPrefix|;
    var da, db := FormatInvoiceNumber(i)[p..], FormatInvoiceNumber(j)[p..];
    NumberDigitsCompare(i, j);
    DigitOrderIsNumericOrder(da, db);
    var k :| 0 <= k < |da| && da[..k] == db[..k] && da[k] < db[k];
    LexLessBehindPrefix(NumberPrefix, da, db, k);
    NumberSplits(i);
    NumberSplits(j);
  }

  lemma {:induction false} NinesToString()
    ensures NatToString(999999) == "999999"
  {
    assert NatToString(9) == "9";
    assert NatToString(99) == NatToString(9) + "9";
    assert NatToString(999) == NatToString(99) + "9";
    assert NatToString(9999) == NatToString(999) + "9";
    assert NatToString(99999) == NatToString(9999) + "9";
    assert NatToString(999999) == NatToString(99999) + "9";
  }

  lemma {:induction false} MillionToString()
    ensures NatToString(1000000) == "1000000"
  {
    assert NatToString(1) == "1";
    assert NatToString(10) == NatToString(1) + "0";
    assert NatToString(100) == NatToString(10) + "0";
    assert NatToString(1000) == NatToString(100) + "0";
    assert NatToString(10000) == NatToString(1000) + "0";
    assert NatToString(100000) == NatToString(10000) + "0";
    assert NatToString(1000000) == NatToString(100000) + "0";
  }

  /** From the millionth invoice on the numbers no longer sort as strings:
      the one created after INV-999999 is INV-1000000, which sorts before it. */
  lemma SortOrderBreaksAtOneMillion()
    ensures FormatInvoiceNumber(999998) == "INV-999999"
    ensures FormatInvoiceNumber(999999) == "INV-1000000"
    ensures LexLess(FormatInvoiceNumber(999999), FormatInvoiceNumber(999998))
  {
    NinesToString();
    MillionToString();
    assert PadStart("999999", NumberWidth, '0') == "999999";
    assert PadStart("1000000", NumberWidth, '0') == "1000000";
    var a, b := "INV-1000000", "INV-999999";
    assert a[..4] == b[..4] && a[4] < b[4];
  }

  /** The product schema: a name that is not empty after trimming, a quantity
      of at least 1 and a rate of at least 0. */
  predicate ProductSchemaAccepts(p: PricedProduct)
  {
    Trim(p.name) != [] && p.qty >= 1.0 && p.rate >= 0.0
  }

  predicate AllLinesAccepted(ps: seq<PricedProduct>)
  {
    forall i :: 0 <= i < |ps| ==> ProductSchemaAccepts(ps[i])
  }

  /** An invoice document as the hook sees it. */
  class InvoiceDocument {
    var isNew: bool
    var invoiceNumber: Option<string>
    var products: seq<PricedProduct>
    var totals: Totals

    constructor (products: seq<PricedProduct>, totals: Totals)
      ensures this.isNew && this.invoiceNumber.None?
      ensures this.products == products && this.totals == totals
    {
      this.isNew := true;
      this.invoiceNumber := None;
      this.products := products;
      this.totals := totals;
    }

    /** The pre-save hook, with `count` the number of stored invoices: a new
        document gets the formatted number; any other keeps the one it has. */
    method PreSave(count: nat)
      modifies this`invoiceNumber
      ensures old(isNew) ==> invoiceNumber == Some(FormatInvoiceNumber(count))
      ensures !old(isNew) ==> invoiceNumber == old(invoiceNumber)
    {
      if isNew {
        invoiceNumber := Some(FormatInvoiceNumber(count));
      }
    }
  }

  datatype SaveResult = Saved(number: string) | ValidationFailed

  /** A persisted invoice. */
  datatype StoredInvoice = StoredInvoice(invoiceNumber: string, products: seq<PricedProduct>, totals: Totals)

  /** The document validator: the required `invoiceNumber` is present and
      every product line is within the product schema's bounds. */
  predicate DocumentValid(invoiceNumber: Option<string>, products: seq<PricedProduct>)
  {
    invoiceNumber.Some? && AllLinesAccepted(products)
  }

  /** Once the hook has numbered a document, only its lines decide validation. */
  lemma NumberedDocumentValid(count: nat, products: seq<PricedProduct>)
    ensures DocumentValid(Some(FormatInvoiceNumber(count)), products) <==> AllLinesAccepted(products)
  {
  }

  /** Validating before the hook refuses every new document, even one whose
      only line, 1 at 5 named "A", is within the schema's bounds. */
  lemma AcceptableInvoiceRefusedAsWritten()
    ensures var line := PricedProduct("A", 1.0, 5.0, 5.0, 0.9);
      AllLinesAccepted([line]) && !DocumentValid(None, [line])
  {
    var line := PricedProduct("A", 1.0, 5.0, 5.0, 0.9);
    assert TrimStart(line.name) == "A";
    assert Trim(line.name) == "A";
  }

  /** The invoices stored so far, saved one after another. The invariant:
      the invoice at position `k` carries the number formatted from `k`,
      and every stored line is within the schema's bounds. */
  class InvoiceCollection {
    var invoices: seq<StoredInvoice>

    ghost predicate Valid()
      reads this
    {
      forall k :: 0 <= k < |invoices| ==>
        invoices[k].invoiceNumber == FormatInvoiceNumber(k) && AllLinesAccepted(invoices[k].products)
    }

    constructor ()
      ensures Valid() && invoices == []
    {
      invoices := [];
    }

    /** `save` of a new document in the order the schema declares it: the
        validator runs on the document as it is, and only a valid document
        reaches the pre-save hook, which numbers it from the count of stored
        invoices before it is stored at the end. */
    method SaveNew(doc: InvoiceDocument) returns (r: SaveResult)
      requires Valid() && doc.isNew
      modifies this, doc`isNew, doc`invoiceNumber
      ensures Valid()
      ensures r.Saved? <==> DocumentValid(old(doc.invoiceNumber), doc.products)
      ensures r.Saved? ==> (r.number == FormatInvoiceNumber(|old(invoices)|)
                            && invoices == old(invoices) + [StoredInvoice(r.number, doc.products, doc.totals)])
      ensures r.ValidationFailed? ==> invoices == old(invoices)
      ensures r.Saved? ==> doc.invoiceNumber == Some(r.number) && !doc.isNew
      ensures r.ValidationFailed? ==> doc.invoiceNumber == old(doc.invoiceNumber) && doc.isNew
    {
      if !DocumentValid(doc.invoiceNumber, doc.products) {
        return ValidationFailed;
      }
      doc.PreSave(|invoices|);
      invoices := invoices + [StoredInvoice(doc.invoiceNumber.value, doc.products, doc.totals)];
      doc.isNew := false;
      r := Saved(doc.invoiceNumber.value);
    }

    /** `Invoice.create` as the program is written: the controller passes no
        number, the validator finds the required number missing, and nothing
        is stored, whatever the lines are. */
    method CreateAsWritten(products: seq<PricedProduct>, totals: Totals) returns (r: SaveResult)
      requires Valid()
      modifies this
      ensures Valid()
      ensures r.ValidationFailed? && invoices == old(invoices)
    {
      var doc := new InvoiceDocument(products, totals);
      r := SaveNew(doc);
    }

    /** `Invoice.create` with the number assigned before validation (as a
        `pre('validate')` hook would): the new document is numbered from the
        count of stored invoices; if the schema refuses a line nothing is
        stored, otherwise the document is stored, at the end, under its number. */
    method Create(products: seq<PricedProduct>, totals: Totals) returns (r: SaveResult)
      requires Valid()
      modifies this
      ensures Valid()
      ensures r.Saved? <==> AllLinesAccepted(products)
      ensures r.Saved? ==> (r.number == FormatInvoiceNumber(|old(invoices)|)
                            && invoices == old(invoices) + [StoredInvoice(r.number, products, totals)])
      ensures r.ValidationFailed? ==> invoices == old(invoices)
    {
      var doc := new InvoiceDocument(products, totals);
      doc.PreSave(|invoices|);
      if !DocumentValid(doc.invoiceNumber, doc.products) {
        return ValidationFailed;
      }
      invoices := invoices + [StoredInvoice(doc.invoiceNumber.value, doc.products, doc.totals)];
      doc.isNew := false;
      r := Saved(doc.invoiceNumber.value);
    }
  }

  /** Under one writer no two stored invoices share a number: this follows
      from the collection's invariant alone. */
  lemma StoredNumbersDistinct(invoices: seq<StoredInvoice>, i: nat, j: nat)
    requires forall k :: 0 <= k < |invoices| ==> invoices[k].invoiceNumber == FormatInvoiceNumber(k)
    requires i < |invoices| && j < |invoices| && i != j
    ensures invoices[i].invoiceNumber != invoices[j].invoiceNumber
  {
    if invoices[i].invoiceNumber == invoices[j].invoiceNumber {
      FormatInvoiceNumberInjective(i, j);
    }
  }
}
