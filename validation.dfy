/** The request validators and the middleware that turns their errors into a
    400 response. Each rule list runs field by field; a wildcard rule
    (`products.*.qty`) checks the list's elements in order, one error per
    failing element. Values are taken as already typed: the e-mail syntax
    check is a parameter, and string-to-number coercion is not modelled. */
module Validation {
  import opened Types
  import opened JsString
  import InvoiceController
  import InvoiceModel

  datatype ProductField = NameField | QtyField | RateField

  /** Where an error was found. */
  datatype Path = NamePath | EmailPath | PasswordPath | ProductsPath | ProductPath(index: nat, field: ProductField)

  datatype FieldError = FieldError(path: Path, msg: string)

  datatype RegistrationBody = RegistrationBody(name: string, email: string, password: string)

  datatype LoginBody = LoginBody(email: string, password: string)

  const NameMessage := "Name must be between 2 and 50 characters"
  const EmailMessage := "Please provide a valid email"
  const PasswordLengthMessage := "Password must be at least 6 characters long"
  const PasswordRequiredMessage := "Password is required"
  const ProductsMessage := "At least one product is required"

  /** One rule: no error when it holds, one error at `path` when it does not. */
  function Rule(holds: bool, path: Path, msg: string): (errs: seq<FieldError>)
    ensures errs == [] <==> holds
    ensures !holds ==> errs == [FieldError(path, msg)]
  {
    if holds then [] else [FieldError(path, msg)]
  }

  // ----- registration and login -----

  /** U+FE0E and U+FE0F, the presentation selectors `isLength` leaves out of its count. */
  predicate IsPresentationSelector(c: char)
  {
    c == '\U{FE0E}' || c == '\U{FE0F}'
  }

  /** The length `isLength` measures: code points (each `char` here is one,
      as a surrogate pair is counted once), less the presentation selectors. */
  function ValidatorLength(s: string): (n: nat)
    ensures n <= |s|
  {
    if s == [] then 0
    else ValidatorLength(s[..|s| - 1]) + (if IsPresentationSelector(s[|s| - 1]) then 0 else 1)
  }

  /** Without presentation selectors, every character counts. */
  lemma {:induction false} ValidatorLengthPlain(s: string)
    requires forall i :: 0 <= i < |s| ==> !IsPresentationSelector(s[i])
    ensures ValidatorLength(s) == |s|
  {
    if s != [] {
      ValidatorLengthPlain(s[..|s| - 1]);
    }
  }

  /** A selector adds a character but not to the measured length:
      "12345" followed by U+FE0F has six characters and length 5. */
  lemma SelectorNotCounted()
    ensures var pw := "12345\U{FE0F}"; |pw| == 6 && ValidatorLength(pw) == 5
  {
    var pw := "12345\U{FE0F}";
    assert pw[..5] == "12345";
    ValidatorLengthPlain("12345");
  }

  /** `trim().isLength({ min: 2, max: 50 })`. */
  predicate RegistrationNameOk(name: string)
  {
    2 <= ValidatorLength(Trim(name)) <= 50
  }

  /** The registration rules, in their order: name, e-mail, password. */
  function ValidateRegistration(body: RegistrationBody, isEmail: string -> bool): (errs: seq<FieldError>)
    ensures errs == [] <==> RegistrationNameOk(body.name) && isEmail(body.email) && ValidatorLength(body.password) >= 6
    ensures FieldError(NamePath, NameMessage) in errs <==> !RegistrationNameOk(body.name)
    ensures FieldError(EmailPath, EmailMessage) in errs <==> !isEmail(body.email)
    ensures FieldError(PasswordPath, PasswordLengthMessage) in errs <==> ValidatorLength(body.password) < 6
    ensures |errs| <= 3
  {
    Rule(RegistrationNameOk(body.name), NamePath, NameMessage)
    + Rule(isEmail(body.email), EmailPath, EmailMessage)
    + Rule(ValidatorLength(body.password) >= 6, PasswordPath, PasswordLengthMessage)
  }

  /** A name of only white space is refused, however long it is. */
  lemma WhiteSpaceNameRefused(body: RegistrationBody, isEmail: string -> bool)
    requires AllWhiteSpace(body.name)
    ensures FieldError(NamePath, NameMessage) in ValidateRegistration(body, isEmail)
  {
    TrimEmptyIffAllWhiteSpace(body.name);
  }

  /** The login rules: a valid e-mail and a password that is not empty (it
      is not trimmed, so a password of spaces passes). */
  function ValidateLogin(body: LoginBody, isEmail: string -> bool): (errs: seq<FieldError>)
    ensures errs == [] <==> isEmail(body.email) && body.password != []
    ensures FieldError(EmailPath, EmailMessage) in errs <==> !isEmail(body.email)
    ensures FieldError(PasswordPath, PasswordRequiredMessage) in errs <==> body.password == []
    ensures |errs| <= 2
  {
    Rule(isEmail(body.email), EmailPath, EmailMessage)
    + Rule(body.password != [], PasswordPath, PasswordRequiredMessage)
  }

  // ----- products -----

  predicate IsInteger(x: real)
  {
    x.Floor as real == x
  }

  /** The per-element rules: a name not empty after trimming, an integer
      quantity of at least 1, a rate of at least 0. */
  predicate FieldOk(f: ProductField, p: Product)
  {
    match f
    case NameField => Trim(p.name) != []
    case QtyField => IsInteger(p.qty) && p.qty >= 1.0
    case RateField => p.rate >= 0.0
  }

  function FieldMessage(f: ProductField): string
  {
    match f
    case NameField => "Product name is required"
    case QtyField => "Product quantity must be a positive integer"
    case RateField => "Product rate must be a positive number"
  }

  predicate ProductAcceptable(p: Product)
  {
    FieldOk(NameField, p) && FieldOk(QtyField, p) && FieldOk(RateField, p)
  }

  /** The outcome of one per-element rule on each element, in order. */
  function Outcomes(ps: seq<Product>, f: ProductField): (oks: seq<bool>)
    ensures |oks| == |ps| && forall i :: 0 <= i < |ps| ==> (oks[i] <==> FieldOk(f, ps[i]))
  {
    seq(|ps|, i requires 0 <= i < |ps| => FieldOk(f, ps[i]))
  }

  /** The errors of one wildcard rule from the outcomes on the elements: one
      error for each failing element, in the order of the elements, all at that
      rule's field and message. */
  function OutcomeErrors(oks: seq<bool>, f: ProductField): (errs: seq<FieldError>)
    ensures errs == [] <==> forall i :: 0 <= i < |oks| ==> oks[i]
    ensures forall k :: 0 <= k < |errs| ==>
      (errs[k].path.ProductPath? && errs[k].path.field == f
       && errs[k].path.index < |oks| && errs[k].msg == FieldMessage(f))
  {
    if oks == [] then []
    else
      var last := |oks| - 1;
      var init := OutcomeErrors(oks[..last], f);
      var tail := Rule(oks[last], ProductPath(last, f), FieldMessage(f));
      assert init == [] <==> forall i :: 0 <= i < last ==> oks[i] by {
        assert forall i :: 0 <= i < last ==> oks[..last][i] == oks[i];
      }
      assert forall k :: 0 <= k < |tail| ==> tail[k] == FieldError(ProductPath(last, f), FieldMessage(f));
      init + tail
  }

  /** Element `i` has an error exactly when its outcome is a failure. */
  lemma {:induction false} OutcomeErrorAt(oks: seq<bool>, f: ProductField, i: nat)
    requires i < |oks|
    ensures FieldError(ProductPath(i, f), FieldMessage(f)) in OutcomeErrors(oks, f) <==> !oks[i]
  {
    var last := |oks| - 1;
    var init := OutcomeErrors(oks[..last], f);
    var e := FieldError(ProductPath(i, f), FieldMessage(f));
    assert OutcomeErrors(oks, f) == init + Rule(oks[last], ProductPath(last, f), FieldMessage(f));
    if i < last {
      OutcomeErrorAt(oks[..last], f, i);
      assert oks[..last][i] == oks[i];
    } else {
      assert forall k :: 0 <= k < |init| ==> init[k] != e;
    }
  }

  /** The errors of a wildcard rule come in the order of the elements. */
  lemma {:induction false} OutcomeErrorsOrdered(oks: seq<bool>, f: ProductField, a: nat, b: nat)
    requires a < b < |OutcomeErrors(oks, f)|
    ensures OutcomeErrors(oks, f)[a].path.index < OutcomeErrors(oks, f)[b].path.index
  {
    var last := |oks| - 1;
    var init := OutcomeErrors(oks[..last], f);
    var errs := OutcomeErrors(oks, f);
    assert errs == init + Rule(oks[last], ProductPath(last, f), FieldMessage(f));
    if b < |init| {
      OutcomeErrorsOrdered(oks[..last], f, a, b);
      assert errs[a] == init[a] && errs[b] == init[b];
    } else {
      assert errs[a] == init[a];
      assert errs[b].path.index == last;
    }
  }

  /** One wildcard rule (`products.*.field`) over the list. */
  function WildcardErrors(ps: seq<Product>, f: ProductField): (errs: seq<FieldError>)
    ensures errs == [] <==> forall i :: 0 <= i < |ps| ==> FieldOk(f, ps[i])
    ensures forall k :: 0 <= k < |errs| ==>
      (errs[k].path.ProductPath? && errs[k].path.field == f
       && errs[k].path.index < |ps| && errs[k].msg == FieldMessage(f))
  {
    OutcomeErrors(Outcomes(ps, f), f)
  }

  /** The errors of a wildcard rule come in the order of the elements. */
  lemma WildcardErrorsOrdered(ps: seq<Product>, f: ProductField, a: nat, b: nat)
    requires a < b < |WildcardErrors(ps, f)|
    ensures WildcardErrors(ps, f)[a].path.index < WildcardErrors(ps, f)[b].path.index
  {
    OutcomeErrorsOrdered(Outcomes(ps, f), f, a, b);
  }

  /** Element `i` has an error from a wildcard rule exactly when it fails the rule. */
  lemma WildcardErrorAt(ps: seq<Product>, f: ProductField, i: nat)
    requires i < |ps|
    ensures FieldError(ProductPath(i, f), FieldMessage(f)) in WildcardErrors(ps, f) <==> !FieldOk(f, ps[i])
  {
    OutcomeErrorAt(Outcomes(ps, f), f, i);
  }

  /** The three wildcard rules all pass exactly when every element is acceptable. */
  lemma WildcardRulesPass(ps: seq<Product>)
    ensures (WildcardErrors(ps, NameField) == [] && WildcardErrors(ps, QtyField) == []
             && WildcardErrors(ps, RateField) == [])
        <==> forall i :: 0 <= i < |ps| ==> ProductAcceptable(ps[i])
  {
    if forall i :: 0 <= i < |ps| ==> ProductAcceptable(ps[i]) {
      assert forall i :: 0 <= i < |ps| ==> FieldOk(NameField, ps[i]);
      assert forall i :: 0 <= i < |ps| ==> FieldOk(QtyField, ps[i]);
      assert forall i :: 0 <= i < |ps| ==> FieldOk(RateField, ps[i]);
    }
  }

  /** The errors of the three wildcard rules, when there are any, start with
      an error at an element. */
  lemma ElementErrorsFirst(ps: seq<Product>)
    ensures var elements := WildcardErrors(ps, NameField) + WildcardErrors(ps, QtyField) + WildcardErrors(ps, RateField);
      (elements == [] <==> (WildcardErrors(ps, NameField) == [] && WildcardErrors(ps, QtyField) == []
                           && WildcardErrors(ps, RateField) == []))
      && (elements != [] ==> elements[0].path.ProductPath?)
  {
    var names, qtys, rates := WildcardErrors(ps, NameField), WildcardErrors(ps, QtyField), WildcardErrors(ps, RateField);
    var elements := names + qtys + rates;
    if names != [] { assert elements[0] == names[0]; }
    else if qtys != [] { assert elements[0] == qtys[0]; }
    else if rates != [] { assert elements[0] == rates[0]; }
  }

  /** `validateProducts` on the request's `products` field, `None` when that
      is not an array: first the array rule, then the name, quantity and rate
      rules, each over all elements. The array error, when there is one,
      comes first. */
  function ValidateProducts(products: Option<seq<Product>>): (errs: seq<FieldError>)
    ensures errs == [] <==>
      products.Some? && |products.value| >= 1
      && forall i :: 0 <= i < |products.value| ==> ProductAcceptable(products.value[i])
    ensures (products.None? || products.value == []) <==>
      (errs != [] && errs[0] == FieldError(ProductsPath, ProductsMessage))
  {
    match products
    case None => [FieldError(ProductsPath, ProductsMessage)]
    case Some(ps) =>
      var names, qtys, rates := WildcardErrors(ps, NameField), WildcardErrors(ps, QtyField), WildcardErrors(ps, RateField);
      var elements := names + qtys + rates;
      WildcardRulesPass(ps);
      ElementErrorsFirst(ps);
      Rule(|ps| >= 1, ProductsPath, ProductsMessage) + elements
  }

  /** A wildcard rule reports only errors at its own field. */
  lemma OtherFieldNotReported(ps: seq<Product>, g: ProductField, e: FieldError)
    requires e.path.ProductPath? && e.path.field != g
    ensures e !in WildcardErrors(ps, g)
  {
    var errs := WildcardErrors(ps, g);
    assert forall k :: 0 <= k < |errs| ==> errs[k] != e;
  }

  /** An error at an element is in the full list exactly when one of the
      three wildcard rules reports it. */
  lemma ElementErrorIn(ps: seq<Product>, e: FieldError)
    requires e.path.ProductPath?
    ensures e in ValidateProducts(Some(ps)) <==>
      e in WildcardErrors(ps, NameField) || e in WildcardErrors(ps, QtyField) || e in WildcardErrors(ps, RateField)
  {
    var head := Rule(|ps| >= 1, ProductsPath, ProductsMessage);
    var elements := WildcardErrors(ps, NameField) + WildcardErrors(ps, QtyField) + WildcardErrors(ps, RateField);
    assert ValidateProducts(Some(ps)) == head + elements;
    assert e !in head;
  }

  /** Element `i` of an array gets the error of a per-element rule in the
      full error list exactly when it fails that rule: a blank name, a
      quantity that is not a whole number of at least 1, a negative rate. */
  lemma ProductErrorAt(ps: seq<Product>, i: nat, f: ProductField)
    requires i < |ps|
    ensures FieldError(ProductPath(i, f), FieldMessage(f)) in ValidateProducts(Some(ps)) <==> !FieldOk(f, ps[i])
  {
    var e := FieldError(ProductPath(i, f), FieldMessage(f));
    ElementErrorIn(ps, e);
    WildcardErrorAt(ps, f, i);
    if f != NameField { OtherFieldNotReported(ps, NameField, e); }
    if f != QtyField { OtherFieldNotReported(ps, QtyField, e); }
    if f != RateField { OtherFieldNotReported(ps, RateField, e); }
  }

  /** A quantity of 0 is refused; a rate of 0 is accepted. */
  lemma ZeroQtyRefusedZeroRateAccepted(ps: seq<Product>, i: nat)
    requires i < |ps| && ps[i].qty == 0.0 && ps[i].rate == 0.0
    ensures FieldError(ProductPath(i, QtyField), FieldMessage(QtyField)) in ValidateProducts(Some(ps))
    ensures FieldError(ProductPath(i, RateField), FieldMessage(RateField)) !in ValidateProducts(Some(ps))
  {
    assert !FieldOk(QtyField, ps[i]) && FieldOk(RateField, ps[i]);
    ProductErrorAt(ps, i, QtyField);
    ProductErrorAt(ps, i, RateField);
  }

  /** An element with a name of only white space is refused. */
  lemma WhiteSpaceProductNameRefused(ps: seq<Product>, i: nat)
    requires i < |ps| && AllWhiteSpace(ps[i].name)
    ensures FieldError(ProductPath(i, NameField), FieldMessage(NameField)) in ValidateProducts(Some(ps))
  {
    TrimEmptyIffAllWhiteSpace(ps[i].name);
    WildcardErrorAt(ps, NameField, i);
  }

  /** The `trim()` sanitizer on `products.*.name` rewrites each name to its
      trimmed form before the controller reads it. */
  function SanitizeProducts(ps: seq<Product>): (r: seq<Product>)
    ensures |r| == |ps|
    ensures forall i :: 0 <= i < |r| ==>
      r[i].name == Trim(ps[i].name) && r[i].qty == ps[i].qty && r[i].rate == ps[i].rate
  {
    seq(|ps|, i requires 0 <= i < |ps| => Product(Trim(ps[i].name), ps[i].qty, ps[i].rate))
  }

  /** An accepted request is a non-empty list of products within the
      pricer's bounds, with whole quantities and names that are not blank. */
  lemma AcceptedProductsArePriceable(products: Option<seq<Product>>)
    requires ValidateProducts(products) == []
    ensures products.Some? && |products.value| >= 1
    ensures forall i :: 0 <= i < |products.value| ==>
      InPricingRange(products.value[i]) && IsInteger(products.value[i].qty)
      && Trim(products.value[i].name) != []
  {
    var ps := products.value;
    forall i | 0 <= i < |ps|
      ensures InPricingRange(ps[i]) && IsInteger(ps[i].qty) && Trim(ps[i].name) != []
    {
      assert ProductAcceptable(ps[i]);
    }
  }

  /** What the controller does with an accepted request gives no negative
      amount and a grand total of at least the amount. */
  lemma AcceptedInvoiceTotalsNonNegative(ps: seq<Product>)
    requires ValidateProducts(Some(ps)) == []
    ensures var t := InvoiceController.PriceInvoice(SanitizeProducts(ps)).totals;
      t.totalAmount >= 0.0 && t.totalGST >= 0.0 && t.grandTotal >= t.totalAmount
  {
    var clean := SanitizeProducts(ps);
    assert forall i :: 0 <= i < |clean| ==> InPricingRange(clean[i]) by {
      forall i | 0 <= i < |clean| ensures InPricingRange(clean[i]) {
        assert ProductAcceptable(ps[i]);
      }
    }
    InvoiceController.PriceInvoiceNonNegative(clean);
  }

  /** Every line the controller prices from an accepted request passes the
      invoice schema, so validation rules out the schema's rejections. */
  lemma AcceptedProductsPassSchema(ps: seq<Product>)
    requires ValidateProducts(Some(ps)) == []
    ensures InvoiceModel.AllLinesAccepted(InvoiceController.PriceInvoice(SanitizeProducts(ps)).products)
  {
    var clean := SanitizeProducts(ps);
    var lines := InvoiceController.PriceInvoice(clean).products;
    forall i | 0 <= i < |lines| ensures InvoiceModel.ProductSchemaAccepts(lines[i]) {
      assert ProductAcceptable(ps[i]);
      assert Payload(lines[i]) == clean[i];
      TrimIdempotent(ps[i].name);
    }
  }

  // ----- the error middleware -----

  datatype Response = Next | BadRequest(status: nat, success: bool, message: string, errors: seq<string>)

  function Messages(errs: seq<FieldError>): (msgs: seq<string>)
    ensures |msgs| == |errs| && forall i :: 0 <= i < |errs| ==> msgs[i] == errs[i].msg
  {
    seq(|errs|, i requires 0 <= i < |errs| => errs[i].msg)
  }

  /** `handleValidationErrors`: with no errors the request goes on; with any
      error it is answered with status 400, `success: false`, and every error
      message, in the order the rules produced them. */
  function HandleValidationErrors(errs: seq<FieldError>): (r: Response)
    ensures r.Next? <==> errs == []
    ensures r.BadRequest? ==>
      r.status == 400 && !r.success && r.message == "Validation failed"
      && |r.errors| == |errs| && forall i :: 0 <= i < |errs| ==> r.errors[i] == errs[i].msg
  {
    if errs != [] then BadRequest(400, false, "Validation failed", Messages(errs)) else Next
  }

  /** A product request reaches the controller exactly when it passes every rule. */
  lemma ProductsRequestPasses(products: Option<seq<Product>>)
    ensures HandleValidationErrors(ValidateProducts(products)).Next? <==>
      products.Some? && |products.value| >= 1
      && forall i :: 0 <= i < |products.value| ==> ProductAcceptable(products.value[i])
  {
  }
}
