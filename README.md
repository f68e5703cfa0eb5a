# Invoice generator core, modelled in Dafny

The application is a small invoicing system: a React client keeps a list of
invoice lines and a login session, and an Express/MongoDB backend validates
requests, prices the lines, numbers and stores the invoice and renders a PDF.
This project models the sequential logic inside that plumbing, and proves
properties of the model:

- **Pricing and aggregation** (module `InvoiceController`). Every product
  gets `total = qty * rate` and `gst = total * 0.18`. The invoice carries
  the sum of the totals, the sum of the line GST, and their sum.
- **The products slice** (module `ProductsSlice`). `CalculateTotals` finds
  the GST as 18% of the amount. The class `ProductsState` holds the list and
  its three amounts, and its methods are the `addProduct`, `removeProduct`,
  `updateProduct` and `clearProducts` reducers.
- **The invoice model** (module `InvoiceModel`). It covers:
  - the number format `INV-` + `(count + 1)`, left-padded with `0` to at least six digits;
  - the pre-save hook that gives a new document its number;
  - a collection of stored invoices;
  - the product schema's bounds.
- **Request validation** (module `Validation`). It covers the registration,
  login and product rule chains, and the middleware that turns their errors
  into a 400 response.
- **The auth slice** (module `AuthSlice`). Browser storage is a class over a
  map. `getStoredUser` reads from it. The class `AuthState` is the session:
  its constructor is `initialState`, and its methods are the four reducers.
- Shared records live in `Types`. The JavaScript string built-ins the core
  relies on (`trim`, `padStart`, `toString` on integers) live in `JsString`.

JavaScript numbers are modelled as exact reals (`real`). The JSON parser and
serializer and the e-mail syntax check are parameters of the members that use
them.

The number is padded to *at least* six digits: `padStart` pads to at least
six digits and never truncates, so the millionth invoice gets seven. The model follows the code:
`InvoiceModel.FormatInvoiceNumberKeepsAllDigits` proves the longer form, and
`InvoiceModel.SortOrderBreaksAtOneMillion` shows that from that point on the
numbers no longer sort as strings in creation order.

## Model

| member | source | states |
|---|---|---|
| InvoiceController.Price | backend/src/controllers/invoiceController.ts:17-25 | a priced line keeps the submitted name, qty and rate, with total = qty * rate and gst = total * 0.18 |
| InvoiceController.PricedIffPriceOfPayload | backend/src/controllers/invoiceController.ts:18-24 | a line item is priced exactly when it equals the pricing of its own submitted fields |
| InvoiceController.PriceBounds | backend/src/controllers/invoiceController.ts:18-19 | with qty >= 1 and rate >= 0 a line's gst is between 0 and its total, and its total is at least its rate |
| InvoiceController.ProcessProducts | backend/src/controllers/invoiceController.ts:17-25 | the map keeps the length, the order and each item's fields, and every output line is priced |
| InvoiceController.SumTotals | backend/src/controllers/invoiceController.ts:27 | the left-to-right `reduce` of the line totals from 0; split over a concatenation by SumTotalsConcat, bounded below by SumTotalsNonNegative and SumTotalsAtLeastEach |
| InvoiceController.SumGst | backend/src/controllers/invoiceController.ts:28 | the left-to-right `reduce` of the line GST from 0; on priced lines 0.18 times SumTotals (SumGstIsRateTimesSumTotals) |
| InvoiceController.InvoiceTotals | backend/src/controllers/invoiceController.ts:27-29 | the amount is SumTotals, the GST is SumGst, the grand total their sum; zeros on no lines (InvoiceTotalsEmpty) |
| InvoiceController.SumTotalsConcat | backend/src/controllers/invoiceController.ts:27 | the left-to-right sum of totals splits over a concatenation |
| InvoiceController.SumGstIsRateTimesSumTotals | backend/src/controllers/invoiceController.ts:17-28 | on priced lines the summed line GST equals 0.18 times the summed totals |
| InvoiceController.SumTotalsNonNegative | backend/src/controllers/invoiceController.ts:27 | lines with non-negative totals sum to a non-negative amount |
| InvoiceController.SumTotalsAtLeastEach | backend/src/controllers/invoiceController.ts:27 | lines with non-negative totals sum to at least each line's total |
| InvoiceController.InvoiceTotalsEmpty | backend/src/controllers/invoiceController.ts:27-29 | the sums start from 0, so no lines give three zero amounts |
| InvoiceController.PriceInvoice | backend/src/controllers/invoiceController.ts:17-29 | lines in order with fields kept and priced; totalAmount is the sum of totals; totalGST is the sum of line GST and equals totalAmount * 0.18; grandTotal = totalAmount + totalGST; an empty list gives zeros |
| InvoiceController.PriceInvoiceNonNegative | backend/src/controllers/invoiceController.ts:18-29 | when every item has qty >= 1 and rate >= 0 no amount is negative, grandTotal >= totalAmount, and totalAmount is at least each item's rate |
| InvoiceController.OneLineInvoice | backend/src/controllers/invoiceController.ts:17-29 | 2 at 100 gives 200 / 36 / 236 |
| InvoiceController.TwoLineInvoice | backend/src/controllers/invoiceController.ts:17-29 | 1 at 50 and 3 at 10 give 80 / 14.4 / 94.4 |
| ProductsSlice.LineSum | frontend/src/store/slices/productsSlice.ts:12-15 | the left-to-right `reduce` of qty * rate from 0; on priced lines it is the sum of the stored totals (LineSumIsSumOfTotals), and it splits over a concatenation (LineSumConcat) and around one line (LineSumAt) |
| ProductsSlice.CalculateTotals | frontend/src/store/slices/productsSlice.ts:11-21 | totalAmount is the left-to-right sum of qty * rate, totalGST is totalAmount * 0.18 and grandTotal their sum; on priced lines it equals the controller's totals (SliceTotalsMatchBackend) |
| ProductsSlice.CalculateTotalsEmpty | frontend/src/store/slices/productsSlice.ts:11-21 | the totals of no lines are all 0, the values clearProducts stores |
| ProductsSlice.LineSumIsSumOfTotals | frontend/src/store/slices/productsSlice.ts:12-15 | on priced lines the slice's sum of qty * rate equals the sum of the stored totals |
| ProductsSlice.SliceTotalsMatchBackend | frontend/src/store/slices/productsSlice.ts:11-21 | on priced lines the slice's totals, with GST as 18% of the amount, are the controller's, with GST summed per line |
| ProductsSlice.ShownTotalsAreInvoiceTotals | frontend/src/store/slices/productsSlice.ts:11-21 | the figures the client shows for a list of products are those the backend computes for the same products |
| ProductsSlice.SpliceStart | frontend/src/store/slices/productsSlice.ts:51 | splice's start index: kept when in range, clamped to the length above, counted back from the end (and clamped to 0) when negative |
| ProductsSlice.SpliceOne | frontend/src/store/slices/productsSlice.ts:51 | splice(i, 1) removes exactly item i when it is in range, changes nothing at or past the end, and shortens a non-empty list by one otherwise |
| ProductsSlice.LineSumConcat | frontend/src/store/slices/productsSlice.ts:12-15 | the slice's sum splits over a concatenation |
| ProductsSlice.LineSumAt | frontend/src/store/slices/productsSlice.ts:12-15 | the sum is the part before line i, plus line i, plus the rest |
| ProductsSlice.RemoveLowersAmount | frontend/src/store/slices/productsSlice.ts:50-56 | removing line i lowers the amount by exactly that line's qty * rate |
| ProductsSlice.ReplaceChangesAmount | frontend/src/store/slices/productsSlice.ts:58-72 | replacing line i changes the amount by the new line's qty * rate minus the old one's |
| ProductsSlice.SpliceKeepsPriced | frontend/src/store/slices/productsSlice.ts:51 | removing a line leaves every other line priced |
| ProductsSlice.ProductsState.constructor | frontend/src/store/slices/productsSlice.ts:23-28 | the initial state has no lines and zero amounts, and satisfies the invariant (every line priced, amounts equal to calculateTotals) |
| ProductsSlice.ProductsState.AddProduct | frontend/src/store/slices/productsSlice.ts:34-49 | appends exactly the priced line at the end, leaves earlier lines alone, raises the amount by qty * rate, and keeps the invariant |
| ProductsSlice.ProductsState.RemoveProduct | frontend/src/store/slices/productsSlice.ts:50-57 | the list becomes splice(index, 1) of the old one, an in-range index lowers the amount by that line's qty * rate, and the invariant is kept |
| ProductsSlice.ProductsState.UpdateProduct | frontend/src/store/slices/productsSlice.ts:58-73 | an in-range index replaces only that line with its priced form and moves the amount by the difference; an index equal to the length appends; a negative index changes no line; the invariant is kept |
| ProductsSlice.ProductsState.ClearProducts | frontend/src/store/slices/productsSlice.ts:74-79 | from any state: no lines, three zero amounts, and the invariant holds |
| ProductsSlice.ProductsState.ShownTotals | frontend/src/store/slices/productsSlice.ts:17 | in a valid state the stored GST is the sum of the stored per-line GST, and the stored totals are the backend's for those lines |
| InvoiceModel.FormatInvoiceNumber | backend/src/models/Invoice.ts:68 | the number starts with "INV-", has at least six characters after it, and all of them are digits |
| InvoiceModel.ParseInvoiceNumber | backend/src/models/Invoice.ts:68 | a number is read back only from a string that starts with the prefix |
| InvoiceModel.ParseFormatInvoiceNumber | backend/src/models/Invoice.ts:68 | round trip: the digits after the prefix read back as count + 1 |
| InvoiceModel.FormatInvoiceNumberInjective | backend/src/models/Invoice.ts:67-68 | distinct counts give distinct numbers |
| InvoiceModel.FormatInvoiceNumberFixedWidth | backend/src/models/Invoice.ts:68 | for count + 1 <= 999999 the number is exactly ten characters |
| InvoiceModel.FormatInvoiceNumberKeepsAllDigits | backend/src/models/Invoice.ts:68 | for count + 1 >= 1000000 the number is the prefix and every digit of count + 1, with no padding |
| InvoiceModel.DigitOrderIsNumericOrder | backend/src/models/Invoice.ts:68 | equal-width digit strings compare in dictionary order as their values do |
| InvoiceModel.SameValueSameDigits | backend/src/models/Invoice.ts:68 | equal-width digit strings with equal values are equal |
| InvoiceModel.NumberDigitsCompare | backend/src/models/Invoice.ts:67-68 | below a million, two numbers have digit parts of equal width that read as the two counts plus one |
| InvoiceModel.NumberSplits | backend/src/models/Invoice.ts:68 | a number is the prefix followed by its digit part |
| InvoiceModel.FormatInvoiceNumberSorts | backend/src/models/Invoice.ts:67-68 | below a million, an earlier count gives a number that sorts first as a string |
| InvoiceModel.SortOrderBreaksAtOneMillion | backend/src/models/Invoice.ts:68 | INV-999999 is followed by INV-1000000, which sorts before it as a string |
| InvoiceModel.ProductSchemaAccepts | backend/src/models/Invoice.ts:4-19 | a line passes the product schema when its name is not blank after trimming, qty >= 1 and rate >= 0; every line of an accepted request passes (AcceptedProductsPassSchema) |
| InvoiceModel.InvoiceDocument.constructor | backend/src/models/Invoice.ts:30-62 | a new document has no number yet and holds the given lines and totals |
| InvoiceModel.InvoiceDocument.PreSave | backend/src/models/Invoice.ts:65-71 | a new document gets the number formatted from the count; one that is not new keeps its number |
| InvoiceModel.InvoiceCollection.constructor | backend/src/models/Invoice.ts:73 | the collection starts empty and satisfies its invariant |
| InvoiceModel.DocumentValid | backend/src/models/Invoice.ts:49-53 | a document passes validation when it has its required number and every line passes the product schema; without a number it fails (AcceptableInvoiceRefusedAsWritten), with a formatted one only the lines decide (NumberedDocumentValid) |
| InvoiceModel.NumberedDocumentValid | backend/src/models/Invoice.ts:49-53 | once a document carries a formatted number, validation depends on its lines alone |
| InvoiceModel.AcceptableInvoiceRefusedAsWritten | backend/src/models/Invoice.ts:49-53 | a one-line invoice whose line is within the product schema's bounds still fails validation while it has no number |
| InvoiceModel.InvoiceCollection.SaveNew | backend/src/models/Invoice.ts:49-71 | saving a new document validates it as it is (the number is required) before the pre-save hook: it succeeds exactly when the document already has a number and every line is within the schema's bounds; then it is appended under the number formatted from the stored count; on failure nothing is stored; the saved document then carries that number and is no longer new, while a refused one keeps its number and stays new; the collection invariant is kept |
| InvoiceModel.InvoiceCollection.CreateAsWritten | backend/src/controllers/invoiceController.ts:32-38 | `Invoice.create` with no number, as the controller calls it: validation always fails and nothing is stored |
| InvoiceModel.InvoiceCollection.Create | backend/src/models/Invoice.ts:4-71 | `Invoice.create` with the number assigned before validation, the evidently intended order: saving succeeds exactly when every line has a non-blank name, qty >= 1 and rate >= 0; on success the invoice is appended under the number formatted from the stored count; on failure nothing is stored; the invariant (position k holds number k, every stored line is within the schema's bounds) is kept |
| InvoiceModel.StoredNumbersDistinct | backend/src/models/Invoice.ts:49-68 | under the collection's invariant no two stored invoices share a number |
| JsString.Trim | backend/src/middleware/validation.ts:6 | `String.prototype.trim`: white space removed at both ends; characterized by TrimShape, TrimEmptyIffAllWhiteSpace and TrimIdempotent |
| JsString.TrimStartShape | backend/src/middleware/validation.ts:33 | trimming the start keeps a suffix, removes only white space, and leaves no white space in front |
| JsString.TrimEndShape | backend/src/middleware/validation.ts:33 | trimming the end keeps a prefix, removes only white space, and leaves no white space at the end |
| JsString.TrimShape | backend/src/middleware/validation.ts:33 | trim keeps a contiguous piece with only white space around it, and the piece has no white space at either end |
| JsString.TrimEmptyIffAllWhiteSpace | backend/src/middleware/validation.ts:33-34 | a string trims to nothing exactly when it is all white space |
| JsString.TrimIdempotent | backend/src/middleware/validation.ts:33 | trimming an already trimmed string changes nothing |
| JsString.PadStart | backend/src/models/Invoice.ts:68 | padStart(width, c) keeps the whole string at the end, puts copies of c in front, and has length max(width, length) |
| JsString.NatToString | backend/src/models/Invoice.ts:68 | toString of a non-negative integer is a non-empty digit string with no leading 0 except for 0 itself |
| JsString.ParseNatToString | backend/src/models/Invoice.ts:68 | reading the decimal back gives the number |
| JsString.NatToStringInjective | backend/src/models/Invoice.ts:68 | distinct numbers have distinct decimals |
| JsString.ParseDigitsConcat | backend/src/models/Invoice.ts:68 | reading a concatenation shifts the left part by the width of the right part |
| JsString.ParseLeadingZeros | backend/src/models/Invoice.ts:68 | leading zeros do not change the value read |
| JsString.NatToStringLength | backend/src/models/Invoice.ts:68 | the decimal of n has at most k digits exactly when n < 10^k |
| Validation.Rule | backend/src/middleware/validation.ts:4-42 | one rule gives no error when it holds, and exactly its own error when it does not |
| Validation.RegistrationNameOk | backend/src/middleware/validation.ts:5-8 | the trimmed name measures 2 to 50 as `isLength` counts; a white-space name fails (WhiteSpaceNameRefused) |
| Validation.ValidatorLength | backend/src/middleware/validation.ts:6-7 | the length `isLength` measures is at most the number of characters |
| Validation.ValidatorLengthPlain | backend/src/middleware/validation.ts:6-7 | without U+FE0E or U+FE0F the measured length is the number of characters |
| Validation.SelectorNotCounted | backend/src/middleware/validation.ts:13-14 | "12345" followed by U+FE0F has six characters but measures 5, so it is too short for a password |
| Validation.ValidateRegistration | backend/src/middleware/validation.ts:4-16 | no errors exactly when the trimmed name measures 2 to 50, the e-mail is valid and the password measures at least 6 (as `isLength` counts); each rule's error is present exactly when that rule fails; at most three errors |
| Validation.WhiteSpaceNameRefused | backend/src/middleware/validation.ts:5-8 | a name of only white space is refused, whatever its length |
| Validation.ValidateLogin | backend/src/middleware/validation.ts:18-26 | no errors exactly when the e-mail is valid and the password is not empty; the e-mail error is present exactly when the e-mail is invalid; the password error is present exactly when it is empty; at most two errors |
| Validation.FieldOk | backend/src/middleware/validation.ts:32-41 | the per-element rule for one field: non-blank trimmed name, qty an integer >= 1, rate >= 0; decides each element's error (ProductErrorAt), with qty 0 refused and rate 0 accepted (ZeroQtyRefusedZeroRateAccepted) |
| Validation.ProductAcceptable | backend/src/middleware/validation.ts:32-41 | an element passes all three field rules; all elements do exactly when the wildcard rules report nothing (WildcardRulesPass) |
| Validation.Outcomes | backend/src/middleware/validation.ts:32-41 | one outcome per element, true exactly when the element passes the rule |
| Validation.OutcomeErrors | backend/src/middleware/validation.ts:32-41 | no errors exactly when every outcome passes; every error is at an element index, with the rule's field and message |
| Validation.OutcomeErrorAt | backend/src/middleware/validation.ts:32-41 | element i has an error exactly when its outcome fails |
| Validation.OutcomeErrorsOrdered | backend/src/middleware/validation.ts:32-41 | errors come in increasing element order |
| Validation.WildcardErrors | backend/src/middleware/validation.ts:32-41 | a wildcard rule gives no errors exactly when every element passes it, and each error is at an element with the rule's field and message |
| Validation.WildcardErrorsOrdered | backend/src/middleware/validation.ts:32-41 | a wildcard rule's errors come in element order |
| Validation.WildcardErrorAt | backend/src/middleware/validation.ts:32-41 | element i has the rule's error exactly when it fails the rule |
| Validation.WildcardRulesPass | backend/src/middleware/validation.ts:32-41 | the three wildcard rules all pass exactly when every element has a non-blank name, a whole qty >= 1 and a rate >= 0 |
| Validation.ElementErrorsFirst | backend/src/middleware/validation.ts:32-41 | the wildcard rules' errors start, when there are any, with an error at an element |
| Validation.ValidateProducts | backend/src/middleware/validation.ts:28-42 | no errors exactly when products is an array with at least one element and every element is acceptable; the array error comes first exactly when products is not an array or is empty |
| Validation.OtherFieldNotReported | backend/src/middleware/validation.ts:32-41 | a wildcard rule reports no error at another rule's field |
| Validation.ElementErrorIn | backend/src/middleware/validation.ts:28-42 | an element error is in the full list exactly when one of the three wildcard rules reports it |
| Validation.ProductErrorAt | backend/src/middleware/validation.ts:32-41 | element i has a rule's error in the full list exactly when it fails that rule |
| Validation.ZeroQtyRefusedZeroRateAccepted | backend/src/middleware/validation.ts:36-41 | a qty of 0 is refused and a rate of 0 is accepted |
| Validation.WhiteSpaceProductNameRefused | backend/src/middleware/validation.ts:32-35 | a product name of only white space is refused |
| Validation.SanitizeProducts | backend/src/middleware/validation.ts:33 | the sanitizer replaces each name by its trimmed form and keeps qty and rate |
| Validation.AcceptedProductsArePriceable | backend/src/middleware/validation.ts:28-42 | an accepted request is a non-empty list whose items have qty >= 1, rate >= 0, a whole qty and a non-blank name |
| Validation.AcceptedInvoiceTotalsNonNegative | backend/src/middleware/validation.ts:28-42 | pricing an accepted request gives no negative amount and a grand total of at least the amount |
| Validation.AcceptedProductsPassSchema | backend/src/middleware/validation.ts:28-42 | every line priced from an accepted request passes the invoice product schema |
| Validation.Messages | backend/src/middleware/validation.ts:48 | one message per error, in order |
| Validation.HandleValidationErrors | backend/src/middleware/validation.ts:44-57 | the request continues exactly when there are no errors; otherwise the answer is 400, success false, "Validation failed", and every message in order |
| Validation.ProductsRequestPasses | backend/src/middleware/validation.ts:28-57 | a product request reaches the controller exactly when products is a non-empty array of acceptable items |
| AuthSlice.Lookup | frontend/src/store/slices/authSlice.ts:13 | getItem yields the stored string when the key is present and null otherwise |
| AuthSlice.AfterUserRead | frontend/src/store/slices/authSlice.ts:12-21 | getStoredUser removes the user entry exactly when the entry is non-empty and the parser throws, and touches no other key |
| AuthSlice.StoredUser | frontend/src/store/slices/authSlice.ts:12-21 | nothing when the user entry is missing or empty or the parser throws, otherwise what it parses to; found exactly as StoredUserFound states, and stable under a second read (ReadUserTwice) |
| AuthSlice.StoredUserFound | frontend/src/store/slices/authSlice.ts:12-21 | a stored user is found exactly when the entry is present, not empty, and parses to a user |
| AuthSlice.ReadUserTwice | frontend/src/store/slices/authSlice.ts:24-26 | a second getStoredUser gives the first one's answer and leaves storage as the first one left it |
| AuthSlice.ReloadAfterLogin | frontend/src/store/slices/authSlice.ts:37-75 | after loginSuccess's writes, when the serializer's output parses back, the next load finds the user and is signed in exactly when the token is not empty |
| AuthSlice.NothingStoredAfterLogout | frontend/src/store/slices/authSlice.ts:53-67 | after logout's removals no stored user or token is found |
| AuthSlice.LocalStorage.GetItem | frontend/src/store/slices/authSlice.ts:13 | getItem finds a value exactly when the key is stored, and then it is the stored value |
| AuthSlice.LocalStorage.SetItem | frontend/src/store/slices/authSlice.ts:47-48 | setItem stores the value under the key and keeps the rest |
| AuthSlice.LocalStorage.RemoveItem | frontend/src/store/slices/authSlice.ts:62-63 | removeItem drops the key and keeps the rest |
| AuthSlice.GetStoredUser | frontend/src/store/slices/authSlice.ts:12-21 | null for a missing or empty entry; when parsing throws, the entry is removed and null returned; otherwise the parsed value |
| AuthSlice.AuthState.constructor | frontend/src/store/slices/authSlice.ts:23-28 | the initial user is the stored user and the token is the stored token; signed in exactly when the token is truthy and a user was found; not loading; the invariant holds |
| AuthSlice.AuthState.SetLoading | frontend/src/store/slices/authSlice.ts:34-36 | only the loading flag changes |
| AuthSlice.AuthState.LoginSuccess | frontend/src/store/slices/authSlice.ts:37-52 | the user and token are set, signed in, not loading, both keys written and the rest of storage kept |
| AuthSlice.AuthState.Logout | frontend/src/store/slices/authSlice.ts:53-67 | no user or token, both flags off, both keys removed and the rest of storage kept |
| AuthSlice.AuthState.LoadUserFromStorage | frontend/src/store/slices/authSlice.ts:68-84 | signed in exactly when the stored token is truthy and a stored user is found, and then the state holds them; otherwise user and token are cleared and both keys removed; the loading flag is kept; the invariant (signed in implies a user and a token) is kept |

## Left out

- IEEE-754 rounding: amounts are exact reals, so the proved equalities (for
  example totalGST == totalAmount * 0.18) hold over exact arithmetic, not
  bit for bit on JavaScript numbers.
- PDF rendering, the HTML template, HTTP responses, headers and base64
  encoding around the pricing step: presentation and I/O.
- The `countDocuments` call and its race: the count is a parameter of
  `PreSave`; `Create` and `SaveNew` supply the number of stored invoices,
  as a single sequential writer would see it. The
  unique index on the number is modelled only through that invariant.
- `InvoiceModel.InvoiceCollection.Create`: Mongoose runs validation ahead
  of the schema's own pre-save hooks, so the program as written refuses every
  new invoice for its missing required number (see Findings), and the
  controller answers 500. `Create` models the evidently intended order, a
  number assigned before validation; `CreateAsWritten` models the order as
  written. Mongoose's error messages are not modelled. The schema's `trim`
  setter on stored names is not applied; the schema check trims when it
  tests for a blank name.
- The `user` field and the three required amounts are always supplied by the
  controller and are not part of the document check.
- The e-mail syntax check (`isEmail`) and `normalizeEmail`: the check is a
  parameter, and the e-mail is not rewritten.
- String-to-number coercion in `isInt` and `isFloat`: values are already
  typed. `None` stands for a `products` field that is missing or not an
  object; a plain object, whose values the wildcard rules still visit, is not
  modelled. A missing or mistyped field inside a product is not modelled.
- `isLength` measures the UTF-16 length, less one per surrogate pair and
  one per U+FE0E or U+FE0F. Each `char` here is one code point, so the
  model counts characters and leaves out the two selectors.
- `JsString.NatToString`: JavaScript's `toString` switches to exponent
  notation from 1e21, and `count + 1` is no longer exact past 2^53; the model
  writes every count in plain decimal, exactly.
- An error object's fields other than its path and message (`type`, `value`,
  `location`) are not modelled.
- The try/catch around `setItem` and `removeItem`: storage writes always
  succeed.
- `JSON.parse` and `JSON.stringify` are parameters. A parsed value that is
  falsy (`null`, `false`, `0`, `""`) is treated as no user. A parsed truthy
  value that is not a user record is not modelled.
- `ProductsSlice.ProductsState.UpdateProduct`: an index beyond the length,
  which would leave holes in a JavaScript array, is excluded by its
  precondition.
- Redux wiring, React pages, routing and the API client: UI and
  configuration.

## Findings

| source | as written | input that shows it | evidently intended | confidence | as-written member | corrected member |
|---|---|---|---|---|---|---|
| backend/src/models/Invoice.ts:49-71 | `invoiceNumber` is required, `Invoice.create` passes none, and the number is set only in `pre('save')`, which Mongoose runs after validation | any invoice, e.g. one line "A", qty 1, rate 5 | the number is assigned before validation (for example in `pre('validate')`), so a valid invoice is stored | not executed | InvoiceModel.InvoiceCollection.CreateAsWritten, InvoiceModel.AcceptableInvoiceRefusedAsWritten | InvoiceModel.InvoiceCollection.Create |
