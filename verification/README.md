# Billing ledger: invoices and payments in integer cents

A Dafny model of a small billing ledger. An invoice carries a total owed in
integer cents and the payments saved against it. The balance is derived from
the saved payments on every call and is clamped at zero. A payment is recorded
by converting an exact decimal dollar amount to cents and normalising the
payment method the caller supplies (a String or a Symbol) against a closed
table `{cash: 1, check: 2, charge: 3}`. The payment is then validated, and it is
saved only when it is valid.

Modules:

- `Wrappers` (`wrappers.dfy`): `Option` (Ruby's `nil`) and `Result` (a value or a raised error).
- `Money` (`money.dfy`): the conversions `dollars_to_cents` and `cents_to_dollars`.
  A decimal is an integer mantissa with a base-10 scale, so every value is exact.
  Rounding to cents is ROUND_HALF_UP, the default mode of BigDecimal's `round`.
  The value is non-negative at that point, so a tie of exactly half a cent goes
  up: 0.005 gives 1 and 0.025 gives 3.
- `Payments` (`payment.rb` → `payment.dfy`): the method table and its reverse lookup.
  Also ASCII `strip` and `downcase`, `normalize_method`, the before-validation hook,
  the four validation rules, and the `Payment` record as a class. The invoice
  reference, the amount and the raw method are fixed when the payment is built.
  The stored method code and the error set are written by validation.
- `Invoices` (`invoice.rb` → `invoice.dfy`): the `Invoice` class. Its `total`
  field holds the total in cents and its `saved` field is the sequence of saved
  payments. It has the balance functions and `record_payment`.

Errors are sets of error kinds, one kind per failed rule. A raised `ArgumentError`
is the `Failure` arm of a `Result`. A store failure during `save` (the rescued
`ActiveRecordError`) is the `storeFails` parameter of `RecordPayment`.

Two behaviours of the code worth noting:

- An invalid payment is returned carrying its validation errors. `save` returns
  false and raises nothing, so no base error is added. Only a failure of the
  store itself adds the base error.
- The total can be reassigned through `invoice_total_dollars=`.

## Model

| member | source | states |
|---|---|---|
| `Money.RoundHalfUp` | invoice.rb:58 | the quotient is n/d rounded to the nearest integer, a tie going up |
| `Money.DollarsToCents` | invoice.rb:52-59 | nil fails with AmountRequired and a negative amount with AmountNegative. Otherwise the result is a non-negative integer: value × 100 rounded half-up |
| `Money.CentsToDollars` | invoice.rb:61-63 | the decimal's exact value is cents / 100 |
| `Money.HalfUpCentsUnique` | invoice.rb:58 | the half-up rounding of an amount is a single integer, so the conversion is determined by the rounding rule |
| `Money.CentsRoundTrip` | invoice.rb:52-63 | dollars_to_cents(cents_to_dollars(c)) == c for every c ≥ 0. A negative c fails as negative |
| `Money.WholeCentsExact` | invoice.rb:52-63 | an amount with at most two fractional digits converts without rounding (4.50 gives 450), and converting back gives the same value |
| `Money.HalfUpExamples` | invoice.rb:58 | 0.005 → 1, 0.004 → 0, and 0.025 → 3 (not 2) |
| `Money.ConversionExamples` | invoice.rb:52-58 | 4.50 → 450 and 0 → 0. −5 fails as negative and nil fails as required |
| `Payments.MethodCode` | payment.rb:34 | `METHODS[key]` gives a code exactly when the key is in the table. That code is one of {1, 2, 3}, and `payment_method` reads it back as the same key |
| `Payments.MethodName` | payment.rb:26-28 | the reverse lookup gives a key whose code is the given one, and nil exactly when the code is not a value of the table |
| `Payments.MethodTableBijective` | payment.rb:2-6 | the table's values are {1, 2, 3}. It is injective, and the reverse lookup inverts it and is defined exactly on {1, 2, 3} |
| `Payments.DowncaseLowers` | payment.rb:43 | `downcase` keeps the length and lower-cases each letter. No upper-case letter remains, and applying it twice changes nothing |
| `Payments.StripLeft` | payment.rb:43 | the result is a suffix that starts with a non-space character, and everything dropped is whitespace |
| `Payments.StripRight` | payment.rb:43 | the result is a prefix that ends with a non-space character, and everything dropped is whitespace |
| `Payments.Strip` | payment.rb:43 | the result has no whitespace at either end, and it is empty exactly when the input is all whitespace |
| `Payments.StripPadding` | payment.rb:43 | stripping any whitespace padding around a word with non-space ends gives back the word |
| `Payments.Normalize` | payment.rb:42-46 | a key exists exactly for Strings and Symbols, and a value without `to_sym` gives nil without raising. A Symbol is kept. A String's key is empty exactly when the String is blank |
| `Payments.NormalizedStringShape` | payment.rb:43 | the key made from a String has no upper-case letter and no whitespace at either end |
| `Payments.NormalizeTrimmed` | payment.rb:42-43 | a String with no whitespace at its ends is present and normalises to its lower-case form |
| `Payments.PresentIffKeyNonEmpty` | payment.rb:21-23 | `present?` holds for a String or Symbol exactly when its normalised key is not empty. nil is blank, and any other value is present with no key |
| `Payments.ResolvedCodeReadsBack` | payment.rb:33-34 | a resolved code is one of {1, 2, 3} and reads back as the normalised key. There is no code exactly when normalisation fails or the key is not in the table |
| `Payments.HookOverwritesOnlyWhenPresent` | payment.rb:23-35 | the hook keeps the stored code when the raw method is blank. Otherwise it stores nothing, or a code that reads back as the normalised key, and nothing for an unknown key |
| `Payments.ResolveIgnoresCaseAndPadding` | payment.rb:32-46 | any case variant of a method name, padded with any whitespace, is present and resolves to the same code as the Symbol |
| `Payments.CapitalisedCash` | payment.rb:32-46 | "Cash" resolves to code 1 |
| `Payments.PaddedCash` | payment.rb:32-46 | " cash " resolves to code 1, the same code as :cash |
| `Payments.UnsupportedExamples` | payment.rb:37-46 | "bitcoin" is present but resolves to no code. A value without `to_sym` resolves to none |
| `Payments.ValidationErrors` | payment.rb:13-21 | each error kind is reported exactly when its rule fails. The invoice must be present and the amount at least 1. The code must read back through the table. A present raw method must normalise to a key of the table. The base error is never a validation error |
| `Payments.InvoiceRule` | payment.rb:13 | reports only InvoiceMissing, and reports nothing exactly when the invoice is present |
| `Payments.AmountRule` | payment.rb:14-16 | reports only AmountInvalid, and reports nothing exactly when the amount is an integer of at least 1 |
| `Payments.CodeRule` | payment.rb:17-19 | reports only MethodIdInvalid, and reports nothing exactly when `payment_method` finds a key for the code |
| `Payments.RawRule` | payment.rb:21 | reports only RawMethodUnsupported, and reports nothing exactly when the raw method is blank or normalises to a key of the table |
| `Payments.ValidIff` | payment.rb:13-23 | after the hook a payment has no errors if and only if all of these hold: the invoice is present, the amount is positive, and the method resolves. The method resolves through the raw method when that is present, and otherwise through the stored code in {1, 2, 3} |
| `Payments.UnsupportedRawRejected` | payment.rb:17-40 | a present raw method that is not in the table leaves no stored code. It is reported both on the code and on the raw method |
| `Payments.BlankRawSkipped` | payment.rb:21-23 | a blank raw method keeps the stored code and never adds the raw-method error. With no code stored, the code rule fails |
| `Payments.ZeroAmountRejected` | payment.rb:14-16 | an amount of 0 fails validation whatever else holds |
| `Payments.Payment.constructor` | payment.rb:8-11 | a newly built payment has the given invoice, amount and raw method, no stored code and no errors |
| `Payments.Payment.PaymentMethod` | payment.rb:26-28 | gives a key exactly when the stored code is one of the table's. That key maps to the stored code |
| `Payments.Payment.SetPaymentMethodId` | payment.rb:32-35 | the stored code becomes `METHODS[normalize_method(raw)]`, possibly nil |
| `Payments.Payment.RawPaymentMethodIsValid` | payment.rb:37-40 | adds the raw-method error exactly when the normalised key is not in the table. Other errors are kept |
| `Payments.Payment.Validate` | payment.rb:13-23 | the stored code is overwritten by the hook only when the raw method is present. The errors are exactly the failed rules, and the result is true exactly when there are none |
| `Invoices.SumAmounts` | invoice.rb:27 | payments that each have a positive amount sum to at least one cent per payment |
| `Invoices.SumAppend` | invoice.rb:27 | saving one more payment adds exactly its amount to the sum of saved amounts |
| `Invoices.SumNonNegative` | invoice.rb:27 | payments with positive amounts sum to at least zero |
| `Invoices.Invoice.constructor` | invoice.rb:1-7 | a new invoice has the given total and no saved payments |
| `Invoices.Invoice.TotalIsValid` | invoice.rb:5-7 | a total passes the `invoice_total` validation exactly when its dollar form converts back without error |
| `Invoices.Invoice.TotalDollars` | invoice.rb:12-14 | the exact value is total / 100. For a valid total it converts back to the total |
| `Invoices.Invoice.SetTotalDollars` | invoice.rb:16-18 | a conversion error is raised and leaves the total unchanged. Otherwise the total becomes the converted cents and passes the `invoice_total` validation, and a whole-cent amount reads back as the same value. The ledger invariant is kept |
| `Invoices.Invoice.AmountOwedCents` | invoice.rb:26-28 | the result is never negative. It is total − Σ saved amounts when the payments do not exceed the total, and 0 when they do. It is never more than a valid total |
| `Invoices.Invoice.FullyPaid` | invoice.rb:21-23 | true exactly when the saved amounts sum to at least the total |
| `Invoices.Invoice.AmountOwedDollars` | invoice.rb:31-33 | the exact value is the balance / 100, and it converts back to the balance |
| `Invoices.Invoice.Save` | invoice.rb:42-47 | an invalid payment keeps exactly its validation errors and nothing is saved. If the store fails on a valid payment, that payment gets only the base error and nothing is saved. Otherwise exactly this payment is appended. The ledger invariant and the total are kept |
| `Invoices.Invoice.RecordPayment` | invoice.rb:36-48 | a conversion error propagates with the saved payments unchanged. Otherwise the returned payment is a new one with the converted amount, the raw method and the hooked code, and it is saved as `Save` states. The total is unchanged, the balance never grows, and a fully paid invoice stays fully paid |
| `Invoices.TwoPaymentsScenario` | invoice.rb:20-48 | on a $10.00 invoice, $4.50 in cash leaves 550 cents ($5.50) and the invoice is not fully paid. $5.50 more by check leaves 0 and it is fully paid |
| `Invoices.OverpaymentScenario` | invoice.rb:20-28 | on a 500-cent invoice, paying 700 cents leaves 0 owed and the invoice is fully paid |

## Left out

- Persistence is not modelled. That covers ActiveRecord ids, `inverse_of`, the
  database `SUM` query (the sum is over the in-memory `saved` sequence) and the
  `dependent: :destroy` cascade (invoice.rb:2), which is a framework declaration
  with no logic here.
- A built payment that failed to save stays in Ruby's in-memory `payments`
  association. It is not modelled because the balance reads the database sum
  and never sees it.
- The transaction is not modelled. A store failure is the `storeFails` flag and
  can only follow a successful validation.
- The `payment ||= payments.build` path (invoice.rb:45) is not modelled. Nothing
  before the transaction raises an `ActiveRecordError`, so it cannot be reached.
- BigDecimal's string grammar is not modelled: exponents, `Float#to_s` of a
  float argument, and the `ArgumentError` for an unparseable string. The input
  to `DollarsToCents` is already an exact decimal or nil.
- Exact error messages are not modelled, and neither is ActiveRecord's `errors`
  object. Each failed rule adds one error kind. The two errors that presence
  and numericality both raise on a nil attribute collapse into one kind.
- Only ASCII `strip`, `downcase` and `present?` are modelled. Whitespace is space, tab,
  line feed, vertical tab, form feed and carriage return. NUL characters and
  Unicode case mapping are not modelled. Rails' `blank?` also treats Unicode
  spaces (such as U+00A0) as blank, so a String made only of those is blank in
  the source but present in the model. Such a payment is invalid either way,
  but its error set differs.
- A raw method that is neither a String, a Symbol nor nil is assumed to be
  present and to have no `to_sym` (an Integer, say). Other blank objects
  (`false`, `[]`) are not modelled.
- The amount, the invoice reference and the raw method of a payment are
  constants once it is built. Later reassignment of those attributes is not
  modelled.
