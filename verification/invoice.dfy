/**
 * An invoice (invoice.rb): a total owed in integer cents and the payments
 * saved against it.  The balance is derived from the saved payments on every
 * call, never stored, and is clamped at zero.
 */
module Invoices {
  import opened Wrappers
  import opened Money
  import opened Payments

  /** The amount a saved payment contributes to `payments.sum(:amount)`; SQL SUM skips NULL. */
  function AmountOf(p: Payment): int {
    if p.amount.Some? then p.amount.value else 0
  }

  /** `payments.sum(:amount)` over the saved payments (0 when there are none). */
  function SumAmounts(ps: seq<Payment>): (sum: int)
    ensures (forall i :: 0 <= i < |ps| ==> AmountOf(ps[i]) > 0) ==> sum >= |ps|
  {
    if ps == [] then 0 else AmountOf(ps[0]) + SumAmounts(ps[1..])
  }

  /** Saving one more payment adds its amount to the sum. */
  lemma {:induction false} SumAppend(ps: seq<Payment>, p: Payment)
    ensures SumAmounts(ps + [p]) == SumAmounts(ps) + AmountOf(p)
  {
    if ps != [] {
      assert (ps + [p])[1..] == ps[1..] + [p];
      SumAppend(ps[1..], p);
    }
  }

  /** Payments that each have a positive amount sum to at least zero. */
  lemma {:induction false} SumNonNegative(ps: seq<Payment>)
    requires forall i :: 0 <= i < |ps| ==> ps[i].amount.Some? && ps[i].amount.value > 0
    ensures SumAmounts(ps) >= 0
  {
    if ps != [] {
      SumNonNegative(ps[1..]);
    }
  }

  class Invoice {
    /** `invoice_total`, in cents. */
    var total: int
    /** The payments saved against this invoice, in the order they were saved. */
    var saved: seq<Payment>

    /** Every saved payment passed validation: it has an invoice and a positive amount. */
    ghost predicate Valid()
      reads this
    {
      forall i :: 0 <= i < |saved| ==> saved[i].hasInvoice && saved[i].amount.Some? && saved[i].amount.value > 0
    }

    /** `validates :invoice_total` (lines 5-7): present and an integer by its type, and at least 0. */
    predicate TotalIsValid()
      reads this
      ensures TotalIsValid() <==> DollarsToCents(Some(CentsToDollars(total))).Success?
    {
      CentsRoundTrip(total);
      total >= 0
    }

    /** A new invoice with the given total and no payments. */
    constructor (total: int)
      ensures this.total == total && saved == [] && Valid()
    {
      this.total := total;
      saved := [];
    }

    /** `invoice_total_dollars` (lines 12-14): the total as an exact decimal. */
    function TotalDollars(): (d: Decimal)
      reads this
      ensures Value(d) == total as real / 100.0
      ensures TotalIsValid() ==> DollarsToCents(Some(d)) == Success(total)
    {
      CentsRoundTrip(total);
      CentsToDollars(total)
    }

    /**
     * `invoice_total_dollars=` (lines 16-18): store the converted amount, or
     * raise the conversion error and leave the total as it was.
     */
    method SetTotalDollars(value: Option<Decimal>) returns (raised: Option<ConversionError>)
      modifies this`total
      ensures old(Valid()) ==> Valid()
      ensures raised.Some? <==> DollarsToCents(value).Failure?
      ensures raised.Some? ==> raised.value == DollarsToCents(value).error && total == old(total)
      ensures raised.None? ==> total == DollarsToCents(value).value && TotalIsValid()
      ensures raised.None? && value.value.scale <= 2 ==> Value(TotalDollars()) == Value(value.value)
    {
      var cents := DollarsToCents(value);
      if cents.Failure? {
        return Some(cents.error);
      }
      total := cents.value;
      if value.value.scale <= 2 {
        WholeCentsExact(value.value);
      }
      raised := None;
    }

    /** `amount_owed_cents` (lines 26-28): the total less what the saved payments cover, never below 0. */
    function AmountOwedCents(): (owed: int)
      reads this
      ensures owed >= 0
      ensures SumAmounts(saved) <= total ==> owed == total - SumAmounts(saved)
      ensures SumAmounts(saved) > total ==> owed == 0
      ensures Valid() && TotalIsValid() ==> owed <= total
    {
      assert Valid() ==> SumAmounts(saved) >= 0 by {
        if Valid() { SumNonNegative(saved); }
      }
      var rest := total - SumAmounts(saved);
      if rest > 0 then rest else 0
    }

    /** `fully_paid?` (lines 21-23): paid, or overpaid, exactly when the saved payments cover the total. */
    function FullyPaid(): (paid: bool)
      reads this
      ensures paid <==> SumAmounts(saved) >= total
    {
      AmountOwedCents() <= 0
    }

    /** `amount_owed_dollars` (lines 31-33): the balance as an exact decimal that converts back to it. */
    function AmountOwedDollars(): (d: Decimal)
      reads this
      ensures Value(d) == AmountOwedCents() as real / 100.0
      ensures DollarsToCents(Some(d)) == Success(AmountOwedCents())
    {
      CentsRoundTrip(AmountOwedCents());
      CentsToDollars(AmountOwedCents())
    }

    /**
     * `Payment.transaction { payment.save }` (line 42) for a payment built on
     * this invoice: validate it; an invalid payment keeps its validation
     * errors, a valid one that the store fails to write (`storeFails`, the
     * rescued `ActiveRecordError` of lines 44-47) gets a base error, and only
     * a valid, written payment is appended to the saved payments.
     */
    method Save(p: Payment, storeFails: bool)
      requires Valid() && p.hasInvoice
      modifies this`saved, p`methodId, p`errors
      ensures Valid() && total == old(total)
      ensures p.methodId == AfterHook(old(p.methodId), p.raw)
      ensures var failed := ValidationErrors(true, p.amount, p.methodId, p.raw);
              if failed != {} then p.errors == failed && saved == old(saved)
              else if storeFails then p.errors == {RecordFailed} && saved == old(saved)
              else p.errors == {} && saved == old(saved) + [p]
      ensures SumAmounts(saved) >= old(SumAmounts(saved))
    {
      var ok := p.Validate();
      if ok && !storeFails {
        assert AmountInvalid !in p.errors;
        SumAppend(saved, p);
        saved := saved + [p];
      } else if ok {
        p.errors := p.errors + {RecordFailed};
      }
    }

    /**
     * `record_payment` (lines 36-48).  The amount is converted first; a
     * conversion error propagates (an `ArgumentError` is not rescued) and
     * nothing is built.  Otherwise a payment for this invoice is built with
     * the converted amount and the raw method, and saved as `Save` describes.
     * The total never changes and the balance never grows.
     */
    method RecordPayment(amountDollars: Option<Decimal>, rawMethod: Raw, storeFails: bool)
      returns (r: Result<Payment, ConversionError>)
      requires Valid()
      modifies this`saved
      ensures Valid() && total == old(total)
      ensures r.Failure? <==> DollarsToCents(amountDollars).Failure?
      ensures r.Failure? ==> r.error == DollarsToCents(amountDollars).error && saved == old(saved)
      ensures r.Success? ==>
                fresh(r.value) && r.value.hasInvoice && r.value.raw == rawMethod &&
                r.value.amount == Some(DollarsToCents(amountDollars).value) &&
                r.value.methodId == AfterHook(None, rawMethod)
      ensures r.Success? ==>
                var p := r.value;
                var failed := ValidationErrors(true, p.amount, p.methodId, rawMethod);
                if failed != {} then p.errors == failed && saved == old(saved)
                else if storeFails then p.errors == {RecordFailed} && saved == old(saved)
                else p.errors == {} && saved == old(saved) + [p]
      ensures AmountOwedCents() <= old(AmountOwedCents())
      ensures old(FullyPaid()) ==> FullyPaid()
    {
      var cents := DollarsToCents(amountDollars);
      if cents.Failure? {
        return Failure(cents.error);
      }
      var p := new Payment(true, Some(cents.value), rawMethod);
      Save(p, storeFails);
      r := Success(p);
    }
  }

  /**
   * A worked example: a $10.00 invoice, $4.50 paid in cash
   * leaves 550 cents ($5.50) and is not fully paid; $5.50 more by check
   * leaves nothing and is fully paid.
   */
  method TwoPaymentsScenario() returns (owedAfterFirst: int, owedDollars: Decimal, paidAfterFirst: bool,
                                        owedAfterSecond: int, paidAfterSecond: bool)
    ensures owedAfterFirst == 550 && Value(owedDollars) == 5.5 && !paidAfterFirst
    ensures owedAfterSecond == 0 && paidAfterSecond
  {
    var invoice := new Invoice(1000);
    var first := RecordValid(invoice, 450, "cash");
    owedAfterFirst := invoice.AmountOwedCents();
    owedDollars := invoice.AmountOwedDollars();
    paidAfterFirst := invoice.FullyPaid();
    var second := RecordValid(invoice, 550, "check");
    owedAfterSecond := invoice.AmountOwedCents();
    paidAfterSecond := invoice.FullyPaid();
  }

  /** Overpayment: a 500-cent invoice paid 700 cents owes 0 and is fully paid. */
  method OverpaymentScenario() returns (owed: int, paid: bool)
    ensures owed == 0 && paid
  {
    var invoice := new Invoice(500);
    var r := RecordValid(invoice, 700, "charge");
    owed := invoice.AmountOwedCents();
    paid := invoice.FullyPaid();
  }

  /** Recording a whole number of cents with a method named in the table saves it. */
  method RecordValid(invoice: Invoice, cents: int, name: string) returns (p: Payment)
    requires invoice.Valid() && cents > 0 && name in Methods
    modifies invoice
    ensures invoice.Valid() && invoice.total == old(invoice.total)
    ensures SumAmounts(invoice.saved) == old(SumAmounts(invoice.saved)) + cents
  {
    WholeCentsExact(Decimal(cents, 2));
    assert Resolve(RSym(name)) == Some(Methods[name]);
    ValidIff(true, Some(cents), None, RSym(name));
    MethodTableBijective();
    var r := invoice.RecordPayment(Some(Decimal(cents, 2)), RSym(name), false);
    p := r.value;
    SumAppend(old(invoice.saved), p);
  }
}
