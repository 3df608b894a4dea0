/**
 * Conversion between exact decimal dollar amounts and integer cents
 * (the private helpers `dollars_to_cents` and `cents_to_dollars` of the invoice).
 *
 * A decimal is an integer mantissa scaled by a power of ten, so every value is
 * exact and no binary floating point is involved.  Rounding to whole cents is
 * ROUND_HALF_UP, the default rounding mode of Ruby's BigDecimal: a value exactly
 * half-way between two cents goes to the larger one (the value is known to be
 * non-negative at that point, so "away from zero" and "up" coincide).
 */
module Money {
  import opened Wrappers

  /** The exact decimal `mantissa * 10^(-scale)`. */
  datatype Decimal = Decimal(mantissa: int, scale: nat)

  /** Why a dollar amount cannot be converted (the two `ArgumentError`s). */
  datatype ConversionError = AmountRequired | AmountNegative

  function Pow10(n: nat): (r: nat)
    ensures r >= 1
  {
    if n == 0 then 1 else 10 * Pow10(n - 1)
  }

  /** The exact rational value of a decimal. */
  ghost function Value(x: Decimal): real {
    x.mantissa as real / Pow10(x.scale) as real
  }

  /**
   * `c` is `x * 100` rounded to the nearest integer, with a tie (exactly half a
   * cent) going to the larger integer:  c - 1/2 <= x * 100 < c + 1/2.
   */
  predicate IsHalfUpCents(x: Decimal, c: int) {
    var d := Pow10(x.scale);
    2 * c * d - d <= 200 * x.mantissa < 2 * c * d + d
  }

  /** Floor division `(2n + d) / 2d`, that is, n/d rounded half-up. */
  function RoundHalfUp(n: int, d: int): (q: int)
    requires d > 0
    ensures 2 * q * d - d <= 2 * n < 2 * q * d + d
  {
    var q := (2 * n + d) / (2 * d);
    assert (2 * d) * q <= 2 * n + d < (2 * d) * q + 2 * d;
    q
  }

  /** Lines 52-59 of invoice.rb: reject nil and negatives, then round `value * 100` half-up. */
  function DollarsToCents(value: Option<Decimal>): (r: Result<int, ConversionError>)
    ensures value.None? ==> r == Failure(AmountRequired)
    ensures value.Some? && value.value.mantissa < 0 ==> r == Failure(AmountNegative)
    ensures value.Some? && value.value.mantissa >= 0 ==>
              r.Success? && r.value >= 0 && IsHalfUpCents(value.value, r.value)
  {
    match value
    case None => Failure(AmountRequired)
    case Some(x) =>
      if x.mantissa < 0 then Failure(AmountNegative)
      else
        var c := RoundHalfUp(100 * x.mantissa, Pow10(x.scale));
        RoundedNonNegative(100 * x.mantissa, Pow10(x.scale), c);
        Success(c)
  }

  /** Lines 61-63 of invoice.rb: `cents / 100` as an exact decimal. */
  function CentsToDollars(cents: int): (r: Decimal)
    ensures Value(r) == cents as real / 100.0
  {
    Decimal(cents, 2)
  }

  /** Monotonicity of multiplication by a positive factor. */
  lemma MulLeft(a: int, b: int, k: int)
    requires a <= b && k > 0
    ensures a * k <= b * k
  {
  }

  /** Rounding a non-negative amount never gives a negative result. */
  lemma RoundedNonNegative(n: int, d: int, c: int)
    requires n >= 0 && d > 0 && 2 * n < 2 * c * d + d
    ensures c >= 0
  {
    if c < 0 {
      MulLeft(2 * c + 1, -1, d);
    }
  }

  /** At most one integer is the half-up rounding of a given amount. */
  lemma {:induction false} HalfUpCentsUnique(x: Decimal, c1: int, c2: int)
    requires IsHalfUpCents(x, c1) && IsHalfUpCents(x, c2)
    ensures c1 == c2
  {
    var d := Pow10(x.scale);
    if c1 < c2 {
      MulLeft(c1 + 1, c2, 2 * d);
    } else if c2 < c1 {
      MulLeft(c2 + 1, c1, 2 * d);
    }
  }

  /** Round trip: every whole number of cents survives the trip through dollars. */
  lemma {:induction false} CentsRoundTrip(cents: int)
    ensures DollarsToCents(Some(CentsToDollars(cents))) ==
            if cents >= 0 then Success(cents) else Failure(AmountNegative)
  {
    if cents >= 0 {
      var x := CentsToDollars(cents);
      assert IsHalfUpCents(x, cents);
      HalfUpCentsUnique(x, DollarsToCents(Some(x)).value, cents);
    }
  }

  /**
   * An amount with at most two fractional digits converts exactly: no rounding
   * happens, and converting the cents back gives the same amount.
   */
  lemma {:induction false} WholeCentsExact(x: Decimal)
    requires x.mantissa >= 0 && x.scale <= 2
    ensures DollarsToCents(Some(x)) == Success(x.mantissa * Pow10(2 - x.scale))
    ensures Value(CentsToDollars(x.mantissa * Pow10(2 - x.scale))) == Value(x)
  {
    var c := x.mantissa * Pow10(2 - x.scale);
    assert Pow10(2 - x.scale) * Pow10(x.scale) == 100 by {
      assert Pow10(1) == 10 && Pow10(2) == 100;
    }
    assert IsHalfUpCents(x, c) by {
      assert 200 * x.mantissa == 2 * c * Pow10(x.scale);
    }
    HalfUpCentsUnique(x, DollarsToCents(Some(x)).value, c);
  }

  /** The tie-breaking rule at the cent boundary: half a cent rounds up. */
  lemma HalfUpExamples()
    ensures DollarsToCents(Some(Decimal(5, 3))) == Success(1)      // 0.005 -> 1
    ensures DollarsToCents(Some(Decimal(4, 3))) == Success(0)      // 0.004 -> 0
    ensures DollarsToCents(Some(Decimal(25, 3))) == Success(3)     // 0.025 -> 3, not 2
  {
    assert Pow10(3) == 1000;
  }

  /** Whole amounts convert exactly; negative and missing amounts are rejected. */
  lemma ConversionExamples()
    ensures DollarsToCents(Some(Decimal(450, 2))) == Success(450)  // 4.50 -> 450
    ensures DollarsToCents(Some(Decimal(0, 0))) == Success(0)      // 0 converts
    ensures DollarsToCents(Some(Decimal(-5, 0))) == Failure(AmountNegative)
    ensures DollarsToCents(None) == Failure(AmountRequired)
  {
    assert Pow10(2) == 100;
  }
}
