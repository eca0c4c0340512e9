/**
  Exact two-decimal currency. The source stores money in
  DecimalField(max_digits=10, decimal_places=2) columns and never in floats;
  here an amount is the whole number of cents it denotes, so Decimal('18.00')
  is 1800 and all arithmetic on amounts is exact.
 */
module Money {

  type Cents = int

  const MaxDigits: nat := 10
  const DecimalPlaces: nat := 2

  /** Decimal('0.01'), the lower bound of the price validators. */
  const OneCent: Cents := 1

  /** 99999999.99: the largest magnitude with at most 10 digits, 2 after the point. */
  const MaxCents: Cents := 9_999_999_999

  function Pow10(n: nat): (r: nat)
    ensures r >= 1
  {
    if n == 0 then 1 else 10 * Pow10(n - 1)
  }

  /** The bound DecimalField's own digit validator places on a value. */
  predicate FitsDecimalField(c: Cents) {
    -MaxCents <= c <= MaxCents
  }

  /** A field with MinValueValidator(Decimal('0.01')): a price of at least one cent. */
  predicate ValidPrice(c: Cents) {
    OneCent <= c && FitsDecimalField(c)
  }

  /** A field with MinValueValidator(Decimal('0.00')): a non-negative amount. */
  predicate ValidAmount(c: Cents) {
    0 <= c && FitsDecimalField(c)
  }

  /** The bound really is "10 digits, 2 of them decimals": 10^10 - 1 cents. */
  lemma MaxCentsIsTenDigits()
    ensures MaxCents == Pow10(MaxDigits) - 1
    ensures MaxCents / Pow10(DecimalPlaces) == Pow10(MaxDigits - DecimalPlaces) - 1
  {
  }
}
