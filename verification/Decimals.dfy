/** Finite decimal numbers as the source's Decimal type holds them: a sign, digits and an exponent. */
module Decimals {
  datatype Decimal = Decimal(negative: bool, digits: nat, exponent: int)

  /** A validated amount: at most four decimal places. */
  type Amount = d: Decimal | d.exponent >= -4 witness Decimal(false, 0, 0)

  function Pow10(n: nat): (p: nat)
    ensures p > 0
  {
    if n == 0 then 1 else 10 * Pow10(n - 1)
  }

  function Signed(d: Decimal): int {
    if d.negative then -(d.digits as int) else d.digits
  }

  /** The value of a validated amount in units of 10^-4, as a Numeric(18,4) column stores it. */
  function Units(a: Amount): int {
    Signed(a) * Pow10(a.exponent + 4)
  }
}
