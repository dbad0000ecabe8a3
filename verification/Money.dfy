/** Integer-kobo money and the fee policy that drives it. */
module Money {
  const PLATFORM_FEE_RATE := 0.025
  const FIRST_PAYMENT_DEPOSIT_RATE := 0.25
  const WEEKLY_INSTALLMENTS := 12
  const MONTHLY_INSTALLMENTS := 3

  /** Half-up rounding to a whole number. */
  function Round(x: real): int { (x + 0.5).Floor }

  function Ceil(x: real): int { -((-x).Floor) }

  function Percent(kobo: int, rate: real): int { Round(kobo as real * rate) }

  function Min(a: int, b: int): int { if a <= b then a else b }

  function Max(a: int, b: int): int { if a >= b then a else b }

  /** The rounded value is within half a unit, ties going up. */
  lemma RoundBounds(x: real)
    ensures Round(x) as real - 0.5 <= x < Round(x) as real + 0.5
  {
    var f := (x + 0.5).Floor;
    assert f as real <= x + 0.5 < f as real + 1.0;
  }

  lemma RoundMonotone(x: real, y: real)
    requires x <= y
    ensures Round(x) <= Round(y)
  {
    RoundBounds(x);
    RoundBounds(y);
  }

  lemma CeilBounds(x: real)
    ensures Ceil(x) as real - 1.0 < x <= Ceil(x) as real
  {
    var f := (-x).Floor;
    assert f as real <= -x < f as real + 1.0;
  }
}
