/**
 Exact decimal money amounts and their quantization to two places (cents).

 Amounts are exact rationals (`real`). Quantizing to `0.01` rounds to the
 nearest whole number of cents; the rounding mode only matters on an exact
 tie (half a cent). The decimal context's default mode, which every
 `quantize` call of the calculator uses, is half-even.
 */
module Money {

  /** How a tie at exactly half a cent is broken. */
  datatype Rounding =
    | HalfEven  // to the even neighbour (the decimal default, ROUND_HALF_EVEN)
    | HalfUp    // away from zero (ROUND_HALF_UP)

  const DEFAULT_ROUNDING: Rounding := HalfEven

  function Abs(x: real): real {
    if x < 0.0 then -x else x
  }

  /** `c` is a nearest integer to `y`, and on a tie the one that `mode` picks. */
  ghost predicate IsRoundingOf(c: int, y: real, mode: Rounding) {
    && Abs(c as real - y) <= 0.5
    && (Abs(c as real - y) == 0.5 ==>
          match mode
          case HalfEven => c % 2 == 0
          case HalfUp => Abs(c as real) > Abs(y))
  }

  /** The number of cents `x` rounds to under `mode`. */
  function RoundToCents(x: real, mode: Rounding): (c: int)
    ensures IsRoundingOf(c, 100.0 * x, mode)
  {
    var y := 100.0 * x;
    var f := y.Floor;
    var frac := y - f as real;
    if frac < 0.5 then f
    else if frac > 0.5 then f + 1
    else match mode
      case HalfEven => if f % 2 == 0 then f else f + 1
      case HalfUp => if y < 0.0 then f else f + 1
  }

  /** `x.quantize(Decimal('0.01'))` under the rounding mode `mode`. */
  function Quantize(x: real, mode: Rounding): real {
    RoundToCents(x, mode) as real / 100.0
  }

  /** `x.quantize(Decimal('0.01'))` in the default decimal context. */
  function Quantize2(x: real): real {
    Quantize(x, DEFAULT_ROUNDING)
  }

  /** `x` is a whole number of cents. */
  ghost predicate IsCents(x: real) {
    (100.0 * x).Floor as real == 100.0 * x
  }

  /** The characterisation of rounding determines the result: rounding is a function. */
  lemma RoundingIsUnique(c: int, y: real, mode: Rounding)
    requires IsRoundingOf(c, y, mode)
    ensures c == RoundToCents(y / 100.0, mode)
  {
    var d := RoundToCents(y / 100.0, mode);
    assert 100.0 * (y / 100.0) == y;
    assert IsRoundingOf(d, y, mode);
  }

  /** Quantizing gives a whole number of cents, at most half a cent away. */
  lemma QuantizeIsNearestCent(x: real, mode: Rounding)
    ensures IsCents(Quantize(x, mode))
    ensures Abs(Quantize(x, mode) - x) <= 0.005
  {
    var c := RoundToCents(x, mode);
    assert 100.0 * Quantize(x, mode) == c as real;
  }

  /** An amount that already is a whole number of cents is left as it is. */
  lemma QuantizeCents(x: real, cents: int, mode: Rounding)
    requires x == cents as real / 100.0
    ensures Quantize(x, mode) == x
  {
    assert 100.0 * x == cents as real;
    assert IsRoundingOf(cents, 100.0 * x, mode);
    RoundingIsUnique(cents, 100.0 * x, mode);
    assert 100.0 * x / 100.0 == x;
  }

  /** Quantization is idempotent. */
  lemma QuantizeIdempotent(x: real, mode: Rounding)
    ensures Quantize(Quantize(x, mode), mode) == Quantize(x, mode)
  {
    QuantizeCents(Quantize(x, mode), RoundToCents(x, mode), mode);
  }

  /** Rounding to cents never decreases when its argument grows. */
  lemma RoundToCentsMonotone(x: real, y: real, mode: Rounding)
    requires x <= y
    ensures RoundToCents(x, mode) <= RoundToCents(y, mode)
  {
  }

  lemma QuantizeMonotone(x: real, y: real, mode: Rounding)
    requires x <= y
    ensures Quantize(x, mode) <= Quantize(y, mode)
  {
    RoundToCentsMonotone(x, y, mode);
  }

  /** A non-negative amount quantizes to a non-negative amount. */
  lemma QuantizeNonNegative(x: real, mode: Rounding)
    requires x >= 0.0
    ensures Quantize(x, mode) >= 0.0
  {
    QuantizeCents(0.0, 0, mode);
    QuantizeMonotone(0.0, x, mode);
  }
}
