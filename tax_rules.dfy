/**
 The progressive tax schedule on salary, as exact arithmetic.

 The first 200,000 of salary is tax-free, the next 500,000 is taxed at 10%,
 the next 300,000 at 15% and everything above 1,000,000 at 20%. Bonus is
 never part of the taxed amount.

 `UnroundedTax` is the closed form that both calculators compute before
 rounding. `BandTax` is an independent reference: it consumes an amount
 against a table of bands in order, the way the schedule is described, and
 `UnroundedTaxIsBandTax` shows the two agree on every salary.
 */
module TaxRules {

  const TAX_FREE_ALLOWANCE: real := 200000.0
  const FIRST_BAND_WIDTH: real := 500000.0
  const FIRST_BAND_RATE: real := 0.1
  const SECOND_BAND_WIDTH: real := 300000.0
  const SECOND_BAND_RATE: real := 0.15
  const TOP_RATE: real := 0.2

  function Max(a: real, b: real): real {
    if a >= b then a else b
  }

  function Min(a: real, b: real): real {
    if a <= b then a else b
  }

  /** The part of the salary above the tax-free allowance. */
  function Taxable(salary: real): real {
    Max(0.0, salary - TAX_FREE_ALLOWANCE)
  }

  /** Tax on `salary` at full precision, before quantization. */
  function UnroundedTax(salary: real): real {
    var t := Taxable(salary);
    FIRST_BAND_RATE * Min(t, FIRST_BAND_WIDTH)
      + SECOND_BAND_RATE * Min(Max(t - FIRST_BAND_WIDTH, 0.0), SECOND_BAND_WIDTH)
      + TOP_RATE * Max(t - (FIRST_BAND_WIDTH + SECOND_BAND_WIDTH), 0.0)
  }

  // ---------------------------------------------------------------------------
  // Reference definition: a table of bands consumed in order
  // ---------------------------------------------------------------------------

  /** A bracket of finite width taxed at one marginal rate. */
  datatype Band = Band(width: real, rate: real)

  /** The finite brackets in order; whatever lies beyond them is taxed at `TOP_RATE`. */
  const BANDS: seq<Band> := [
    Band(TAX_FREE_ALLOWANCE, 0.0),
    Band(FIRST_BAND_WIDTH, FIRST_BAND_RATE),
    Band(SECOND_BAND_WIDTH, SECOND_BAND_RATE)
  ]

  ghost predicate WellFormedBands(bands: seq<Band>, topRate: real) {
    && topRate >= 0.0
    && forall i :: 0 <= i < |bands| ==> bands[i].width >= 0.0 && bands[i].rate >= 0.0
  }

  /** Every marginal rate of the table is at most `bound`. */
  ghost predicate RatesAtMost(bands: seq<Band>, topRate: real, bound: real) {
    && topRate <= bound
    && forall i :: 0 <= i < |bands| ==> bands[i].rate <= bound
  }

  /** Tax on `amount`: each band takes as much of the amount as fits in it. */
  function BandTax(bands: seq<Band>, topRate: real, amount: real): real
    decreases |bands|
  {
    if bands == [] then topRate * amount
    else
      var used := Min(amount, bands[0].width);
      bands[0].rate * used + BandTax(bands[1..], topRate, amount - used)
  }

  /** The schedule applied to a salary: a negative salary has nothing to tax. */
  function ScheduleTax(salary: real): real {
    BandTax(BANDS, TOP_RATE, Max(0.0, salary))
  }

  /** Arithmetic helpers: scaling by a non-negative factor, and distributing a product. */
  lemma ScaleMonotone(x: real, y: real, k: real)
    requires x <= y && k >= 0.0
    ensures x * k <= y * k && k * x <= k * y
  {
  }

  lemma Distribute(k: real, x: real, y: real)
    ensures k * (x + y) == k * x + k * y
  {
  }

  /** The bands after the first are well formed too. */
  lemma TailWellFormed(bands: seq<Band>, topRate: real)
    requires bands != [] && WellFormedBands(bands, topRate)
    ensures WellFormedBands(bands[1..], topRate)
    ensures bands[0].width >= 0.0 && bands[0].rate >= 0.0
  {
    forall i | 0 <= i < |bands[1..]|
      ensures bands[1..][i].width >= 0.0 && bands[1..][i].rate >= 0.0
    {
      assert bands[1..][i] == bands[i + 1];
    }
  }

  /** With non-negative widths nothing is taxed on a zero amount. */
  lemma {:induction false} BandTaxOfZero(bands: seq<Band>, topRate: real)
    requires WellFormedBands(bands, topRate)
    ensures BandTax(bands, topRate, 0.0) == 0.0
    decreases |bands|
  {
    if bands != [] {
      TailWellFormed(bands, topRate);
      BandTaxOfZero(bands[1..], topRate);
    }
  }

  /** With non-negative widths and rates, more to tax never means less tax. */
  lemma {:induction false} BandTaxMonotone(bands: seq<Band>, topRate: real, a: real, b: real)
    requires WellFormedBands(bands, topRate)
    requires 0.0 <= a <= b
    ensures BandTax(bands, topRate, a) <= BandTax(bands, topRate, b)
    decreases |bands|
  {
    if bands != [] {
      var w, r := bands[0].width, bands[0].rate;
      TailWellFormed(bands, topRate);
      ScaleMonotone(Min(a, w), Min(b, w), r);
      BandTaxMonotone(bands[1..], topRate, a - Min(a, w), b - Min(b, w));
    }
  }

  /** If no rate exceeds `bound`, the tax is at most `bound` times the amount. */
  lemma {:induction false} BandTaxAtMost(bands: seq<Band>, topRate: real, bound: real, amount: real)
    requires WellFormedBands(bands, topRate)
    requires RatesAtMost(bands, topRate, bound)
    requires amount >= 0.0
    ensures BandTax(bands, topRate, amount) <= bound * amount
    decreases |bands|
  {
    if bands == [] {
      ScaleMonotone(topRate, bound, amount);
    } else {
      var used := Min(amount, bands[0].width);
      var rest := amount - used;
      TailBands(bands, topRate, bound);
      BandTaxAtMost(bands[1..], topRate, bound, rest);
      StepAtMost(bands[0].rate, bound, used, rest, BandTax(bands[1..], topRate, rest));
    }
  }

  /** The bands after the first keep the table's bounds. */
  lemma TailBands(bands: seq<Band>, topRate: real, bound: real)
    requires bands != []
    requires WellFormedBands(bands, topRate) && RatesAtMost(bands, topRate, bound)
    ensures WellFormedBands(bands[1..], topRate) && RatesAtMost(bands[1..], topRate, bound)
    ensures bands[0].width >= 0.0 && 0.0 <= bands[0].rate <= bound
  {
    TailWellFormed(bands, topRate);
    forall i | 0 <= i < |bands[1..]|
      ensures bands[1..][i].rate <= bound
    {
      assert bands[1..][i] == bands[i + 1];
    }
  }

  /** One band's share at rate at most `bound`, added to a tail that is within bounds. */
  lemma StepAtMost(rate: real, bound: real, used: real, rest: real, tail: real)
    requires 0.0 <= rate <= bound && 0.0 <= used
    requires tail <= bound * rest
    ensures rate * used + tail <= bound * (used + rest)
  {
    ScaleMonotone(rate, bound, used);
    Distribute(bound, used, rest);
  }

  // ---------------------------------------------------------------------------
  // Properties of the schedule
  // ---------------------------------------------------------------------------

  /** The closed form and the band table give the same tax on every salary. */
  lemma UnroundedTaxIsBandTax(salary: real)
    ensures UnroundedTax(salary) == ScheduleTax(salary)
  {
    var a0 := Max(0.0, salary);
    var a1 := a0 - Min(a0, TAX_FREE_ALLOWANCE);
    var a2 := a1 - Min(a1, FIRST_BAND_WIDTH);
    var a3 := a2 - Min(a2, SECOND_BAND_WIDTH);
    assert a1 == Taxable(salary);
    assert BANDS[1..] == [Band(FIRST_BAND_WIDTH, FIRST_BAND_RATE), Band(SECOND_BAND_WIDTH, SECOND_BAND_RATE)];
    assert BANDS[1..][1..] == [Band(SECOND_BAND_WIDTH, SECOND_BAND_RATE)];
    assert BANDS[1..][1..][1..] == [];
    calc {
      ScheduleTax(salary);
      0.0 * Min(a0, TAX_FREE_ALLOWANCE) + BandTax(BANDS[1..], TOP_RATE, a1);
      FIRST_BAND_RATE * Min(a1, FIRST_BAND_WIDTH) + BandTax(BANDS[1..][1..], TOP_RATE, a2);
      FIRST_BAND_RATE * Min(a1, FIRST_BAND_WIDTH) + SECOND_BAND_RATE * Min(a2, SECOND_BAND_WIDTH)
        + BandTax(BANDS[1..][1..][1..], TOP_RATE, a3);
      FIRST_BAND_RATE * Min(a1, FIRST_BAND_WIDTH) + SECOND_BAND_RATE * Min(a2, SECOND_BAND_WIDTH)
        + TOP_RATE * a3;
    }
  }

  /** Which formula applies in each bracket of salary. */
  lemma UnroundedTaxByBracket(salary: real)
    ensures salary <= 200000.0 ==> UnroundedTax(salary) == 0.0
    ensures 200000.0 <= salary <= 700000.0 ==>
              UnroundedTax(salary) == 0.1 * (salary - 200000.0)
    ensures 700000.0 <= salary <= 1000000.0 ==>
              UnroundedTax(salary) == 50000.0 + 0.15 * (salary - 700000.0)
    ensures 1000000.0 <= salary ==>
              UnroundedTax(salary) == 95000.0 + 0.2 * (salary - 1000000.0)
  {
  }

  /** No salary up to and including the allowance is taxed; every salary above it is. */
  lemma TaxFreeExactlyUpToAllowance(salary: real)
    ensures UnroundedTax(salary) == 0.0 <==> salary <= TAX_FREE_ALLOWANCE
  {
    UnroundedTaxByBracket(salary);
  }

  /** The tax is never negative, and a higher salary never pays less tax. */
  lemma UnroundedTaxMonotone(s1: real, s2: real)
    requires s1 <= s2
    ensures 0.0 <= UnroundedTax(s1) <= UnroundedTax(s2)
  {
    assert WellFormedBands(BANDS, TOP_RATE);
    UnroundedTaxIsBandTax(s1);
    UnroundedTaxIsBandTax(s2);
    BandTaxOfZero(BANDS, TOP_RATE);
    BandTaxMonotone(BANDS, TOP_RATE, 0.0, Max(0.0, s1));
    BandTaxMonotone(BANDS, TOP_RATE, Max(0.0, s1), Max(0.0, s2));
  }

  /** The tax never exceeds the top rate applied to the whole (non-negative) salary. */
  lemma UnroundedTaxAtMostTopRate(salary: real)
    ensures UnroundedTax(salary) <= TOP_RATE * Max(0.0, salary)
  {
    assert WellFormedBands(BANDS, TOP_RATE);
    assert RatesAtMost(BANDS, TOP_RATE, TOP_RATE);
    UnroundedTaxIsBandTax(salary);
    BandTaxAtMost(BANDS, TOP_RATE, TOP_RATE, Max(0.0, salary));
  }

  /** The 20% rate applies to some of the salary exactly when it exceeds 1,000,000. */
  lemma TopBandThreshold(salary: real)
    ensures Taxable(salary) - Min(Taxable(salary), FIRST_BAND_WIDTH) >= 0.0
    ensures (Max(Taxable(salary) - (FIRST_BAND_WIDTH + SECOND_BAND_WIDTH), 0.0) > 0.0)
              <==> salary > 1000000.0
  {
  }

  /** The worked values of the schedule, at and between the bracket boundaries. */
  lemma WorkedValues()
    ensures UnroundedTax(150000.0) == 0.0
    ensures UnroundedTax(200000.0) == 0.0
    ensures UnroundedTax(400000.0) == 20000.0
    ensures UnroundedTax(500000.0) == 30000.0
    ensures UnroundedTax(700000.0) == 50000.0
    ensures UnroundedTax(800000.0) == 65000.0
    ensures UnroundedTax(900000.0) == 80000.0
    ensures UnroundedTax(1000000.0) == 95000.0
    ensures UnroundedTax(1200000.0) == 135000.0
    ensures UnroundedTax(200100.50) == 10.05
  {
  }
}
