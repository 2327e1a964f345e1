/**
 The stand-alone calculator: a validated request, the response record and
 the calculation itself.

 Building a request rejects a negative salary or bonus. The calculation
 accumulates the tax bracket by bracket on local variables, then quantizes
 tax, gross pay and net pay to cents, each from its full-precision value.
 */
module TaxCalculator {
  import opened Money
  import opened TaxRules

  /** The two ways building a request can fail. */
  datatype ValidationError = NegativeSalary | NegativeBonus {
    function Message(): string {
      match this
      case NegativeSalary => "Salary cannot be negative"
      case NegativeBonus => "Bonus cannot be negative"
    }
  }

  datatype Result<T> = Ok(value: T) | Err(error: ValidationError)

  /** Salary and bonus of one calculation; `NewTaxRequest` builds only valid ones. */
  datatype TaxRequest = TaxRequest(salary: real, bonus: real) {
    ghost predicate Valid() {
      salary >= 0.0 && bonus >= 0.0
    }
  }

  datatype TaxResponse = TaxResponse(taxAmount: real, grossPay: real, netPay: real)

  /**
   Building a request: the salary is checked first, so when both amounts are
   negative the salary error is the one reported. The bonus defaults to zero.
   */
  function NewTaxRequest(salary: real, bonus: real := 0.0): (r: Result<TaxRequest>)
    ensures r.Ok? <==> salary >= 0.0 && bonus >= 0.0
    ensures r.Ok? ==> r.value == TaxRequest(salary, bonus) && r.value.Valid()
    ensures salary < 0.0 ==> r == Err(NegativeSalary)
    ensures salary >= 0.0 && bonus < 0.0 ==> r == Err(NegativeBonus)
  {
    if salary < 0.0 then Err(NegativeSalary)
    else if bonus < 0.0 then Err(NegativeBonus)
    else Ok(TaxRequest(salary, bonus))
  }

  /**
   The response for `salary` and `bonus`: the three amounts each quantized
   from full precision, the tax depending on the salary alone.
   */
  function ResponseFor(salary: real, bonus: real): TaxResponse {
    var tax := UnroundedTax(salary);
    TaxResponse(Quantize2(tax), Quantize2(salary + bonus), Quantize2(salary + bonus - tax))
  }

  /** `calculate_tax`: the accumulation over the brackets, as the source does it. */
  method CalculateTax(request: TaxRequest) returns (response: TaxResponse)
    ensures response == ResponseFor(request.salary, request.bonus)
    ensures response.taxAmount == Quantize2(ScheduleTax(request.salary))
  {
    var salary := request.salary;
    var bonus := request.bonus;
    var taxAmount := 0.0;

    var taxableAmount := Max(0.0, salary - TAX_FREE_ALLOWANCE);

    var taxBracket1 := Min(taxableAmount, FIRST_BAND_WIDTH);
    taxAmount := taxAmount + taxBracket1 * FIRST_BAND_RATE;
    taxableAmount := taxableAmount - taxBracket1;
    assert taxableAmount >= 0.0;

    if taxableAmount > 0.0 {
      var taxBracket2 := Min(taxableAmount, SECOND_BAND_WIDTH);
      taxAmount := taxAmount + taxBracket2 * SECOND_BAND_RATE;
      taxableAmount := taxableAmount - taxBracket2;

      if taxableAmount > 0.0 {
        // Only a salary above 1,000,000 reaches the top rate.
        assert salary > 1000000.0;
        taxAmount := taxAmount + taxableAmount * TOP_RATE;
      }
    }

    var grossPay := salary + bonus;
    var netPay := grossPay - taxAmount;

    UnroundedTaxIsBandTax(salary);
    response := TaxResponse(Quantize2(taxAmount), Quantize2(grossPay), Quantize2(netPay));
  }

  // ---------------------------------------------------------------------------
  // Properties of the response
  // ---------------------------------------------------------------------------

  /** The bonus never changes the tax; it only moves gross and net pay. */
  lemma BonusIsNotTaxed(salary: real, bonus1: real, bonus2: real)
    ensures ResponseFor(salary, bonus1).taxAmount == ResponseFor(salary, bonus2).taxAmount
  {
  }

  /** A higher salary never means a lower tax amount, whatever the bonuses. */
  lemma TaxAmountMonotone(s1: real, b1: real, s2: real, b2: real)
    requires s1 <= s2
    ensures ResponseFor(s1, b1).taxAmount <= ResponseFor(s2, b2).taxAmount
  {
    UnroundedTaxMonotone(s1, s2);
    QuantizeMonotone(UnroundedTax(s1), UnroundedTax(s2), DEFAULT_ROUNDING);
  }

  /** Up to the allowance, the tax is zero and net pay equals gross pay. */
  lemma NoTaxUpToAllowance(salary: real, bonus: real)
    requires salary <= TAX_FREE_ALLOWANCE
    ensures ResponseFor(salary, bonus).taxAmount == 0.0
    ensures ResponseFor(salary, bonus).netPay == ResponseFor(salary, bonus).grossPay
    ensures ResponseFor(salary, bonus).grossPay == Quantize2(salary + bonus)
  {
    TaxFreeExactlyUpToAllowance(salary);
    QuantizeCents(0.0, 0, DEFAULT_ROUNDING);
  }

  /** A request that passed validation gets a response with no negative amount. */
  lemma ValidRequestGivesNonNegativeAmounts(request: TaxRequest)
    requires request.Valid()
    ensures var r := ResponseFor(request.salary, request.bonus);
      r.taxAmount >= 0.0 && r.grossPay >= 0.0 && r.netPay >= 0.0
  {
    var s, b := request.salary, request.bonus;
    UnroundedTaxMonotone(s, s);
    UnroundedTaxAtMostTopRate(s);
    QuantizeNonNegative(UnroundedTax(s), DEFAULT_ROUNDING);
    QuantizeNonNegative(s + b, DEFAULT_ROUNDING);
    QuantizeNonNegative(s + b - UnroundedTax(s), DEFAULT_ROUNDING);
  }

  /**
   Net pay is rounded on its own, not derived from the rounded gross pay and
   tax, so it reconciles with them only to within one cent.
   */
  lemma NetPayWithinOneCent(salary: real, bonus: real)
    ensures var r := ResponseFor(salary, bonus);
      Abs(r.netPay - (r.grossPay - r.taxAmount)) <= 0.01
  {
    var tax := UnroundedTax(salary);
    var ct := RoundToCents(tax, DEFAULT_ROUNDING);
    var cg := RoundToCents(salary + bonus, DEFAULT_ROUNDING);
    var cn := RoundToCents(salary + bonus - tax, DEFAULT_ROUNDING);
    var k := cn - cg + ct;
    assert -1.5 <= k as real <= 1.5;
    assert -1 <= k <= 1;
    var r := ResponseFor(salary, bonus);
    assert r.netPay - (r.grossPay - r.taxAmount) == k as real / 100.0;
  }

  /**
   The cent can be lost: a salary of 200,000.05 owes 0.005 of tax, which rounds
   to 0.00 while net pay 200,000.045 rounds to 200,000.04.
   */
  lemma NetPayCanMissByOneCent()
    ensures ResponseFor(200000.05, 0.0) == TaxResponse(0.0, 200000.05, 200000.04)
    ensures var r := ResponseFor(200000.05, 0.0);
      r.netPay != r.grossPay - r.taxAmount
  {
    assert UnroundedTax(200000.05) == 0.005;
    assert RoundToCents(0.005, HalfEven) == 0 by {
      assert (100.0 * 0.005).Floor == 0;
    }
    QuantizeCents(200000.05, 20000005, DEFAULT_ROUNDING);
    assert RoundToCents(200000.045, HalfEven) == 20000004 by {
      assert (100.0 * 200000.045).Floor == 20000004;
    }
  }

  /**
   Ties go to the even cent: a salary of 200,000.25 owes 0.025 of tax, which
   quantizes to 0.02, where rounding half up would give 0.03.
   */
  lemma TiesRoundToEven()
    ensures ResponseFor(200000.25, 0.0).taxAmount == 0.02
    ensures Quantize(UnroundedTax(200000.25), HalfUp) == 0.03
  {
    assert UnroundedTax(200000.25) == 0.025;
    assert (100.0 * 0.025).Floor == 2;
  }

  // ---------------------------------------------------------------------------
  // The worked examples
  // ---------------------------------------------------------------------------

  /** A response whose three amounts are the given whole numbers of cents. */
  ghost predicate RespondsInCents(r: TaxResponse, tax: int, gross: int, net: int) {
    r == TaxResponse(tax as real / 100.0, gross as real / 100.0, net as real / 100.0)
  }

  lemma {:induction false} ResponseInCents(salary: real, bonus: real, tax: int, gross: int, net: int)
    requires UnroundedTax(salary) == tax as real / 100.0
    requires salary + bonus == gross as real / 100.0
    requires salary + bonus - UnroundedTax(salary) == net as real / 100.0
    ensures RespondsInCents(ResponseFor(salary, bonus), tax, gross, net)
  {
    QuantizeCents(UnroundedTax(salary), tax, DEFAULT_ROUNDING);
    QuantizeCents(salary + bonus, gross, DEFAULT_ROUNDING);
    QuantizeCents(salary + bonus - UnroundedTax(salary), net, DEFAULT_ROUNDING);
  }

  lemma WorkedExamples()
    ensures ResponseFor(150000.0, 0.0) == TaxResponse(0.0, 150000.0, 150000.0)
    ensures ResponseFor(400000.0, 0.0) == TaxResponse(20000.0, 400000.0, 380000.0)
    ensures ResponseFor(800000.0, 0.0) == TaxResponse(65000.0, 800000.0, 735000.0)
    ensures ResponseFor(1200000.0, 0.0) == TaxResponse(135000.0, 1200000.0, 1065000.0)
    ensures ResponseFor(900000.0, 100000.0) == TaxResponse(80000.0, 1000000.0, 920000.0)
    ensures ResponseFor(500000.0, 50000.0) == TaxResponse(30000.0, 550000.0, 520000.0)
    ensures ResponseFor(0.0, 100000.0) == TaxResponse(0.0, 100000.0, 100000.0)
    ensures ResponseFor(200100.50, 0.0) == TaxResponse(10.05, 200100.50, 200090.45)
  {
    WorkedValues();
    ResponseInCents(150000.0, 0.0, 0, 15000000, 15000000);
    ResponseInCents(400000.0, 0.0, 2000000, 40000000, 38000000);
    ResponseInCents(800000.0, 0.0, 6500000, 80000000, 73500000);
    ResponseInCents(1200000.0, 0.0, 13500000, 120000000, 106500000);
    ResponseInCents(900000.0, 100000.0, 8000000, 100000000, 92000000);
    ResponseInCents(500000.0, 50000.0, 3000000, 55000000, 52000000);
    ResponseInCents(0.0, 100000.0, 0, 10000000, 10000000);
    ResponseInCents(200100.50, 0.0, 1005, 20010050, 20009045);
  }

  lemma BracketBoundaries(bonus: real)
    ensures ResponseFor(200000.0, bonus).taxAmount == 0.0
    ensures ResponseFor(700000.0, bonus).taxAmount == 50000.0
    ensures ResponseFor(1000000.0, bonus).taxAmount == 95000.0
  {
    WorkedValues();
    QuantizeCents(0.0, 0, DEFAULT_ROUNDING);
    QuantizeCents(50000.0, 5000000, DEFAULT_ROUNDING);
    QuantizeCents(95000.0, 9500000, DEFAULT_ROUNDING);
  }

  lemma ValidationExamples()
    ensures NewTaxRequest(-100.0) == Err(NegativeSalary)
    ensures NewTaxRequest(-100.0).error.Message() == "Salary cannot be negative"
    ensures NewTaxRequest(100.0, -50.0) == Err(NegativeBonus)
    ensures NewTaxRequest(100.0, -50.0).error.Message() == "Bonus cannot be negative"
    ensures NewTaxRequest(-1.0, -1.0) == Err(NegativeSalary)
    ensures NewTaxRequest(150000.0) == Ok(TaxRequest(150000.0, 0.0))
  {
  }
}
