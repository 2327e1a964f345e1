/**
 The progressive strategy: the same bracket arithmetic as the stand-alone
 calculator, written with a second `if` that is not nested in the first, and
 without validating its request.
 */
module ProgressiveTax {
  import opened Money
  import opened TaxRules
  import opened StrategyBase
  import TaxCalculator

  /** The response for `request`: tax from the salary alone, each amount quantized from full precision. */
  function ResponseFor(request: TaxRequest): TaxResponse {
    var tax := UnroundedTax(request.salary);
    var gross := request.salary + request.bonus;
    TaxResponse(Quantize2(tax), Quantize2(gross), Quantize2(gross - tax))
  }

  method Calculate(request: TaxRequest) returns (response: TaxResponse)
    ensures response == ResponseFor(request)
    ensures response.taxAmount == Quantize2(ScheduleTax(request.salary))
  {
    var salary := request.salary;
    var bonus := request.bonus;
    var taxAmount := 0.0;

    var taxable := Max(0.0, salary - TAX_FREE_ALLOWANCE);

    var slab1 := Min(taxable, FIRST_BAND_WIDTH);
    taxAmount := taxAmount + slab1 * FIRST_BAND_RATE;
    taxable := taxable - slab1;
    assert taxable >= 0.0;

    if taxable > 0.0 {
      var slab2 := Min(taxable, SECOND_BAND_WIDTH);
      taxAmount := taxAmount + slab2 * SECOND_BAND_RATE;
      taxable := taxable - slab2;
      assert taxable >= 0.0;
    }

    // Reached with a positive remainder only after the second bracket was filled.
    if taxable > 0.0 {
      assert salary > 1000000.0;
      taxAmount := taxAmount + taxable * TOP_RATE;
    }

    var gross := salary + bonus;
    var net := gross - taxAmount;

    UnroundedTaxIsBandTax(salary);
    response := TaxResponse(Quantize2(taxAmount), Quantize2(gross), Quantize2(net));
  }

  /** On any request the stand-alone calculator could be given, both give the same three amounts. */
  lemma AgreesWithCalculateTax(salary: real, bonus: real)
    ensures var p := ResponseFor(TaxRequest(salary, bonus));
            var c := TaxCalculator.ResponseFor(salary, bonus);
      p.taxAmount == c.taxAmount && p.grossPay == c.grossPay && p.netPay == c.netPay
  {
  }

  /** The bonus never changes the tax. */
  lemma BonusIsNotTaxed(salary: real, bonus1: real, bonus2: real)
    ensures ResponseFor(TaxRequest(salary, bonus1)).taxAmount
         == ResponseFor(TaxRequest(salary, bonus2)).taxAmount
  {
  }

  /**
   Nothing is rejected: a negative salary is simply untaxed, and a negative
   bonus flows into gross and net pay.
   */
  lemma NegativeAmountsAccepted(request: TaxRequest)
    requires request.salary < 0.0
    ensures ResponseFor(request).taxAmount == 0.0
    ensures ResponseFor(request).grossPay == Quantize2(request.salary + request.bonus)
    ensures ResponseFor(request).netPay == ResponseFor(request).grossPay
  {
    TaxFreeExactlyUpToAllowance(request.salary);
    QuantizeCents(0.0, 0, DEFAULT_ROUNDING);
  }

  lemma NegativeBonusExample()
    ensures ResponseFor(TaxRequest(100.0, -50.0)) == TaxResponse(0.0, 50.0, 50.0)
  {
    TaxFreeExactlyUpToAllowance(100.0);
    QuantizeCents(0.0, 0, DEFAULT_ROUNDING);
    QuantizeCents(50.0, 5000, DEFAULT_ROUNDING);
  }
}
