/**
 Choosing a tax policy. Both strategies answer the same call on the same
 request record; here the choice is a value naming the strategy.
 */
module TaxStrategies {
  import opened Money
  import opened TaxRules
  import opened StrategyBase
  import ProgressiveTax
  import NoTax

  datatype TaxStrategy = ProgressiveTaxStrategy | NoTaxStrategy

  /** The response the chosen strategy gives for `request`. */
  function ResponseFor(strategy: TaxStrategy, request: TaxRequest): TaxResponse {
    match strategy
    case ProgressiveTaxStrategy => ProgressiveTax.ResponseFor(request)
    case NoTaxStrategy => NoTax.Calculate(request)
  }

  /** `strategy.calculate(request)`. */
  method Calculate(strategy: TaxStrategy, request: TaxRequest) returns (response: TaxResponse)
    ensures response == ResponseFor(strategy, request)
  {
    match strategy
    case ProgressiveTaxStrategy =>
      response := ProgressiveTax.Calculate(request);
    case NoTaxStrategy =>
      response := NoTax.Calculate(request);
  }

  /** The progressive strategy's gross pay is the no-tax gross pay, quantized. */
  lemma GrossPayQuantizedOnlyByProgressive(request: TaxRequest)
    ensures ResponseFor(ProgressiveTaxStrategy, request).grossPay
         == Quantize2(ResponseFor(NoTaxStrategy, request).grossPay)
  {
  }

  /** The difference shows on an amount that is not a whole number of cents. */
  lemma GrossPayDiffersOffCents()
    ensures ResponseFor(NoTaxStrategy, TaxRequest(1.005, 0.0)).grossPay == 1.005
    ensures ResponseFor(ProgressiveTaxStrategy, TaxRequest(1.005, 0.0)).grossPay == 1.0
  {
    assert (100.0 * 1.005).Floor == 100;
  }

  /**
   Net pay under the progressive strategy never exceeds the no-tax net pay
   rounded to cents, and the two coincide for a salary within the allowance.
   */
  lemma ProgressiveNetPayAtMostNoTax(request: TaxRequest)
    ensures ResponseFor(ProgressiveTaxStrategy, request).netPay
         <= Quantize2(ResponseFor(NoTaxStrategy, request).netPay)
    ensures request.salary <= TAX_FREE_ALLOWANCE ==>
      ResponseFor(ProgressiveTaxStrategy, request).netPay
         == Quantize2(ResponseFor(NoTaxStrategy, request).netPay)
  {
    var s, b := request.salary, request.bonus;
    UnroundedTaxMonotone(s, s);
    TaxFreeExactlyUpToAllowance(s);
    QuantizeMonotone(s + b - UnroundedTax(s), s + b, DEFAULT_ROUNDING);
  }
}
