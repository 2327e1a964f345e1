/**
 The strategy that levies nothing: the tax is zero and net pay is the gross
 pay, which is salary plus bonus exactly, with no quantization.
 */
module NoTax {
  import opened StrategyBase

  function Calculate(request: TaxRequest): (r: TaxResponse)
    ensures r.taxAmount == 0.0
    ensures r.grossPay == request.salary + request.bonus
    ensures r.netPay == r.grossPay - r.taxAmount
  {
    var gross := request.salary + request.bonus;
    TaxResponse(0.0, gross, gross)
  }
}
