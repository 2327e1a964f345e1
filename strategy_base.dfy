/**
 The request and response records shared by the tax strategies. Unlike the
 stand-alone calculator's request, this one performs no validation: any
 salary and bonus, negative ones included, can be put in it.
 */
module StrategyBase {

  datatype TaxRequest = TaxRequest(salary: real, bonus: real)

  datatype TaxResponse = TaxResponse(taxAmount: real, grossPay: real, netPay: real)
}
