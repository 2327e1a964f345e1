# Progressive income tax on salary plus bonus

This project models a small payroll tax calculator. Given a salary and a
bonus, it returns the tax owed, the gross pay and the net pay. The tax is
progressive and depends on the salary only:

- the first 200,000 is tax-free;
- the next 500,000 is taxed at 10%;
- the next 300,000 at 15%;
- everything above 1,000,000 at 20%.

The bonus is added to gross pay and is never taxed. The three amounts are
each quantized to two decimal places from their full-precision values.

The same arithmetic exists twice in the system:

- the stand-alone `calculate_tax`, whose request rejects a negative salary or bonus;
- the progressive strategy, behind a strategy interface whose request does no checks.

A second strategy levies no tax at all.

Decimal amounts are exact rationals (`real`). Quantization is rounding to the
nearest cent. An exact half cent goes to the even cent, because `quantize` is
called without a rounding argument and the decimal context's default mode is
ROUND_HALF_EVEN. Where a description of the system speaks of round-half-up,
the model follows the code. `TaxCalculator.TiesRoundToEven` shows an input
where the two modes give different tax.

Modules, one per source file or concept:

- `Money`: rounding to cents, with the rounding mode as a parameter.
- `TaxRules`: the schedule. `UnroundedTax` is the closed form both
  calculators compute. `BandTax` is an independent reference that consumes
  the amount against a table of bands in order.
- `TaxCalculator` (tax_calculator.py): request validation, the response
  record and the imperative `CalculateTax`.
- `StrategyBase` (strategies/base.py): the unvalidated request and the response record.
- `ProgressiveTax` (strategies/progressive_tax.py) and `NoTax` (strategies/no_tax.py): the two strategies.
- `TaxStrategies`: the strategy interface as a value naming the strategy, with its dispatch.

## Model

| member | source | states |
|---|---|---|
| `Money.RoundToCents` | tax_calculator.py:95-97 | the number of cents is within half a cent of the amount, and on an exact tie it is even (half-even) or away from zero (half-up) |
| `Money.RoundingIsUnique` | tax_calculator.py:95-97 | any integer meeting that characterisation is the one rounding returns, so quantization is fully determined |
| `Money.QuantizeIsNearestCent` | tax_calculator.py:95-97 | a quantized amount is a whole number of cents and lies at most 0.005 from the amount |
| `Money.QuantizeCents` | tax_calculator.py:95-97 | an amount that already is whole cents is unchanged by quantization |
| `Money.QuantizeIdempotent` | tax_calculator.py:95-97 | quantizing twice is the same as quantizing once |
| `Money.RoundToCentsMonotone` | tax_calculator.py:95-97 | rounding to cents never decreases as the amount grows |
| `Money.QuantizeMonotone` | tax_calculator.py:95-97 | quantization is monotone |
| `Money.QuantizeNonNegative` | tax_calculator.py:95-97 | a non-negative amount quantizes to a non-negative amount |
| `TaxRules.BandTaxOfZero` | tax_calculator.py:73-88 | consuming a zero amount against bands of non-negative width yields no tax |
| `TaxRules.BandTaxMonotone` | tax_calculator.py:73-88 | with non-negative widths and rates, a larger amount never yields less tax |
| `TaxRules.BandTaxAtMost` | tax_calculator.py:73-88 | if no rate exceeds a bound, the tax is at most that bound times the amount |
| `TaxRules.UnroundedTaxIsBandTax` | tax_calculator.py:73-88 | for every salary, the closed bracket formula equals the schedule read as bands (0% on 200,000, then 10% on 500,000, 15% on 300,000, 20% beyond) |
| `TaxRules.UnroundedTaxByBracket` | tax_calculator.py:73-88 | the formula in each salary bracket: 0, then 10% of the excess over 200,000, then 50,000 plus 15% over 700,000, then 95,000 plus 20% over 1,000,000 |
| `TaxRules.TaxFreeExactlyUpToAllowance` | tax_calculator.py:73-77 | the unrounded tax is zero if and only if the salary is at most 200,000 |
| `TaxRules.UnroundedTaxMonotone` | tax_calculator.py:73-88 | the unrounded tax is non-negative and non-decreasing in salary |
| `TaxRules.UnroundedTaxAtMostTopRate` | tax_calculator.py:73-88 | the unrounded tax never exceeds 20% of the non-negative part of the salary |
| `TaxRules.TopBandThreshold` | tax_calculator.py:76-88 | what is left after the first bracket is never negative, and some salary reaches the 20% rate exactly when the salary exceeds 1,000,000 |
| `TaxRules.WorkedValues` | test_tax_calculator.py:6-146 | the unrounded tax at 150,000, 200,000, 400,000, 500,000, 700,000, 800,000, 900,000, 1,000,000, 1,200,000 and 200,100.50 |
| `TaxCalculator.NewTaxRequest` | tax_calculator.py:26-29 | a request is built if and only if salary and bonus are both non-negative; a negative salary reports the salary error even when the bonus is negative too; otherwise a negative bonus reports the bonus error |
| `TaxCalculator.CalculateTax` | tax_calculator.py:65-98 | the accumulation returns tax, gross and net pay each quantized from full precision, with tax from the salary alone; its tax equals the schedule's band tax; inside, the remainder after the first bracket is non-negative and the 20% step runs only above 1,000,000 |
| `TaxCalculator.BonusIsNotTaxed` | tax_calculator.py:68-88 | two requests with the same salary get the same tax amount whatever their bonuses |
| `TaxCalculator.TaxAmountMonotone` | tax_calculator.py:73-95 | a higher salary never gives a lower quantized tax amount |
| `TaxCalculator.NoTaxUpToAllowance` | tax_calculator.py:73-97 | for a salary up to 200,000, the tax is 0 and net pay equals gross pay, the quantized salary plus bonus |
| `TaxCalculator.ValidRequestGivesNonNegativeAmounts` | tax_calculator.py:91-97 | for a validated request, tax, gross and net pay are all non-negative |
| `TaxCalculator.NetPayWithinOneCent` | tax_calculator.py:91-97 | net pay differs from gross pay minus tax amount by at most one cent, because each is rounded independently |
| `TaxCalculator.NetPayCanMissByOneCent` | tax_calculator.py:91-97 | salary 200,000.05 gives tax 0.00, gross 200,000.05 and net 200,000.04, so the one-cent gap does occur |
| `TaxCalculator.TiesRoundToEven` | tax_calculator.py:95 | salary 200,000.25 owes 0.025, which is quantized to 0.02; half-up rounding would give 0.03 |
| `TaxCalculator.ResponseInCents` | tax_calculator.py:91-97 | when the three full-precision amounts are whole cents, the response carries them unchanged |
| `TaxCalculator.WorkedExamples` | test_tax_calculator.py:6-113 | the full responses the tests expect: 150,000; 400,000; 800,000; 1,200,000; 900,000 with a bonus of 100,000; 500,000 with a bonus of 50,000; 0 with a bonus of 100,000; and 200,100.50, which gives tax 10.05 and net 200,090.45 |
| `TaxCalculator.BracketBoundaries` | test_tax_calculator.py:131-146 | whatever the bonus, the tax is 0 at 200,000, 50,000 at 700,000 and 95,000 at 1,000,000 |
| `TaxCalculator.ValidationExamples` | test_tax_calculator.py:116-124 | -100 is rejected with "Salary cannot be negative", salary 100 with bonus -50 with "Bonus cannot be negative", both negative with the salary error, and 150,000 is accepted with a zero bonus |
| `NoTax.Calculate` | strategies/no_tax.py:5-11 | tax is 0, gross pay is salary plus bonus exactly with no quantization, and net pay is gross pay minus tax; negative inputs are accepted |
| `ProgressiveTax.Calculate` | strategies/progressive_tax.py:5-31 | the accumulation with two sequential ifs returns the same quantized amounts as the closed form, and its tax equals the band tax; the remainder stays non-negative after each bracket, and the 20% step runs only above 1,000,000 |
| `ProgressiveTax.AgreesWithCalculateTax` | strategies/progressive_tax.py:5-31 | for every salary and bonus the progressive strategy and `calculate_tax` give the same tax, gross and net pay |
| `ProgressiveTax.BonusIsNotTaxed` | strategies/progressive_tax.py:6-22 | the bonus never changes the tax amount |
| `ProgressiveTax.NegativeAmountsAccepted` | strategies/progressive_tax.py:10-25 | a negative salary is not rejected: its tax is 0 and gross and net pay are the quantized salary plus bonus |
| `ProgressiveTax.NegativeBonusExample` | strategies/progressive_tax.py:24-31 | salary 100 with bonus -50 gives tax 0 and gross and net of 50 |
| `TaxStrategies.Calculate` | strategies/base.py:16-19 | calling a strategy returns what that strategy computes for the request |
| `TaxStrategies.GrossPayQuantizedOnlyByProgressive` | strategies/no_tax.py:6-9 | the progressive gross pay is the no-tax gross pay quantized |
| `TaxStrategies.GrossPayDiffersOffCents` | strategies/no_tax.py:9 | on salary 1.005 the no-tax gross pay is 1.005 and the progressive one is 1.00 |
| `TaxStrategies.ProgressiveNetPayAtMostNoTax` | strategies/progressive_tax.py:24-30 | progressive net pay never exceeds the no-tax net pay quantized, and equals it for a salary up to 200,000 |

## Left out

- Coercion of non-decimal inputs: `__post_init__` converts other values with `Decimal(str(x))` before validating. Parsing is library code outside this model, so requests hold numbers already, and the reassignment of the fields is not modelled.
- The TypeError when `calculate_tax` is given something that is not a request: Dafny's types rule it out.
- Decimal context limits: the 28-digit precision, overflow and `InvalidOperation` from `quantize` on huge values. The model's arithmetic is exact and unbounded.
- Decimal exponents: `Decimal('0.00')` and `Decimal('0')` are modelled as the same number, as the tests compare them.
- Amounts are any rationals, not only finite decimals; nothing in the model depends on that.
- The abstract base class machinery. The strategy interface is a value naming the strategy, dispatched in `TaxStrategies.Calculate`; there is no open class hierarchy.
- The test harness itself. Its expected values are the lemmas above.
- The documented invariant that net pay equals gross pay minus tax exactly does not hold of the code, which rounds the three independently. The model follows the code, and `TaxCalculator.NetPayWithinOneCent` and `TaxCalculator.NetPayCanMissByOneCent` show how far it holds.
