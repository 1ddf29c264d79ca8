# Salary take-home-pay calculator — deduction engine in Dafny

This project models the deduction engine of a Korean salary calculator. Given
a gross monthly salary and a tax year (2024 or 2025), the engine computes:

- four social-insurance contributions: national pension, health insurance,
  long-term care and employment insurance;
- income tax and local income tax;
- the total deduction and the net monthly salary.

All amounts and rates are Dafny `real`s, which are exact rationals. The
decimal rates (0.045, 0.0709, 0.1281, …) are therefore represented exactly,
and the worked examples are exact results, not float approximations.

Modules:

- `Brackets` holds the income-tax schedule as a sequence of `(upper bound,
  rate)` brackets plus one unbounded top rate. The lookup picks the first
  bracket whose bound is not exceeded (`taxable <= bound`). The module proves
  what that lookup means: the band rule, exact bounds, and monotonicity.
- `RateTable` defines `Year = Y2024 | Y2025` and the per-year `RateSet`:
  four insurance rates, the flat earned-income deduction, and the bracket
  schedule. It also holds the 10% local surtax, which is the same in both
  years.
- `Insurance` computes the four contributions. Pension, health and
  employment insurance are each salary × rate. Long-term care is the
  health-insurance amount × its own rate.
- `Tax` subtracts the deduction from salary, with no clamp at zero. It then
  picks one rate with the bracket scan and applies that rate to the whole
  taxable base; it is not a progressive schedule. Finally it adds 10% local
  tax. `ChainRate2024`/`ChainRate2025` transcribe the literal `if`/`elif`
  chains, and `ScheduleMatchesChain` proves the table-driven scan agrees with
  them for every input.
- `Payroll` covers the arithmetic around the engines: annual ↔ monthly
  conversion, the total deduction, and the net salary.
- `WorkedExamples` checks exact results for the calculator's default inputs
  and a few edge cases.

Two behaviours of the code are reproduced on purpose:

- The total deduction adds up every value of both result records. Those
  records also hold the four insurance rates and the matched tax rate, so the
  total includes those five rates as well as the six amounts.
  `Payroll.TotalDeduction` states the total exceeds the six amounts by
  exactly the sum of the five rates. `Payroll.RatesAddedInBounds` proves that
  sum is between 0.3 and 0.7.
- Income tax is negative when salary is below the deduction. Nothing clamps
  it, so the net salary can exceed the gross salary.

Facts about the code that the model keeps:

- The code raises no salary-validation error. The only guard on salary is
  the input widget's minimum of 0. That guard is the `requires` of
  `Payroll.Calculate`.
- The code has no dedicated unsupported-year error. A year string other than
  the two known ones would leave the rates unbound and fail at app.py:63 or
  app.py:126. `main` only passes the two select-box values (app.py:143), and
  `Year` has exactly those two constructors, so the case cannot occur.
- The total adds the rates as well as the six amounts (see above).
- For 2024 and 3,000,000, long-term care is 212,700 × 0.1281, which is exactly
  27,246.87 (`WorkedExamples.Example2024`).

## Model

| member | source | states |
|---|---|---|
| Brackets.FirstFit | app.py:94-124 | The index chosen is the first bracket whose upper bound is not below the taxable income: every earlier bound is exceeded, and the chosen bound is not. If every bound is exceeded, the index is past the end, meaning the top rate. |
| Brackets.MarginalRate | app.py:94-124 | The rate is one of the schedule's rates. An income at or below the first bound gets the first rate. An income above every bound gets the top rate. |
| Brackets.InBand | app.py:94-107 | An income in the band (previous bound, this bound] gets exactly this bracket's rate. So an income equal to a bound gets the lower bracket's rate. |
| Brackets.AboveAll | app.py:106-107 | On an ascending schedule, an income above the last bound gets the top rate. |
| Brackets.FirstFitMonotone | app.py:94-124 | A larger income never selects an earlier bracket. |
| Brackets.MarginalRateMonotone | app.py:94-124 | On an ascending schedule, the selected rate is monotone non-decreasing in taxable income. |
| Brackets.RateWithinSchedule | app.py:94-124 | On an ascending schedule, the selected rate lies between the first bracket's rate and the top rate. |
| RateTable.Rates | app.py:51-124 | Each year's rate set is sensible: all four insurance rates are strictly between 0 and 1, the deduction is positive, the six bounds strictly increase, the seven rates never decrease, and the first bound and rate are positive. |
| Insurance.CalculateInsurance | app.py:40-77 | The recorded rates are the year's rates. Pension, health and employment insurance are each salary × rate. Long-term care is health insurance × the long-term-care rate, so on salary its rate is the product of the two rates. For a non-negative salary every amount is between 0 and the salary, and long-term care is at most health insurance. |
| Insurance.InsuranceAdditive | app.py:63-66 | Each contribution is additive in salary: the contribution on a + b equals the contribution on a plus the contribution on b. |
| Insurance.InsuranceHomogeneous | app.py:63-76 | Scaling the salary by c scales each contribution, and so their sum, by c. Each of the four recorded rates, and so their sum, stays unchanged. |
| Insurance.InsuranceMonotone | app.py:63-66 | A larger salary never gives a smaller contribution of any kind. |
| Tax.ScheduleMatchesChain | app.py:94-124 | For every taxable income and both years, scanning the bracket sequence picks the same rate as the literal if/elif chain. |
| Tax.ChainBand | app.py:94-124 | The branch the literal chain takes identifies the bracket band the income lies in, and that branch's rate is the schedule rate of that band. |
| Tax.TaxableIncome | app.py:93-110 | Taxable income is below zero exactly when salary is below the year's deduction; there is no clamp. It is always less than the salary. |
| Tax.ChainRate2024 | app.py:94-107 | The 2024 chain yields one of 0.06, 0.15, 0.24, 0.35, 0.38, 0.40 and 0.42. |
| Tax.ChainRate2025 | app.py:111-124 | The 2025 chain yields one of 0.06, 0.16, 0.25, 0.36, 0.39, 0.41 and 0.43. |
| Tax.ChainRate | app.py:91-124 | The year selects its chain. Every rate it yields is between 0.06 and the year's top rate. |
| Tax.YearRate | app.py:94-124 | The scan of the year's schedule always yields one of the year's rates. An income at or below the first bound gets the first rate. |
| Tax.FlatTax | app.py:126-127 | The single rate applies to the whole base, and the rate is recorded unchanged. Local tax is 10% of income tax, so the two taxes together are 1.1 × base × rate. Under a positive rate, income tax is negative exactly when the base is, zero exactly when the base is, and local tax is negative exactly when the base is. |
| Tax.CalculateTax | app.py:80-133 | The tax result is salary minus the year's deduction, taxed flat at the rate the literal bracket chain picks for it, plus the 10% local surtax. |
| Tax.TaxRateInSchedule | app.py:94-124 | The matched rate is one of the year's seven listed rates, from 0.06 up to the top rate. |
| Tax.TaxSign | app.py:93-127 | Income tax and local tax are negative exactly when salary is below the deduction. Income tax is zero exactly when salary equals the deduction. There is no clamp. |
| Tax.BoundGetsLowerRate | app.py:94-124 | A taxable income exactly equal to any bracket bound gets that bracket's rate. |
| Tax.Boundaries2024 | app.py:94-107 | In 2024, 14,000,000 gets 0.06, 14,000,001 gets 0.15, and anything above 500,000,000 gets 0.42. |
| Tax.Boundaries2025 | app.py:111-124 | In 2025, 15,000,000 gets 0.06, 15,000,001 gets 0.16, and anything above 550,000,000 gets 0.43. |
| Tax.BelowDeductionGetsLowestRate | app.py:93-95 | A salary below the deduction, meaning a negative taxable income, gets rate 0.06 and a negative income tax of 0.06 × (salary − deduction). |
| Tax.TaxRateMonotone | app.py:94-124 | For a fixed year, the matched rate never decreases as salary grows. |
| Tax.FlatTaxMonotone | app.py:126 | The flat tax grows with base and rate, provided a non-positive base keeps its rate. |
| Tax.IncomeTaxMonotone | app.py:93-126 | For a fixed year, income tax never decreases as salary grows. |
| Tax.WholeBaseCliff2024 | app.py:93-126 | Because one rate covers the whole base: in 2024, salary 15,500,000 owes 840,000, while one unit more owes 2,100,000.15. |
| Payroll.MonthlySalary | app.py:160-168 | A monthly entry is used as is. An annual entry gives a monthly salary whose twelvefold is the entry. The monthly salary is non-negative exactly when the entry is. |
| Payroll.AnnualSalary | app.py:152-169 | The annual figure is always 12 × the monthly salary. An annual entry is shown as entered. |
| Payroll.AnnualEntryIsMonthlyTwelfth | app.py:160 | Entering annual a gives the same monthly and annual figures as entering monthly a / 12. |
| Payroll.SumAppend | app.py:177 | The sum of a concatenation is the sum of the parts. |
| Payroll.Sum | app.py:177 | The sum of one value is that value. Non-negative values have a non-negative sum, at least as large as the last value. |
| Payroll.InsuranceValues | app.py:68-77 | The insurance record holds eight values, and they add up to the four contributions plus the four rates. |
| Payroll.TaxValues | app.py:129-133 | The tax record holds three values, and they add up to both taxes plus the matched rate. |
| Payroll.TotalDeduction | app.py:177 | The computed total is the six amounts plus the five rates (four insurance, one tax). |
| Payroll.RatesAddedInBounds | app.py:73-76 | For any salary and year, the five rates added into the total sum to between 0.3 and 0.7. |
| Payroll.Calculate | app.py:152-178 | The monthly salary is the entry's monthly figure, which is non-negative. The annual figure is the entry's annual figure, 12 × the monthly one. Both engines run on the monthly salary. The total is the six amounts plus the five rates. Net salary + total = monthly salary, with no clamp. |
| Payroll.AnnualEntryMatchesMonthly | app.py:152-178 | For every non-negative annual entry a, the whole payslip equals the payslip of the monthly entry a / 12. |
| WorkedExamples.Example2024 | app.py:63-127 | 2024, monthly 3,000,000: pension 135,000; health 212,700; long-term care 212,700 × 0.1281 = 27,246.87; employment 27,000; taxable 1,500,000; rate 0.06; income tax 90,000; local tax 9,000; total 500,947.183; net 2,499,052.817. |
| WorkedExamples.AnnualDefaultMatchesMonthlyDefault | app.py:153-169 | In either year, an annual entry of 36,000,000 yields exactly the payslip of a monthly entry of 3,000,000. |
| WorkedExamples.Example2025 | app.py:58-127 | 2025, monthly 3,000,000: pension 141,000; health 219,000; long-term care 28,470; employment 24,000; rate 0.06; income tax 78,000; local tax 7,800; total 498,270.318; net 2,501,729.682. |
| WorkedExamples.SmallSalary2024 | app.py:93-178 | 2024, monthly 100,000: income tax −84,000, total −79,001.458, net 179,001.458. The net exceeds the gross. |
| WorkedExamples.SmallSalary2025 | app.py:110-178 | 2025, monthly 100,000: income tax −96,000, total −91,850.682, net 191,850.682. |
| WorkedExamples.NetDropsAtFirstBound2024 | app.py:94-178 | 2024: the net for 15,500,000 is 12,499,274.192, and the net for 15,500,001 is 11,113,274.80301771. |

## Left out

- Page setup, CSS, widgets, markdown output, the donut chart and the "more
  information" links (app.py:5-32, 137-256): rendering only, no computation.
- `format_number` (app.py:35-37): display formatting with Python rounding
  and comma grouping; the model keeps exact amounts.
- IEEE-754 floating point: amounts and rates are exact rationals, so the
  model makes no claim of bit-exact agreement with Python floats.
- The annual/monthly radio choice and the "calculate" button are inputs.
  They are modelled as the `SalaryEntry` parameter and a call to
  `Payroll.Calculate`.
- A salary-validation error: the code has none. A negative salary is
  excluded by `Payroll.Calculate`'s precondition, mirroring the widget's
  minimum of 0.
- The unbound-variable failure for an unknown year string (app.py:63, 126):
  `main` only passes the two select-box values (app.py:143), and `Year`
  cannot express any other.
