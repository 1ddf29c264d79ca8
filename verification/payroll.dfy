/**
 The arithmetic around the two engines: turning the entered figure into a
 monthly salary (an annual figure is divided by 12; for a monthly one the
 annual figure is computed as twelve times it, though only an annual entry is
 displayed), running the insurance and tax calculations on
 the monthly salary, and aggregating their results into a total deduction and
 a net monthly salary.

 The total deduction is the sum of every value in the two result records,
 exactly as computed: besides the six amounts it therefore also adds the four
 insurance rates and the matched tax rate. `TotalDeduction` states the
 difference precisely.
 */
module Payroll {
  import opened RateTable
  import opened Insurance
  import opened Tax

  /** What the user entered: an annual or a monthly gross salary. */
  datatype SalaryEntry = Annual(amount: real) | Monthly(amount: real)

  /** Everything one calculation produces. */
  datatype Payslip = Payslip(
    monthlySalary: real,
    annualSalary: real,
    insurance: InsuranceResult,
    tax: TaxResult,
    totalDeduction: real,
    netSalary: real
  )

  /** The monthly salary fed to both engines: the entered monthly figure, or the twelfth part of
      the entered annual figure. */
  function MonthlySalary(e: SalaryEntry): (m: real)
    ensures e.Monthly? ==> m == e.amount
    ensures e.Annual? ==> 12.0 * m == e.amount
    ensures m >= 0.0 <==> e.amount >= 0.0
  {
    match e
    case Annual(a) => a / 12.0
    case Monthly(m) => m
  }

  /** The annual salary, computed as twelve monthly salaries; displayed only for an annual entry. */
  function AnnualSalary(e: SalaryEntry): (a: real)
    ensures a == 12.0 * MonthlySalary(e)
    ensures e.Annual? ==> a == e.amount
  {
    match e
    case Annual(a) => a
    case Monthly(m) => m * 12.0
  }

  /** Entering an annual salary is the same as entering a twelfth of it as the monthly salary. */
  lemma AnnualEntryIsMonthlyTwelfth(a: real)
    ensures MonthlySalary(Annual(a)) == MonthlySalary(Monthly(a / 12.0))
    ensures AnnualSalary(Annual(a)) == AnnualSalary(Monthly(a / 12.0))
  {
  }

  /** Sum of a sequence of values as Python's `sum` adds them, from 0 and left to right: a single
      value sums to itself, and values that are all non-negative have a non-negative sum at least as
      large as the last of them. */
  function Sum(s: seq<real>): (r: real)
    ensures |s| == 1 ==> r == s[0]
    ensures (forall i :: 0 <= i < |s| ==> s[i] >= 0.0) ==> r >= 0.0
    ensures (forall i :: 0 <= i < |s| ==> s[i] >= 0.0) && |s| > 0 ==> r >= s[|s| - 1]
  {
    if |s| == 0 then 0.0 else Sum(s[..|s| - 1]) + s[|s| - 1]
  }

  /** Summing a concatenation is summing the parts. */
  lemma {:induction false} SumAppend(a: seq<real>, b: seq<real>)
    ensures Sum(a + b) == Sum(a) + Sum(b)
    decreases |b|
  {
    if |b| == 0 {
      assert a + b == a;
    } else {
      assert (a + b)[..|a + b| - 1] == a + b[..|b| - 1];
      SumAppend(a, b[..|b| - 1]);
    }
  }

  /** Sum of a sequence of four values. */
  lemma Sum4(w: real, x: real, y: real, z: real)
    ensures Sum([w, x, y, z]) == w + x + y + z
  {
    Sum3(w, x, y);
    assert [w, x, y, z][..3] == [w, x, y];
  }

  /** Sum of a sequence of three values. */
  lemma Sum3(x: real, y: real, z: real)
    ensures Sum([x, y, z]) == x + y + z
  {
    assert [x][..0] == [];
    assert Sum([x]) == x;
    assert [x, y][..1] == [x];
    assert Sum([x, y]) == x + y;
    assert [x, y, z][..2] == [x, y];
  }

  /** The values of the insurance result record in their insertion order: four amounts, then four
      rates. They add up to the four contributions plus the four rates. */
  function InsuranceValues(r: InsuranceResult): (v: seq<real>)
    ensures |v| == 8
    ensures Sum(v) == InsuranceAmounts(r) + InsuranceRates(r)
  {
    var amounts := [r.nationalPension, r.healthInsurance, r.longTermCare, r.employmentInsurance];
    var rates := [r.nationalPensionRate, r.healthInsuranceRate, r.longTermCareRate, r.employmentInsuranceRate];
    SumAppend(amounts, rates);
    Sum4(r.nationalPension, r.healthInsurance, r.longTermCare, r.employmentInsurance);
    Sum4(r.nationalPensionRate, r.healthInsuranceRate, r.longTermCareRate, r.employmentInsuranceRate);
    amounts + rates
  }

  /** The values of the tax result record in their insertion order: two amounts, then the rate.
      They add up to both taxes plus the matched rate. */
  function TaxValues(r: TaxResult): (v: seq<real>)
    ensures |v| == 3
    ensures Sum(v) == r.incomeTax + r.localTax + r.taxRate
  {
    Sum3(r.incomeTax, r.localTax, r.taxRate);
    [r.incomeTax, r.localTax, r.taxRate]
  }

  /** The total deduction as computed: every value of both result records added up. It exceeds
      the sum of the six deduction amounts by exactly the sum of the five rates. */
  function TotalDeduction(ins: InsuranceResult, tax: TaxResult): (d: real)
    ensures d == DeductionAmounts(ins, tax) + RatesAddedIn(ins, tax)
  {
    Sum(InsuranceValues(ins)) + Sum(TaxValues(tax))
  }

  /** The six deduction amounts alone. */
  function DeductionAmounts(ins: InsuranceResult, tax: TaxResult): real
  {
    InsuranceAmounts(ins) + tax.incomeTax + tax.localTax
  }

  /** The five rates that the computed total also adds in. */
  function RatesAddedIn(ins: InsuranceResult, tax: TaxResult): real
  {
    InsuranceRates(ins) + tax.taxRate
  }

  /** For a year's results the rates added in come to between 0.3 and 0.7, so the computed total
      is off from the sum of the amounts by less than one currency unit. */
  lemma RatesAddedInBounds(salary: real, y: Year)
    ensures 0.3 < RatesAddedIn(CalculateInsurance(salary, y), CalculateTax(salary, y)) < 0.7
  {
    TaxRateInSchedule(salary, y);
  }

  /** One whole calculation for an entered salary and a tax year. */
  function Calculate(e: SalaryEntry, y: Year): (p: Payslip)
    requires e.amount >= 0.0
    ensures p.monthlySalary == MonthlySalary(e) && p.monthlySalary >= 0.0
    ensures p.annualSalary == AnnualSalary(e) == 12.0 * p.monthlySalary
    ensures p.insurance == CalculateInsurance(p.monthlySalary, y)
    ensures p.tax == CalculateTax(p.monthlySalary, y)
    ensures p.totalDeduction == DeductionAmounts(p.insurance, p.tax) + RatesAddedIn(p.insurance, p.tax)
    ensures p.netSalary + p.totalDeduction == p.monthlySalary
  {
    var monthly := MonthlySalary(e);
    var ins := CalculateInsurance(monthly, y);
    var tax := CalculateTax(monthly, y);
    var total := TotalDeduction(ins, tax);
    Payslip(monthly, AnnualSalary(e), ins, tax, total, monthly - total)
  }

  /** Entering an annual salary yields exactly the payslip of entering a twelfth of it monthly. */
  lemma AnnualEntryMatchesMonthly(a: real, y: Year)
    requires a >= 0.0
    ensures Calculate(Annual(a), y) == Calculate(Monthly(a / 12.0), y)
  {
    var p, q := Calculate(Annual(a), y), Calculate(Monthly(a / 12.0), y);
    AnnualEntryIsMonthlyTwelfth(a);
    assert p.monthlySalary == q.monthlySalary && p.annualSalary == q.annualSalary;
    assert p.insurance == q.insurance && p.tax == q.tax;
  }
}
