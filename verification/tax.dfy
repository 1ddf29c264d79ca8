/**
 Income tax and local income tax on a monthly salary. The year's earned-income
 deduction is subtracted (with no clamp at zero), one marginal rate is chosen
 from the year's bracket schedule, that single rate is applied to the whole
 taxable base, and a fixed 10% local surtax is added on top.
 */
module Tax {
  import opened Brackets
  import opened RateTable

  /** The result of the tax calculation: the two tax amounts and the matched bracket rate. */
  datatype TaxResult = TaxResult(incomeTax: real, localTax: real, taxRate: real)

  /** Salary minus the year's earned-income deduction; negative for small salaries, with no clamp. */
  function TaxableIncome(salary: real, y: Year): (t: real)
    ensures t < 0.0 <==> salary < Rates(y).earnedIncomeDeduction
    ensures t < salary
  {
    salary - Rates(y).earnedIncomeDeduction
  }

  /** The 2024 bracket choice written as the literal chain of comparisons. */
  function ChainRate2024(t: real): (r: real)
    ensures r in {0.06, 0.15, 0.24, 0.35, 0.38, 0.40, 0.42}
  {
    if t <= 14000000.0 then 0.06
    else if t <= 50000000.0 then 0.15
    else if t <= 88000000.0 then 0.24
    else if t <= 150000000.0 then 0.35
    else if t <= 300000000.0 then 0.38
    else if t <= 500000000.0 then 0.40
    else 0.42
  }

  /** The 2025 bracket choice written as the literal chain of comparisons. */
  function ChainRate2025(t: real): (r: real)
    ensures r in {0.06, 0.16, 0.25, 0.36, 0.39, 0.41, 0.43}
  {
    if t <= 15000000.0 then 0.06
    else if t <= 55000000.0 then 0.16
    else if t <= 95000000.0 then 0.25
    else if t <= 160000000.0 then 0.36
    else if t <= 330000000.0 then 0.39
    else if t <= 550000000.0 then 0.41
    else 0.43
  }

  /** The literal chain of the given year; every rate it yields lies between 0.06 and the year's top rate. */
  function ChainRate(y: Year, t: real): (r: real)
    ensures 0.06 <= r <= Rates(y).topRate
  {
    match y
    case Y2024 => ChainRate2024(t)
    case Y2025 => ChainRate2025(t)
  }

  /** The marginal rate for taxable income `t` in year `y`, found by scanning the year's schedule:
      always one of the year's rates, the first one for an income at or below the first bound. */
  function YearRate(y: Year, t: real): (r: real)
    ensures r in RatesOf(Rates(y).brackets, Rates(y).topRate)
    ensures t <= Rates(y).brackets[0].upper ==> r == Rates(y).brackets[0].rate
  {
    MarginalRate(Rates(y).brackets, Rates(y).topRate, t)
  }

  /** Scanning the schedule for the first bound not exceeded picks the same rate as the literal chain. */
  lemma ScheduleMatchesChain(y: Year, t: real)
    ensures YearRate(y, t) == ChainRate(y, t)
  {
    var bs, top := Rates(y).brackets, Rates(y).topRate;
    assert Sensible(Rates(y));
    var i := ChainBand(y, t);
    if i < 6 {
      InBand(bs, top, i, t);
    } else {
      AboveAll(bs, top, t);
    }
  }

  /** The position of the literal chain's branch taken for `t`, 0 to 5 for a bounded bracket, 6 for the else. */
  function ChainBand(y: Year, t: real): (i: nat)
    ensures i <= 6
    ensures i < 6 ==> (i == 0 || Rates(y).brackets[i - 1].upper < t) && t <= Rates(y).brackets[i].upper
    ensures i < 6 ==> ChainRate(y, t) == Rates(y).brackets[i].rate
    ensures i == 6 ==> Rates(y).brackets[5].upper < t && ChainRate(y, t) == Rates(y).topRate
  {
    var bs := Rates(y).brackets;
    if t <= bs[0].upper then 0
    else if t <= bs[1].upper then 1
    else if t <= bs[2].upper then 2
    else if t <= bs[3].upper then 3
    else if t <= bs[4].upper then 4
    else if t <= bs[5].upper then 5
    else 6
  }

  /** One marginal rate applied to the whole taxable base, plus the local surtax on the result.
      Under a positive rate both taxes have the sign of the base, and together they come to
      1.1 times the base times the rate. */
  function FlatTax(taxable: real, rate: real): (r: TaxResult)
    ensures r.taxRate == rate
    ensures r.incomeTax == taxable * rate
    ensures r.localTax == r.incomeTax * LocalTaxRate
    ensures r.incomeTax + r.localTax == 1.1 * (taxable * rate)
    ensures rate > 0.0 ==> (r.incomeTax < 0.0 <==> taxable < 0.0)
    ensures rate > 0.0 ==> (r.incomeTax == 0.0 <==> taxable == 0.0)
    ensures rate > 0.0 ==> (r.localTax < 0.0 <==> taxable < 0.0)
  {
    var incomeTax := taxable * rate;
    TaxResult(incomeTax, incomeTax * LocalTaxRate, rate)
  }

  /** Income tax, local income tax and the matched rate for monthly salary `salary` in year `y`:
      the whole base is taxed at the rate the literal bracket chain picks. */
  function CalculateTax(salary: real, y: Year): (r: TaxResult)
    ensures r == FlatTax(TaxableIncome(salary, y), ChainRate(y, TaxableIncome(salary, y)))
  {
    var taxable := TaxableIncome(salary, y);
    ScheduleMatchesChain(y, taxable);
    FlatTax(taxable, YearRate(y, taxable))
  }

  /** The matched rate is one of the year's listed rates, from the lowest bracket's up to the top rate. */
  lemma TaxRateInSchedule(salary: real, y: Year)
    ensures CalculateTax(salary, y).taxRate in RatesOf(Rates(y).brackets, Rates(y).topRate)
    ensures Rates(y).brackets[0].rate <= CalculateTax(salary, y).taxRate <= Rates(y).topRate
  {
    RateWithinSchedule(Rates(y).brackets, Rates(y).topRate, TaxableIncome(salary, y));
  }

  /** Income tax, and with it local tax, is negative exactly when salary is below the deduction and zero
      exactly when it equals it: no clamp is applied. */
  lemma TaxSign(salary: real, y: Year)
    ensures CalculateTax(salary, y).incomeTax < 0.0 <==> salary < Rates(y).earnedIncomeDeduction
    ensures CalculateTax(salary, y).incomeTax == 0.0 <==> salary == Rates(y).earnedIncomeDeduction
    ensures CalculateTax(salary, y).localTax < 0.0 <==> salary < Rates(y).earnedIncomeDeduction
  {
    var t := TaxableIncome(salary, y);
    assert ChainRate(y, t) >= 0.06;
  }

  /** A taxable income exactly at a bracket's upper bound gets that bracket's (lower) rate. */
  lemma BoundGetsLowerRate(y: Year, i: int)
    requires 0 <= i < |Rates(y).brackets|
    ensures YearRate(y, Rates(y).brackets[i].upper) == Rates(y).brackets[i].rate
  {
    InBand(Rates(y).brackets, Rates(y).topRate, i, Rates(y).brackets[i].upper);
  }

  /** In 2024 a taxable income of exactly 14,000,000 is taxed at 0.06, one unit more at 0.15,
      and anything above 500,000,000 at 0.42. */
  lemma Boundaries2024(t: real)
    requires t > 500000000.0
    ensures YearRate(Y2024, 14000000.0) == 0.06
    ensures YearRate(Y2024, 14000001.0) == 0.15
    ensures YearRate(Y2024, t) == 0.42
  {
    ScheduleMatchesChain(Y2024, 14000000.0);
    ScheduleMatchesChain(Y2024, 14000001.0);
    ScheduleMatchesChain(Y2024, t);
  }

  /** In 2025 a taxable income of exactly 15,000,000 is taxed at 0.06, one unit more at 0.16,
      and anything above 550,000,000 at 0.43. */
  lemma Boundaries2025(t: real)
    requires t > 550000000.0
    ensures YearRate(Y2025, 15000000.0) == 0.06
    ensures YearRate(Y2025, 15000001.0) == 0.16
    ensures YearRate(Y2025, t) == 0.43
  {
    ScheduleMatchesChain(Y2025, 15000000.0);
    ScheduleMatchesChain(Y2025, 15000001.0);
    ScheduleMatchesChain(Y2025, t);
  }

  /** Any salary below the deduction falls into the lowest bracket, rate 0.06, and yields a negative income tax. */
  lemma BelowDeductionGetsLowestRate(y: Year, salary: real)
    requires salary < Rates(y).earnedIncomeDeduction
    ensures CalculateTax(salary, y).taxRate == 0.06
    ensures CalculateTax(salary, y).incomeTax < 0.0
    ensures CalculateTax(salary, y).incomeTax == 0.06 * (salary - Rates(y).earnedIncomeDeduction)
  {
  }

  /** For a fixed year the matched rate never decreases as salary grows. */
  lemma TaxRateMonotone(y: Year, s1: real, s2: real)
    requires s1 <= s2
    ensures CalculateTax(s1, y).taxRate <= CalculateTax(s2, y).taxRate
  {
    MarginalRateMonotone(Rates(y).brackets, Rates(y).topRate, TaxableIncome(s1, y), TaxableIncome(s2, y));
  }

  /** The flat tax grows with the base and the rate, provided a non-positive base keeps its rate. */
  lemma FlatTaxMonotone(t1: real, r1: real, t2: real, r2: real)
    requires t1 <= t2 && 0.0 < r1 <= r2
    requires t2 <= 0.0 ==> r1 == r2
    ensures FlatTax(t1, r1).incomeTax <= FlatTax(t2, r2).incomeTax
  {
    assert FlatTax(t1, r1).incomeTax == t1 * r1;
    assert FlatTax(t2, r2).incomeTax == t2 * r2;
    if t2 <= 0.0 {
      assert r1 == r2;
      assert t1 * r1 <= t2 * r1;
    } else if t1 <= 0.0 {
      assert t1 * r1 <= 0.0 <= t2 * r2;
    } else {
      ProductMonotone(t1, t2, r1, r2);
    }
  }

  /** Products of non-negative factors grow with each factor. */
  lemma ProductMonotone(a: real, b: real, c: real, d: real)
    requires 0.0 <= a <= b && 0.0 <= c <= d
    ensures a * c <= b * d
  {
    assert a * c <= b * c;
    assert b * c <= b * d;
  }

  /** Income tax never decreases as salary grows, although it jumps at each bound. */
  lemma IncomeTaxMonotone(y: Year, s1: real, s2: real)
    requires s1 <= s2
    ensures CalculateTax(s1, y).incomeTax <= CalculateTax(s2, y).incomeTax
  {
    var t1, t2 := TaxableIncome(s1, y), TaxableIncome(s2, y);
    TaxRateMonotone(y, s1, s2);
    assert ChainRate(y, t1) >= 0.06;
    FlatTaxMonotone(t1, ChainRate(y, t1), t2, ChainRate(y, t2));
  }

  /** The matched rate applies to the whole base, not progressively: one more unit of taxable
      income past the first 2024 bound raises income tax from 840,000 to 2,100,000.15. */
  lemma WholeBaseCliff2024()
    ensures CalculateTax(15500000.0, Y2024).incomeTax == 840000.0
    ensures CalculateTax(15500001.0, Y2024).incomeTax == 2100000.15
  {
  }
}
