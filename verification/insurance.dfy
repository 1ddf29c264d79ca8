/**
 The four social-insurance contributions on a monthly salary: national
 pension, health insurance, long-term care (compounded on the health-insurance
 amount) and employment insurance, together with the rates used.
 */
module Insurance {
  import opened RateTable

  /** The result of the insurance calculation: four amounts and the four rates behind them. */
  datatype InsuranceResult = InsuranceResult(
    nationalPension: real,
    healthInsurance: real,
    longTermCare: real,
    employmentInsurance: real,
    nationalPensionRate: real,
    healthInsuranceRate: real,
    longTermCareRate: real,
    employmentInsuranceRate: real
  )

  /** The four contributions on the monthly salary `salary` for tax year `y`. */
  function CalculateInsurance(salary: real, y: Year): (r: InsuranceResult)
    ensures r.nationalPensionRate == Rates(y).nationalPensionRate
    ensures r.healthInsuranceRate == Rates(y).healthInsuranceRate
    ensures r.longTermCareRate == Rates(y).longTermCareRate
    ensures r.employmentInsuranceRate == Rates(y).employmentInsuranceRate
    ensures r.nationalPension == salary * r.nationalPensionRate
    ensures r.healthInsurance == salary * r.healthInsuranceRate
    ensures r.employmentInsurance == salary * r.employmentInsuranceRate
    // long-term care is a rate on the health-insurance amount, so on salary its
    // effective rate is the product of the two rates
    ensures r.longTermCare == r.healthInsurance * r.longTermCareRate
    ensures r.longTermCare == salary * (r.healthInsuranceRate * r.longTermCareRate)
    ensures salary >= 0.0 ==>
      && 0.0 <= r.nationalPension <= salary
      && 0.0 <= r.healthInsurance <= salary
      && 0.0 <= r.longTermCare <= r.healthInsurance
      && 0.0 <= r.employmentInsurance <= salary
  {
    var rs := Rates(y);
    var healthInsurance := salary * rs.healthInsuranceRate;
    InsuranceResult(
      salary * rs.nationalPensionRate,
      healthInsurance,
      healthInsurance * rs.longTermCareRate,
      salary * rs.employmentInsuranceRate,
      rs.nationalPensionRate,
      rs.healthInsuranceRate,
      rs.longTermCareRate,
      rs.employmentInsuranceRate)
  }

  /** Sum of the four contribution amounts. */
  function InsuranceAmounts(r: InsuranceResult): real
  {
    r.nationalPension + r.healthInsurance + r.longTermCare + r.employmentInsurance
  }

  /** Sum of the four rates. */
  function InsuranceRates(r: InsuranceResult): real
  {
    r.nationalPensionRate + r.healthInsuranceRate + r.longTermCareRate + r.employmentInsuranceRate
  }

  /** The contributions are linear in salary: the contributions on `a + b` are those on `a` plus those on `b`. */
  lemma InsuranceAdditive(a: real, b: real, y: Year)
    ensures CalculateInsurance(a + b, y).nationalPension
         == CalculateInsurance(a, y).nationalPension + CalculateInsurance(b, y).nationalPension
    ensures CalculateInsurance(a + b, y).healthInsurance
         == CalculateInsurance(a, y).healthInsurance + CalculateInsurance(b, y).healthInsurance
    ensures CalculateInsurance(a + b, y).longTermCare
         == CalculateInsurance(a, y).longTermCare + CalculateInsurance(b, y).longTermCare
    ensures CalculateInsurance(a + b, y).employmentInsurance
         == CalculateInsurance(a, y).employmentInsurance + CalculateInsurance(b, y).employmentInsurance
  {
  }

  /** Scaling the salary by `c` scales every contribution by `c`; the rates do not change. */
  lemma InsuranceHomogeneous(c: real, s: real, y: Year)
    ensures CalculateInsurance(c * s, y).nationalPension == c * CalculateInsurance(s, y).nationalPension
    ensures CalculateInsurance(c * s, y).healthInsurance == c * CalculateInsurance(s, y).healthInsurance
    ensures CalculateInsurance(c * s, y).longTermCare == c * CalculateInsurance(s, y).longTermCare
    ensures CalculateInsurance(c * s, y).employmentInsurance == c * CalculateInsurance(s, y).employmentInsurance
    ensures InsuranceAmounts(CalculateInsurance(c * s, y)) == c * InsuranceAmounts(CalculateInsurance(s, y))
    ensures InsuranceRates(CalculateInsurance(c * s, y)) == InsuranceRates(CalculateInsurance(s, y))
    ensures CalculateInsurance(c * s, y).nationalPensionRate == CalculateInsurance(s, y).nationalPensionRate
    ensures CalculateInsurance(c * s, y).healthInsuranceRate == CalculateInsurance(s, y).healthInsuranceRate
    ensures CalculateInsurance(c * s, y).longTermCareRate == CalculateInsurance(s, y).longTermCareRate
    ensures CalculateInsurance(c * s, y).employmentInsuranceRate == CalculateInsurance(s, y).employmentInsuranceRate
  {
    var r1, r2 := CalculateInsurance(c * s, y), CalculateInsurance(s, y);
    assert r1.longTermCare == c * r2.longTermCare;
  }

  /** A larger salary never yields a smaller contribution. */
  lemma InsuranceMonotone(a: real, b: real, y: Year)
    requires a <= b
    ensures CalculateInsurance(a, y).nationalPension <= CalculateInsurance(b, y).nationalPension
    ensures CalculateInsurance(a, y).healthInsurance <= CalculateInsurance(b, y).healthInsurance
    ensures CalculateInsurance(a, y).longTermCare <= CalculateInsurance(b, y).longTermCare
    ensures CalculateInsurance(a, y).employmentInsurance <= CalculateInsurance(b, y).employmentInsurance
  {
    InsuranceAdditive(a, b - a, y);
    assert a + (b - a) == b;
  }
}
