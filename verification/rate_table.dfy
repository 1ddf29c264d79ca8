/**
 The static per-year configuration of the calculator: the four social-insurance
 rates, the flat earned-income deduction and the income-tax schedule for each
 supported tax year, plus the fixed local-income-tax surtax.
 */
module RateTable {
  import opened Brackets

  /** The two tax years the calculator offers. */
  datatype Year = Y2024 | Y2025

  /** Everything that differs between tax years. */
  datatype RateSet = RateSet(
    nationalPensionRate: real,
    healthInsuranceRate: real,
    longTermCareRate: real,        // applied to the health-insurance amount, not to salary
    employmentInsuranceRate: real,
    earnedIncomeDeduction: real,   // subtracted from monthly salary before the bracket lookup
    brackets: seq<Bracket>,
    topRate: real                  // the unbounded final bracket
  )

  /** Local income tax is this fraction of income tax, in every year. */
  const LocalTaxRate: real := 0.1

  /** A rate set the calculator can sensibly use: proper fractional rates, a positive
      deduction, an ascending schedule whose lowest bound is positive. */
  predicate Sensible(rs: RateSet)
  {
    && 0.0 < rs.nationalPensionRate < 1.0
    && 0.0 < rs.healthInsuranceRate < 1.0
    && 0.0 < rs.longTermCareRate < 1.0
    && 0.0 < rs.employmentInsuranceRate < 1.0
    && rs.earnedIncomeDeduction > 0.0
    && |rs.brackets| > 0
    && rs.brackets[0].upper > 0.0
    && rs.brackets[0].rate > 0.0
    && rs.topRate < 1.0
    && Ascending(rs.brackets, rs.topRate)
  }

  /** The rate set of a tax year. */
  function Rates(y: Year): (rs: RateSet)
    ensures Sensible(rs)
    ensures |rs.brackets| == 6
  {
    match y
    case Y2024 =>
      RateSet(0.045, 0.0709, 0.1281, 0.009, 1500000.0,
              [Bracket(14000000.0, 0.06), Bracket(50000000.0, 0.15), Bracket(88000000.0, 0.24),
               Bracket(150000000.0, 0.35), Bracket(300000000.0, 0.38), Bracket(500000000.0, 0.40)],
              0.42)
    case Y2025 =>
      RateSet(0.047, 0.073, 0.13, 0.008, 1700000.0,
              [Bracket(15000000.0, 0.06), Bracket(55000000.0, 0.16), Bracket(95000000.0, 0.25),
               Bracket(160000000.0, 0.36), Bracket(330000000.0, 0.39), Bracket(550000000.0, 0.41)],
              0.43)
  }
}
