/**
 Concrete calculations, computed exactly on rationals: the default inputs of
 the calculator (a monthly salary of 3,000,000, or equivalently an annual
 salary of 36,000,000) in both years, a salary below the deduction, and the net-pay drop at
 the first 2024 bracket bound.
 */
module WorkedExamples {
  import opened RateTable
  import opened Insurance
  import opened Tax
  import opened Payroll

  /** 2024, monthly salary 3,000,000: every amount, the matched rate, the total and the net salary. */
  lemma Example2024()
    ensures Calculate(Monthly(3000000.0), Y2024).insurance.nationalPension == 135000.0
    ensures Calculate(Monthly(3000000.0), Y2024).insurance.healthInsurance == 212700.0
    ensures Calculate(Monthly(3000000.0), Y2024).insurance.longTermCare == 212700.0 * 0.1281 == 27246.87
    ensures Calculate(Monthly(3000000.0), Y2024).insurance.employmentInsurance == 27000.0
    ensures TaxableIncome(3000000.0, Y2024) == 1500000.0
    ensures Calculate(Monthly(3000000.0), Y2024).tax.taxRate == 0.06
    ensures Calculate(Monthly(3000000.0), Y2024).tax.incomeTax == 90000.0
    ensures Calculate(Monthly(3000000.0), Y2024).tax.localTax == 9000.0
    ensures Calculate(Monthly(3000000.0), Y2024).totalDeduction == 500947.183
    ensures Calculate(Monthly(3000000.0), Y2024).netSalary == 2499052.817
  {
  }

  /** The default annual entry of 36,000,000 gives the same payslip as the default monthly entry. */
  lemma AnnualDefaultMatchesMonthlyDefault(y: Year)
    ensures Calculate(Annual(36000000.0), y) == Calculate(Monthly(3000000.0), y)
  {
  }

  /** 2025, monthly salary 3,000,000. */
  lemma Example2025()
    ensures Calculate(Monthly(3000000.0), Y2025).insurance.nationalPension == 141000.0
    ensures Calculate(Monthly(3000000.0), Y2025).insurance.healthInsurance == 219000.0
    ensures Calculate(Monthly(3000000.0), Y2025).insurance.longTermCare == 28470.0
    ensures Calculate(Monthly(3000000.0), Y2025).insurance.employmentInsurance == 24000.0
    ensures Calculate(Monthly(3000000.0), Y2025).tax.taxRate == 0.06
    ensures Calculate(Monthly(3000000.0), Y2025).tax.incomeTax == 78000.0
    ensures Calculate(Monthly(3000000.0), Y2025).tax.localTax == 7800.0
    ensures Calculate(Monthly(3000000.0), Y2025).totalDeduction == 498270.318
    ensures Calculate(Monthly(3000000.0), Y2025).netSalary == 2501729.682
  {
  }

  /** A salary of 100,000, far below the deduction, pays a negative income tax, so the total
      deduction is negative and the net salary exceeds the gross: nothing clamps either figure. */
  lemma SmallSalary2024()
    ensures Calculate(Monthly(100000.0), Y2024).tax.incomeTax == -84000.0
    ensures Calculate(Monthly(100000.0), Y2024).totalDeduction == -79001.458
    ensures Calculate(Monthly(100000.0), Y2024).netSalary == 179001.458
  {
  }

  /** The same for 2025, whose larger deduction gives a larger negative income tax. */
  lemma SmallSalary2025()
    ensures Calculate(Monthly(100000.0), Y2025).tax.incomeTax == -96000.0
    ensures Calculate(Monthly(100000.0), Y2025).totalDeduction == -91850.682
    ensures Calculate(Monthly(100000.0), Y2025).netSalary == 191850.682
  {
  }

  /** Because the matched rate applies to the whole base, one more unit of salary past the first
      2024 bound lowers the net salary by more than 1.38 million. */
  lemma NetDropsAtFirstBound2024()
    ensures Calculate(Monthly(15500000.0), Y2024).netSalary == 12499274.192
    ensures Calculate(Monthly(15500001.0), Y2024).netSalary == 11113274.80301771
  {
  }
}
