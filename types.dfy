/**
 * Record shapes of the payroll calculator (types.ts). Every amount is an exact real:
 * the source never rounds, so identities that hold up to floating-point error there
 * hold exactly here.
 */
module Types {

  /** The pay period in which `grossSalary` is stated. */
  datatype Period = Monthly | Biweekly | Weekly

  /** What the user enters. `vacationPremiumPercentage` is carried but never read by the engine. */
  datatype CalculationInputs = CalculationInputs(
    grossSalary: real,
    period: Period,
    yearsOfService: int,
    aguinaldoDays: real,
    vacationPremiumPercentage: real,
    statePayrollTax: real)

  /** Employer-side monthly contributions and totals. */
  datatype EmployerCost = EmployerCost(
    imssPatronal: real,
    infonavit: real,
    isn: real,
    totalMonthly: real,
    totalAnnual: real)

  /** One slice of the worker-side chart (the display colour is not modelled). */
  datatype BreakdownItem = BreakdownItem(name: string, value: real)

  /** Everything the engine computes for one input record. */
  datatype CalculationResult = CalculationResult(
    grossMonthly: real,
    grossAnnual: real,
    netMonthly: real,
    netAnnual: real,
    isr: real,
    imssWorker: real,
    aguinaldo: real,
    vacationPremium: real,
    employerCost: EmployerCost,
    breakdown: seq<BreakdownItem>)

  /** One row of the monthly income-tax (ISR) table: lower bound, fixed amount, marginal percentage. */
  datatype IsrTableEntry = IsrTableEntry(limitInferior: real, cuotaFija: real, porcentaje: real)
}
