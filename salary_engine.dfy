/**
 * calculatePayroll (services/salaryEngine.ts): one input record in, one result record
 * out, no state. Each step of the source is a function here and `CalculatePayroll`
 * assembles them.
 */
module SalaryEngine {
  import opened Wrappers
  import opened Types
  import opened Constants

  /** Statutory minimum vacation premium, applied whatever the input says. */
  const LegalVacationPremiumRate: real := 0.25
  /** Average days per month used throughout. */
  const DaysPerMonth: real := 30.4
  const ImssWorkerRate: real := 0.027
  const ImssPatronalRate: real := 0.22
  const InfonavitRate: real := 0.05
  /** The worker contribution is computed as though the base were at most this many UMA. */
  const UmaCapMultiple: real := 25.0
  /** Employer social load added on top of the annual bonus and vacation premium. */
  const BenefitsLoad: real := 1.3

  // ---------------------------------------------------------------------------
  // Normalisation and derived daily amounts
  // ---------------------------------------------------------------------------

  /** The pay stated per `period`, restated per month (biweekly doubles, weekly scales by 30.4/7). */
  function MonthlyGross(grossSalary: real, period: Period): (m: real)
    ensures m > 0.0 <==> grossSalary > 0.0
    ensures m == 0.0 <==> grossSalary == 0.0
  {
    match period
    case Biweekly => grossSalary * 2.0
    case Weekly => (grossSalary / 7.0) * DaysPerMonth
    case Monthly => grossSalary
  }

  /** The daily salary: a month is 30.4 days. */
  function DailySalary(monthlyGross: real): (d: real)
    ensures d * DaysPerMonth == monthlyGross
  {
    monthlyGross / DaysPerMonth
  }

  /** Factor grossing the daily salary up by the bonus days and the premium share of vacation days. */
  function IntegrationFactor(aguinaldoDays: real, vacationDays: int): (f: real)
    ensures aguinaldoDays >= 0.0 && vacationDays >= 0 ==> f >= 1.0
    ensures f * 365.0 == 365.0 + aguinaldoDays + vacationDays as real * LegalVacationPremiumRate
  {
    (365.0 + aguinaldoDays + vacationDays as real * LegalVacationPremiumRate) / 365.0
  }

  // The record forms below name the engine's intermediate values for a whole input record,
  // so that lemmas about `CalculatePayrollWith(table, inputs)` can state them directly.

  /** Monthly gross of an input record. */
  function GrossMonthlyOf(inputs: CalculationInputs): real {
    MonthlyGross(inputs.grossSalary, inputs.period)
  }

  /** Daily salary of an input record. */
  function DailySalaryOf(inputs: CalculationInputs): real {
    DailySalary(GrossMonthlyOf(inputs))
  }

  /** The social-security contribution base (SBC) of an input record. */
  function Sbc(inputs: CalculationInputs): real {
    DailySalaryOf(inputs) * IntegrationFactor(inputs.aguinaldoDays, VacationDays(inputs.yearsOfService))
  }


  /** With a non-negative salary and bonus, the contribution base is at least the daily salary. */
  lemma SbcAtLeastDailySalary(inputs: CalculationInputs)
    requires inputs.grossSalary >= 0.0 && inputs.aguinaldoDays >= 0.0
    ensures Sbc(inputs) >= DailySalaryOf(inputs)
  {
    var d := DailySalaryOf(inputs);
    var f := IntegrationFactor(inputs.aguinaldoDays, VacationDays(inputs.yearsOfService));
    assert d >= 0.0;
    assert f >= 1.0;
    assert d * f - d == d * (f - 1.0);
  }

  // ---------------------------------------------------------------------------
  // ISR: bracket search and tax
  // ---------------------------------------------------------------------------

  /**
   * The bracket search `[...table].reverse().find(e => gross >= e.limitInferior)`
   * restricted to the first `n` rows: scan from row n-1 down to row 0 and return the
   * first index whose lower bound does not exceed `gross`.
   */
  function FindBracket(t: seq<IsrTableEntry>, gross: real, n: nat): (r: Option<nat>)
    requires n <= |t|
    ensures r.Some? ==> r.value < n && t[r.value].limitInferior <= gross
    ensures r.Some? ==> forall k :: r.value < k < n ==> t[k].limitInferior > gross
    ensures r.None? ==> forall k :: 0 <= k < n ==> t[k].limitInferior > gross
  {
    if n == 0 then None
    else if gross >= t[n - 1].limitInferior then Some(n - 1)
    else FindBracket(t, gross, n - 1)
  }

  /** The bracket of `gross` in the whole table. */
  function BracketOf(t: seq<IsrTableEntry>, gross: real): (r: Option<nat>)
    ensures r.Some? ==> r.value < |t| && t[r.value].limitInferior <= gross
    ensures r.None? ==> forall k :: 0 <= k < |t| ==> t[k].limitInferior > gross
  {
    FindBracket(t, gross, |t|)
  }

  /**
   * On a sorted table the search finds row k exactly when k is the row with the greatest
   * lower bound not above `gross`, i.e. gross lies in [lower(k), lower(k+1)); it finds
   * nothing exactly when `gross` is below the first lower bound.
   */
  lemma BracketIsGreatestLowerBound(t: seq<IsrTableEntry>, gross: real, k: nat)
    requires StrictlySorted(t)
    ensures BracketOf(t, gross) == Some(k) <==>
      k < |t| && t[k].limitInferior <= gross && (k + 1 == |t| || gross < t[k + 1].limitInferior)
    ensures BracketOf(t, gross).None? <==> |t| == 0 || gross < t[0].limitInferior
  {
    var r := BracketOf(t, gross);
    if k < |t| && t[k].limitInferior <= gross && (k + 1 == |t| || gross < t[k + 1].limitInferior) {
      forall j | k < j < |t| ensures t[j].limitInferior > gross {
        if j > k + 1 {
          assert t[k + 1].limitInferior < t[j].limitInferior;
        }
      }
    }
  }

  /** A larger gross never selects a bracket with a smaller lower bound. */
  lemma BracketMonotone(t: seq<IsrTableEntry>, g1: real, g2: real)
    requires StrictlySorted(t) && g1 <= g2
    ensures BracketOf(t, g1).Some? ==> BracketOf(t, g2).Some?
    ensures BracketOf(t, g1).Some? ==> BracketOf(t, g1).value <= BracketOf(t, g2).value
  {
  }

  /** Multiplying both sides of a <= b by a non-negative c keeps the order. */
  lemma ScaleMonotone(a: real, b: real, c: real)
    requires a <= b && c >= 0.0
    ensures a * c <= b * c
  {
  }

  /** The tax of one row: fixed amount plus the percentage of the excess over the lower bound. */
  function RowTax(e: IsrTableEntry, gross: real): (tax: real)
    ensures gross == e.limitInferior ==> tax == e.cuotaFija
  {
    e.cuotaFija + (gross - e.limitInferior) * (e.porcentaje / 100.0)
  }

  /** At or above its lower bound, a row with a non-negative percentage taxes at least its fixed amount. */
  lemma RowTaxAtLeastFixedAmount(e: IsrTableEntry, gross: real)
    requires gross >= e.limitInferior && e.porcentaje >= 0.0
    ensures RowTax(e, gross) >= e.cuotaFija
  {
    var rate := e.porcentaje / 100.0;
    assert rate >= 0.0;
    ScaleMonotone(0.0, gross - e.limitInferior, rate);
    assert 0.0 * rate == 0.0;
  }

  /** ISR withheld on a monthly gross: 0 when no row matches. */
  function Isr(t: seq<IsrTableEntry>, gross: real): (isr: real)
    ensures BracketOf(t, gross).None? ==> isr == 0.0
  {
    match BracketOf(t, gross)
    case Some(k) => RowTax(t[k], gross)
    case None => 0.0
  }

  /** Below the first lower bound (zero or negative pay) no row matches and the tax is zero. */
  lemma IsrZeroBelowFirstBracket(t: seq<IsrTableEntry>, gross: real)
    requires StrictlySorted(t) && |t| > 0 && gross < t[0].limitInferior
    ensures Isr(t, gross) == 0.0
  {
    BracketIsGreatestLowerBound(t, gross, 0);
  }

  /** From the first lower bound on, a table with non-negative rows never yields a negative tax. */
  lemma IsrNonNegative(t: seq<IsrTableEntry>, gross: real)
    requires |t| > 0 && NonNegativeRows(t) && gross >= t[0].limitInferior
    ensures BracketOf(t, gross).Some?
    ensures Isr(t, gross) >= 0.0
  {
    var k := BracketOf(t, gross).value;
    var e := t[k];
    assert e.cuotaFija >= 0.0 && e.porcentaje >= 0.0;
    RowTaxAtLeastFixedAmount(e, gross);
    assert Isr(t, gross) == RowTax(e, gross);
  }

  /** When every rate is at most `top` percent, the tax is at most `top` percent of the gross. */
  lemma IsrEffectiveRateBound(t: seq<IsrTableEntry>, gross: real, top: real)
    requires RatesAtMost(t, top)
    requires |t| > 0 && NonNegativeRows(t) && gross >= t[0].limitInferior
    ensures Isr(t, gross) * 100.0 <= top * gross
  {
    var k := BracketOf(t, gross).value;
    var e := t[k];
    var excess := gross - e.limitInferior;
    assert excess >= 0.0;
    ScaleMonotone(e.porcentaje, top, excess);
    assert Isr(t, gross) == RowTax(e, gross);
    assert Isr(t, gross) * 100.0 == e.cuotaFija * 100.0 + excess * e.porcentaje;
  }

  /** Inside one bracket, the tax never falls as the gross rises. */
  lemma IsrMonotoneWithinBracket(t: seq<IsrTableEntry>, g1: real, g2: real)
    requires StrictlySorted(t) && NonNegativeRows(t) && g1 <= g2
    requires BracketOf(t, g1).Some? && BracketOf(t, g1) == BracketOf(t, g2)
    ensures Isr(t, g1) <= Isr(t, g2)
  {
    var k := BracketOf(t, g1).value;
    var e := t[k];
    assert BracketOf(t, g2) == Some(k);
    assert e.porcentaje >= 0.0;
    var rate := e.porcentaje / 100.0;
    assert rate >= 0.0;
    ScaleMonotone(g1 - e.limitInferior, g2 - e.limitInferior, rate);
    assert RowTax(e, g1) <= RowTax(e, g2);
    assert Isr(t, g1) == RowTax(e, g1) && Isr(t, g2) == RowTax(e, g2);
  }

  /**
   * Across a bracket edge the 2024 table is not monotone: its fixed amounts are rounded,
   * so one cent more gross at 746.05 withholds less than at 746.04.
   */
  lemma Isr2024DropsAtBracketEdge()
    ensures Isr(IsrMonthlyTable2024(), 746.04) == 14.323776
    ensures Isr(IsrMonthlyTable2024(), 746.05) == 14.32
  {
    var t := IsrMonthlyTable2024();
    assert t[0] == IsrTableEntry(0.01, 0.0, 1.92);
    assert t[1] == IsrTableEntry(746.05, 14.32, 6.40);
    BracketIsGreatestLowerBound(t, 746.04, 0);
    BracketIsGreatestLowerBound(t, 746.05, 1);
    assert Isr(t, 746.04) == RowTax(t[0], 746.04);
    assert Isr(t, 746.05) == RowTax(t[1], 746.05);
  }

  /** ISR on the 2024 table: 0 for gross below 0.01, otherwise between 0 and 35% of the gross. */
  lemma Isr2024Bounds(gross: real)
    ensures gross < 0.01 ==> Isr(IsrMonthlyTable2024(), gross) == 0.0
    ensures gross >= 0.01 ==> 0.0 <= Isr(IsrMonthlyTable2024(), gross) && Isr(IsrMonthlyTable2024(), gross) * 100.0 <= 35.0 * gross
  {
    var t := IsrMonthlyTable2024();
    if gross >= 0.01 {
      IsrNonNegative(t, gross);
      IsrEffectiveRateBound(t, gross, 35.0);
    }
  }

  /** A monthly gross of 5000 falls in the 746.05 row: 14.32 + 4253.95 * 6.4% = 286.5728. */
  lemma Isr2024At5000()
    ensures BracketOf(IsrMonthlyTable2024(), 5000.0) == Some(1)
    ensures Isr(IsrMonthlyTable2024(), 5000.0) == 286.5728
  {
    var t := IsrMonthlyTable2024();
    assert t[1] == IsrTableEntry(746.05, 14.32, 6.40);
    assert t[2].limitInferior == 6332.06;
    BracketIsGreatestLowerBound(t, 5000.0, 1);
    assert Isr(t, 5000.0) == RowTax(t[1], 5000.0);
  }

  // ---------------------------------------------------------------------------
  // IMSS worker contribution
  // ---------------------------------------------------------------------------

  /** The ceiling on the worker contribution: 25 UMA a day over 30.4 days at 2.7%. */
  function ImssWorkerCap(): (cap: real)
    ensures cap == 2227.8564
  {
    UmaCapMultiple * Uma2024 * DaysPerMonth * ImssWorkerRate
  }

  /** `Math.min` of the uncapped contribution on `sbc` and the cap. */
  function ImssWorker(sbc: real): (c: real)
    ensures c <= ImssWorkerCap() && c <= sbc * DaysPerMonth * ImssWorkerRate
    ensures c == ImssWorkerCap() || c == sbc * DaysPerMonth * ImssWorkerRate
    ensures sbc <= UmaCapMultiple * Uma2024 ==> c == sbc * DaysPerMonth * ImssWorkerRate
    ensures sbc >= UmaCapMultiple * Uma2024 ==> c == ImssWorkerCap()
  {
    var uncapped := sbc * DaysPerMonth * ImssWorkerRate;
    var cap := ImssWorkerCap();
    if uncapped <= cap then uncapped else cap
  }

  // ---------------------------------------------------------------------------
  // The engine
  // ---------------------------------------------------------------------------

  /** Sum of the chart slices. */
  function BreakdownTotal(items: seq<BreakdownItem>): real {
    if items == [] then 0.0 else items[0].value + BreakdownTotal(items[1..])
  }

  /** The worker-side chart: net pay, ISR and IMSS, which together make up the monthly gross. */
  function Breakdown(netMonthly: real, isr: real, imssWorker: real): (items: seq<BreakdownItem>)
    ensures |items| == 3 && BreakdownTotal(items) == netMonthly + isr + imssWorker
  {
    var items := [BreakdownItem("Sueldo Neto", netMonthly), BreakdownItem("ISR", isr), BreakdownItem("IMSS (Obrero)", imssWorker)];
    assert BreakdownTotal(items[2..]) == imssWorker;
    assert BreakdownTotal(items[1..]) == isr + imssWorker;
    items
  }

  /** ISN: the state payroll tax, `statePayrollTax` percent of the monthly gross. */
  function Isn(monthlyGross: real, statePayrollTax: real): (isn: real)
    ensures isn * 100.0 == monthlyGross * statePayrollTax
  {
    monthlyGross * (statePayrollTax / 100.0)
  }

  /** ISN is linear in the rate: scaling the rate by `c` scales the tax by `c`. */
  lemma IsnScalesWithRate(monthlyGross: real, statePayrollTax: real, c: real)
    ensures Isn(monthlyGross, c * statePayrollTax) == c * Isn(monthlyGross, statePayrollTax)
  {
  }

  /**
   * The employer side: IMSS (22%) and INFONAVIT (5%) on 30.4 days of SBC, the state
   * payroll tax (ISN) on the monthly gross, and the monthly and annual totals.
   */
  function EmployerCostOf(monthlyGross: real, sbc: real, aguinaldo: real, vacationPremium: real, statePayrollTax: real)
    : (e: EmployerCost)
    ensures e.isn == Isn(monthlyGross, statePayrollTax)
    ensures e.totalMonthly == monthlyGross + e.imssPatronal + e.infonavit + e.isn
    ensures e.totalAnnual == 12.0 * e.totalMonthly + 1.3 * (aguinaldo + vacationPremium)
  {
    var imssPatronal := sbc * DaysPerMonth * ImssPatronalRate;
    var infonavit := sbc * DaysPerMonth * InfonavitRate;
    var isn := Isn(monthlyGross, statePayrollTax);
    var totalMonthly := monthlyGross + imssPatronal + infonavit + isn;
    var totalAnnual := totalMonthly * 12.0 + aguinaldo * BenefitsLoad + vacationPremium * BenefitsLoad;
    EmployerCost(imssPatronal, infonavit, isn, totalMonthly, totalAnnual)
  }

  /** Year-end bonus: `aguinaldoDays` daily salaries. */
  function Aguinaldo(dailySalary: real, aguinaldoDays: real): (bonus: real)
    ensures dailySalary >= 0.0 && aguinaldoDays >= 0.0 ==> bonus >= 0.0
    ensures aguinaldoDays == 0.0 ==> bonus == 0.0
  {
    dailySalary * aguinaldoDays
  }

  /** A bonus of 30.4 days (one month of days) pays exactly one monthly gross. */
  lemma AguinaldoOfOneMonth(monthlyGross: real)
    ensures Aguinaldo(DailySalary(monthlyGross), DaysPerMonth) == monthlyGross
  {
  }

  /** Vacation premium at the fixed statutory 25% of the vacation days' pay. */
  function VacationPremium(dailySalary: real, vacationDays: int): (premium: real)
    ensures premium * 4.0 == dailySalary * vacationDays as real
    ensures dailySalary >= 0.0 && vacationDays >= 0 ==> premium >= 0.0
  {
    (dailySalary * vacationDays as real) * LegalVacationPremiumRate
  }

  /**
   * calculatePayroll with the ISR table as a parameter; `CalculatePayroll` passes the
   * 2024 table, as the source does through its module-level constant.
   */
  function CalculatePayrollWith(table: seq<IsrTableEntry>, inputs: CalculationInputs): (r: CalculationResult)
    ensures r.netMonthly + r.isr + r.imssWorker == r.grossMonthly
    ensures |r.breakdown| == 3 && BreakdownTotal(r.breakdown) == r.grossMonthly
    ensures r.imssWorker <= 2227.8564
  {
    var monthlyGross := GrossMonthlyOf(inputs);
    var dailySalary := DailySalary(monthlyGross);
    var annualGross := monthlyGross * 12.0;

    var aguinaldo := Aguinaldo(dailySalary, inputs.aguinaldoDays);
    var vacationPremium := VacationPremium(dailySalary, VacationDays(inputs.yearsOfService));

    var sbc := Sbc(inputs);
    var isr := Isr(table, monthlyGross);
    var imssWorker := ImssWorker(sbc);

    var netMonthly := monthlyGross - isr - imssWorker;
    var netAnnual := netMonthly * 12.0 + aguinaldo + vacationPremium;

    CalculationResult(
      monthlyGross, annualGross, netMonthly, netAnnual, isr, imssWorker, aguinaldo, vacationPremium,
      EmployerCostOf(monthlyGross, sbc, aguinaldo, vacationPremium, inputs.statePayrollTax),
      Breakdown(netMonthly, isr, imssWorker))
  }

  /** calculatePayroll: the engine on the 2024 ISR table. */
  function CalculatePayroll(inputs: CalculationInputs): (r: CalculationResult)
    ensures r.netMonthly + r.isr + r.imssWorker == r.grossMonthly
    ensures |r.breakdown| == 3 && BreakdownTotal(r.breakdown) == r.grossMonthly
    ensures r.imssWorker <= 2227.8564
  {
    CalculatePayrollWith(IsrMonthlyTable2024(), inputs)
  }

  // ---------------------------------------------------------------------------
  // Properties of the engine
  // ---------------------------------------------------------------------------

  /** How each pay period is normalised, and the daily and annual figures derived from it. */
  lemma Normalisation(table: seq<IsrTableEntry>, inputs: CalculationInputs)
    ensures inputs.period == Monthly ==> CalculatePayrollWith(table, inputs).grossMonthly == inputs.grossSalary
    ensures inputs.period == Biweekly ==> CalculatePayrollWith(table, inputs).grossMonthly == 2.0 * inputs.grossSalary
    ensures inputs.period == Weekly ==> CalculatePayrollWith(table, inputs).grossMonthly * 7.0 == inputs.grossSalary * 30.4
    ensures DailySalaryOf(inputs) * 30.4 == CalculatePayrollWith(table, inputs).grossMonthly
    ensures CalculatePayrollWith(table, inputs).grossAnnual == 12.0 * CalculatePayrollWith(table, inputs).grossMonthly
  {
  }

  /** The worker-side figures: bonus and premium in daily salaries, ISR from the 2024 table. */
  lemma WorkerSide(table: seq<IsrTableEntry>, inputs: CalculationInputs)
    ensures CalculatePayrollWith(table, inputs).aguinaldo == DailySalaryOf(inputs) * inputs.aguinaldoDays
    ensures CalculatePayrollWith(table, inputs).vacationPremium ==
      DailySalaryOf(inputs) * VacationDays(inputs.yearsOfService) as real * 0.25
    ensures CalculatePayrollWith(table, inputs).isr == Isr(table, CalculatePayrollWith(table, inputs).grossMonthly)
    ensures CalculatePayrollWith(table, inputs).netAnnual ==
      12.0 * CalculatePayrollWith(table, inputs).netMonthly + CalculatePayrollWith(table, inputs).aguinaldo + CalculatePayrollWith(table, inputs).vacationPremium
  {
    var r := CalculatePayrollWith(table, inputs);
    var d := DailySalaryOf(inputs);
    assert r.aguinaldo == Aguinaldo(d, inputs.aguinaldoDays);
    assert r.vacationPremium == VacationPremium(d, VacationDays(inputs.yearsOfService));
  }

  /** Zero or negative pay matches no bracket and withholds no ISR; from 0.01 on, ISR lies between 0 and 35% of the gross. */
  lemma PayrollIsrBounds(inputs: CalculationInputs)
    ensures CalculatePayroll(inputs).grossMonthly < 0.01 ==> CalculatePayroll(inputs).isr == 0.0
    ensures CalculatePayroll(inputs).grossMonthly >= 0.01 ==> CalculatePayroll(inputs).isr >= 0.0
    ensures CalculatePayroll(inputs).grossMonthly >= 0.01 ==>
      CalculatePayroll(inputs).isr * 100.0 <= 35.0 * CalculatePayroll(inputs).grossMonthly
  {
    Isr2024Bounds(CalculatePayroll(inputs).grossMonthly);
  }

  /** From 0.01 a month on, net pay keeps at least 65% of the gross less the IMSS ceiling. */
  lemma NetMonthlyLowerBound(inputs: CalculationInputs)
    requires GrossMonthlyOf(inputs) >= 0.01
    ensures CalculatePayroll(inputs).netMonthly >= 0.65 * CalculatePayroll(inputs).grossMonthly - 2227.8564
  {
    Isr2024Bounds(CalculatePayroll(inputs).grossMonthly);
  }

  /** The worker IMSS contribution is the uncapped 2.7% of 30.4 days of SBC until the SBC reaches 25 UMA. */
  lemma ImssWorkerUncappedBelowCeiling(table: seq<IsrTableEntry>, inputs: CalculationInputs)
    requires Sbc(inputs) <= 25.0 * Uma2024
    ensures CalculatePayrollWith(table, inputs).imssWorker == Sbc(inputs) * 30.4 * 0.027
  {
  }

  /** The employer's monthly and annual totals. */
  lemma EmployerTotals(table: seq<IsrTableEntry>, inputs: CalculationInputs)
    ensures var r := CalculatePayrollWith(table, inputs); var e := r.employerCost;
      && e.imssPatronal == Sbc(inputs) * 30.4 * 0.22
      && e.infonavit == Sbc(inputs) * 30.4 * 0.05
      && e.totalMonthly == r.grossMonthly + e.imssPatronal + e.infonavit + e.isn
      && e.totalAnnual == 12.0 * e.totalMonthly + 1.3 * r.aguinaldo + 1.3 * r.vacationPremium
  {
  }

  /**
   * With positive pay and non-negative bonus days every amount of the result except the two
   * nets is non-negative, and the grosses are positive. ISN takes the sign of the state
   * payroll tax rate, so that rate is required to be non-negative too.
   */
  lemma MonetaryFieldsNonNegative(inputs: CalculationInputs)
    requires inputs.grossSalary > 0.0 && inputs.aguinaldoDays >= 0.0 && inputs.statePayrollTax >= 0.0
    ensures var r := CalculatePayroll(inputs); var e := r.employerCost;
      && r.grossMonthly > 0.0 && r.grossAnnual > 0.0
      && r.isr >= 0.0 && r.imssWorker >= 0.0 && r.aguinaldo >= 0.0 && r.vacationPremium >= 0.0
      && e.imssPatronal >= 0.0 && e.infonavit >= 0.0 && e.isn >= 0.0
      && e.totalMonthly >= 0.0 && e.totalAnnual >= 0.0
  {
    PayrollIsrBounds(inputs);
    SbcAtLeastDailySalary(inputs);
    WorkerSide(IsrMonthlyTable2024(), inputs);
    EmployerTotals(IsrMonthlyTable2024(), inputs);
    assert DailySalaryOf(inputs) > 0.0;
  }

  /** Two inputs that agree on salary, period, seniority and bonus days share every derived base. */
  lemma SameWorkerFieldsSameBase(a: CalculationInputs, b: CalculationInputs)
    requires a.grossSalary == b.grossSalary && a.period == b.period
    requires a.yearsOfService == b.yearsOfService && a.aguinaldoDays == b.aguinaldoDays
    ensures GrossMonthlyOf(a) == GrossMonthlyOf(b) && DailySalaryOf(a) == DailySalaryOf(b) && Sbc(a) == Sbc(b)
  {
  }

  /** The configured vacation-premium percentage is never read: changing it changes nothing. */
  lemma VacationPremiumPercentageIgnored(table: seq<IsrTableEntry>, inputs: CalculationInputs, pct: real)
    ensures CalculatePayrollWith(table, inputs.(vacationPremiumPercentage := pct)) == CalculatePayrollWith(table, inputs)
  {
    SameWorkerFieldsSameBase(inputs, inputs.(vacationPremiumPercentage := pct));
  }

  /**
   * ISN is the state rate applied to the monthly gross; changing the rate changes ISN and
   * the two employer totals, by the ISN difference, and nothing else.
   */
  lemma StatePayrollTaxOnlyAffectsIsn(table: seq<IsrTableEntry>, inputs: CalculationInputs, rate: real)
    ensures var r := CalculatePayrollWith(table, inputs); var r' := CalculatePayrollWith(table, inputs.(statePayrollTax := rate));
      && r.employerCost.isn == Isn(r.grossMonthly, inputs.statePayrollTax)
      && r'.employerCost.isn == Isn(r.grossMonthly, rate)
      && r'.employerCost.totalMonthly - r.employerCost.totalMonthly == r'.employerCost.isn - r.employerCost.isn
      && r'.employerCost.totalAnnual - r.employerCost.totalAnnual == 12.0 * (r'.employerCost.isn - r.employerCost.isn)
      && r' == r.(employerCost := r.employerCost.(
           isn := r'.employerCost.isn,
           totalMonthly := r'.employerCost.totalMonthly,
           totalAnnual := r'.employerCost.totalAnnual))
  {
    var other := inputs.(statePayrollTax := rate);
    SameWorkerFieldsSameBase(inputs, other);
    var r, r' := CalculatePayrollWith(table, inputs), CalculatePayrollWith(table, other);
    assert r.employerCost == EmployerCostOf(r.grossMonthly, Sbc(inputs), r.aguinaldo, r.vacationPremium, inputs.statePayrollTax);
    assert r'.employerCost == EmployerCostOf(r.grossMonthly, Sbc(inputs), r.aguinaldo, r.vacationPremium, rate);
  }

  /** Doubling the state payroll-tax rate doubles ISN. */
  lemma DoublingStateTaxDoublesIsn(table: seq<IsrTableEntry>, inputs: CalculationInputs)
    ensures CalculatePayrollWith(table, inputs.(statePayrollTax := 2.0 * inputs.statePayrollTax)).employerCost.isn ==
      2.0 * CalculatePayrollWith(table, inputs).employerCost.isn
  {
    var t := inputs.statePayrollTax;
    StatePayrollTaxOnlyAffectsIsn(table, inputs, 2.0 * t);
    IsnScalesWithRate(CalculatePayrollWith(table, inputs).grossMonthly, t, 2.0);
  }

  /** 5000 a month, one year of service, 15 bonus days, 3% state tax. */
  lemma WorkedExample()
    ensures var r := CalculatePayroll(CalculationInputs(5000.0, Monthly, 1, 15.0, 25.0, 3.0));
      && r.grossMonthly == 5000.0
      && r.grossAnnual == 60000.0
      && r.isr == 286.5728
      && r.imssWorker == 10341.0 / 73.0
      && r.aguinaldo * 30.4 == 75000.0
      && r.vacationPremium * 30.4 == 15000.0
      && r.netMonthly == 5000.0 - 286.5728 - 10341.0 / 73.0
      && r.employerCost.isn == 150.0
  {
    var inputs := CalculationInputs(5000.0, Monthly, 1, 15.0, 25.0, 3.0);
    var r := CalculatePayroll(inputs);
    Isr2024At5000();
    assert GrossMonthlyOf(inputs) == 5000.0;
    var d := DailySalaryOf(inputs);
    assert d * 30.4 == 5000.0;
    assert VacationDays(1) == 12;
    var f := IntegrationFactor(15.0, 12);
    assert f * 365.0 == 383.0;
    assert Sbc(inputs) == d * f;
    assert Sbc(inputs) * 30.4 * 0.027 == (d * 30.4) * (f * 365.0) * 0.027 / 365.0;
    assert Sbc(inputs) <= UmaCapMultiple * Uma2024;
    assert r.imssWorker == ImssWorker(Sbc(inputs));
    assert r.aguinaldo == Aguinaldo(d, 15.0);
    assert r.vacationPremium == VacationPremium(d, 12);
    assert r.employerCost.isn == Isn(5000.0, 3.0);
  }
}
