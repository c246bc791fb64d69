/**
 * The static 2024 configuration (constants.ts): the monthly ISR table, the UMA
 * reference value and the statutory vacation-day schedule.
 */
module Constants {
  import opened Types

  /** Each row starts strictly above the previous one. */
  predicate Ascending(t: seq<IsrTableEntry>) {
    forall i :: 0 < i < |t| ==> t[i - 1].limitInferior < t[i].limitInferior
  }

  /** Pairwise form of `Ascending`: every later row starts strictly higher. */
  predicate StrictlySorted(t: seq<IsrTableEntry>) {
    forall i, j :: 0 <= i < j < |t| ==> t[i].limitInferior < t[j].limitInferior
  }

  /** No row has a negative fixed amount or a negative percentage. */
  predicate NonNegativeRows(t: seq<IsrTableEntry>) {
    forall i :: 0 <= i < |t| ==> t[i].cuotaFija >= 0.0 && t[i].porcentaje >= 0.0
  }

  /**
   * No row's percentage exceeds `top`, and no row's fixed amount exceeds `top` percent
   * of its lower bound (so the tax never exceeds `top` percent of the income).
   */
  predicate RatesAtMost(t: seq<IsrTableEntry>, top: real) {
    forall i :: 0 <= i < |t| ==>
      t[i].limitInferior >= 0.0 && t[i].porcentaje <= top && t[i].cuotaFija * 100.0 <= top * t[i].limitInferior
  }

  lemma {:induction false} AscendingIsStrictlySorted(t: seq<IsrTableEntry>)
    requires Ascending(t)
    ensures StrictlySorted(t)
  {
    if |t| > 1 {
      var rest := t[1..];
      assert Ascending(rest) by {
        forall i | 0 < i < |rest| ensures rest[i - 1].limitInferior < rest[i].limitInferior {
          assert rest[i - 1] == t[i] && rest[i] == t[i + 1];
        }
      }
      AscendingIsStrictlySorted(rest);
      forall i, j | 0 <= i < j < |t| ensures t[i].limitInferior < t[j].limitInferior {
        if i > 0 {
          assert t[i] == rest[i - 1] && t[j] == rest[j - 1];
        } else if j > 1 {
          assert t[1] == rest[0] && t[j] == rest[j - 1];
        }
      }
    }
  }

  /** ISR_MONTHLY_TABLE_2024: the eleven brackets of the 2024 monthly withholding table. */
  function IsrMonthlyTable2024(): (t: seq<IsrTableEntry>)
    ensures |t| == 11
    ensures t[0].limitInferior == 0.01
    ensures Ascending(t) && StrictlySorted(t)
    ensures NonNegativeRows(t)
    ensures RatesAtMost(t, 35.0)
  {
    var t := [
      IsrTableEntry(0.01, 0.0, 1.92),
      IsrTableEntry(746.05, 14.32, 6.40),
      IsrTableEntry(6332.06, 371.83, 10.88),
      IsrTableEntry(11128.02, 893.63, 16.00),
      IsrTableEntry(12935.83, 1182.88, 17.92),
      IsrTableEntry(15487.72, 1640.18, 21.36),
      IsrTableEntry(31236.50, 5004.12, 23.52),
      IsrTableEntry(49233.01, 9236.89, 30.00),
      IsrTableEntry(93993.91, 22665.17, 32.00),
      IsrTableEntry(125325.46, 32691.18, 34.00),
      IsrTableEntry(375976.30, 117912.43, 35.00)
    ];
    AscendingIsStrictlySorted(t);
    t
  }

  /** UMA_2024: the daily value of the 2024 measurement unit, in pesos. */
  const Uma2024: real := 108.57

  /** getVacationDays over whole years of service (the 2024 "Vacaciones Dignas" schedule). */
  function VacationDays(years: int): (days: int)
    ensures 12 <= days <= 30 && days % 2 == 0
  {
    if years <= 1 then 12
    else if years == 2 then 14
    else if years == 3 then 16
    else if years == 4 then 18
    else if years == 5 then 20
    else if years <= 10 then 22
    else if years <= 15 then 24
    else if years <= 20 then 26
    else if years <= 25 then 28
    else 30
  }

  /** The schedule step by step, including the clamp at 12 days for one year or less. */
  lemma VacationDaysSchedule(years: int)
    ensures years <= 1 ==> VacationDays(years) == 12
    ensures 2 <= years <= 5 ==> VacationDays(years) == 10 + 2 * years
    ensures 6 <= years <= 10 ==> VacationDays(years) == 22
    ensures 11 <= years <= 15 ==> VacationDays(years) == 24
    ensures 16 <= years <= 20 ==> VacationDays(years) == 26
    ensures 21 <= years <= 25 ==> VacationDays(years) == 28
    ensures years > 25 ==> VacationDays(years) == 30
  {
  }

  /** More whole years of service never mean fewer vacation days. */
  lemma VacationDaysMonotone(a: int, b: int)
    requires a <= b
    ensures VacationDays(a) <= VacationDays(b)
  {
  }

  /**
   * getVacationDays exactly as written, applied to a JavaScript number: the exact-year
   * tests use `===`, so a fractional seniority between 1 and 5 matches none of them
   * and falls through to the `years <= 10` step.
   */
  function VacationDaysAsWritten(years: real): (days: int)
    ensures 12 <= days <= 30
  {
    if years <= 1.0 then 12
    else if years == 2.0 then 14
    else if years == 3.0 then 16
    else if years == 4.0 then 18
    else if years == 5.0 then 20
    else if years <= 10.0 then 22
    else if years <= 15.0 then 24
    else if years <= 20.0 then 26
    else if years <= 25.0 then 28
    else 30
  }

  /** On whole years the code as written and the integer schedule agree. */
  lemma AsWrittenAgreesOnWholeYears(years: int)
    ensures VacationDaysAsWritten(years as real) == VacationDays(years)
  {
  }

  /** A fractional seniority strictly between 1 and 5 years gets 22 days. */
  lemma AsWrittenFractionalEarlyYears(years: real)
    requires 1.0 < years < 5.0 && years != years.Floor as real
    ensures VacationDaysAsWritten(years) == 22
  {
  }

  /** Counterexample to monotonicity: 1.5 years give 22 days, 2 years give 14. */
  lemma AsWrittenNotMonotone()
    ensures VacationDaysAsWritten(1.5) == 22 && VacationDaysAsWritten(2.0) == 14
    ensures exists a: real, b: real :: a <= b && VacationDaysAsWritten(a) > VacationDaysAsWritten(b)
  {
    assert 1.5 <= 2.0 && VacationDaysAsWritten(1.5) > VacationDaysAsWritten(2.0);
  }

  /** The schedule applied to completed years of service (the seniority rounded down). */
  function VacationDaysCompletedYears(years: real): (days: int)
    ensures 12 <= days <= 30 && days % 2 == 0
    ensures years <= 1.0 ==> days == 12
  {
    VacationDays(years.Floor)
  }

  /** With completed years the schedule is monotone over every real seniority. */
  lemma CompletedYearsMonotone(a: real, b: real)
    requires a <= b
    ensures VacationDaysCompletedYears(a) <= VacationDaysCompletedYears(b)
  {
    assert a.Floor <= b.Floor;
    VacationDaysMonotone(a.Floor, b.Floor);
  }

  /** On whole years the corrected schedule is the code's own schedule. */
  lemma CompletedYearsAgreesOnWholeYears(years: int)
    ensures VacationDaysCompletedYears(years as real) == VacationDaysAsWritten(years as real)
  {
    AsWrittenAgreesOnWholeYears(years);
  }
}
