# Mexican payroll calculator — Dafny model

This project models the calculation core of a Mexican payroll calculator. It computes
net pay, ISR (income-tax) withholding, the worker's and the employer's IMSS
(social-security) contributions, the year-end bonus (aguinaldo), the vacation premium,
INFONAVIT (housing fund), ISN (state payroll tax) and the total employer cost from one
input record. It has three parts:

- `constants.dfy` (`Constants`): the 2024 monthly ISR table (11 rows), the UMA value
  108.57, and the vacation-day schedule `getVacationDays`.
- `salary_engine.dfy` (`SalaryEngine`): `calculatePayroll`. Weekly or biweekly pay is
  normalised to a month. The daily salary, bonus, vacation premium, integration factor and
  contribution base (SBC) are derived from it. The ISR bracket is found by a downward
  search of the table. Then come the capped worker IMSS, net pay and the employer costs.
- `app.dfy` (`App`): the page's per-period figures (`periodValues`), the period labels,
  the 20-column tab-separated export header and data line, and the clipboard text.
- `types.dfy` (`Types`) holds the record shapes; `wrappers.dfy` holds `Option`.

Every amount is an exact `real`. The source never rounds, so its identities (net + ISR +
IMSS = gross, the period round trip) hold exactly here, though only up to floating-point
error in the running program. Years of service are an `int` in the engine's input. The
behaviour of the source on fractional years is modelled separately (see Findings).

`calculatePayroll` reads the ISR table from a module-level constant. The model gives the
table as a parameter: `SalaryEngine.CalculatePayrollWith(table, inputs)`. Then
`SalaryEngine.CalculatePayroll(inputs)` passes the 2024 table. The structural lemmas are
stated for every table; the 2024-specific ones (ISR bounds, the worked example) for
`CalculatePayroll`.

For 5000 a month, exact arithmetic gives ISR 286.5728 and worker IMSS 10341/73 ≈ 141.66
(`SalaryEngine.WorkedExample`). Below the first lower bound, 0.01, no row matches and ISR
stays 0 (services/salaryEngine.ts:43-49).

## Model

| member | source | states |
|---|---|---|
| Constants.IsrMonthlyTable2024 | constants.ts:5-17 | 11 rows; the first lower bound is 0.01; the lower bounds strictly ascend (pairwise); no fixed amount or percentage is negative; no percentage exceeds 35 and no fixed amount exceeds 35% of its lower bound |
| Constants.AscendingIsStrictlySorted | constants.ts:5-17 | a table ascending between neighbours is strictly sorted pairwise |
| Constants.VacationDays | constants.ts:24-35 | over whole years the result is always one of 12, 14, …, 30 |
| Constants.VacationDaysSchedule | constants.ts:24-35 | 12 days for one year or less (including 0 and negative); 2→14, 3→16, 4→18, 5→20; 6–10→22, 11–15→24, 16–20→26, 21–25→28, above 25→30 |
| Constants.VacationDaysMonotone | constants.ts:24-35 | more whole years never give fewer days |
| Constants.VacationDaysAsWritten | constants.ts:24-35 | getVacationDays on a JavaScript number, with exact `===` tests; always between 12 and 30 |
| Constants.AsWrittenAgreesOnWholeYears | constants.ts:24-35 | on whole years the code as written equals the integer schedule |
| Constants.AsWrittenFractionalEarlyYears | constants.ts:25-30 | a fractional seniority strictly between 1 and 5 years gets 22 days |
| Constants.AsWrittenNotMonotone | constants.ts:25-30 | 1.5 years give 22 days and 2 years give 14, so the schedule as written is not monotone |
| Constants.VacationDaysCompletedYears | constants.ts:24-35 | schedule applied to completed years; between 12 and 30, even, 12 for one year or less |
| Constants.CompletedYearsMonotone | constants.ts:24-35 | on completed years the schedule is monotone over every real seniority |
| Constants.CompletedYearsAgreesOnWholeYears | constants.ts:24-35 | on whole years the corrected schedule equals the code as written |
| SalaryEngine.MonthlyGross | services/salaryEngine.ts:25-27 | the monthly gross is positive exactly when the entered pay is, and zero exactly when it is |
| SalaryEngine.DailySalary | services/salaryEngine.ts:29 | the daily salary times 30.4 is the monthly gross |
| SalaryEngine.IntegrationFactor | services/salaryEngine.ts:39 | factor × 365 = 365 + bonus days + 25% of vacation days; at least 1 when both are non-negative |
| SalaryEngine.Sbc | services/salaryEngine.ts:39-40 | daily salary × integration factor; `SbcAtLeastDailySalary` bounds it from below and `EmployerTotals` and `ImssWorkerUncappedBelowCeiling` tie the charges to it |
| SalaryEngine.SbcAtLeastDailySalary | services/salaryEngine.ts:39-40 | with non-negative pay and bonus days, the SBC is at least the daily salary |
| SalaryEngine.FindBracket | services/salaryEngine.ts:44 | the downward search returns an index whose lower bound is ≤ gross, with every later row above gross; it returns None only when every row is above gross |
| SalaryEngine.BracketOf | services/salaryEngine.ts:44 | a found row lies in the table with lower bound ≤ gross; no row found means every lower bound is above gross |
| SalaryEngine.BracketIsGreatestLowerBound | services/salaryEngine.ts:44 | on a sorted table: row k is found iff lower(k) ≤ gross < lower(k+1) (or k is last); nothing is found iff gross is below the first lower bound |
| SalaryEngine.BracketMonotone | services/salaryEngine.ts:44 | on a sorted table a larger gross never selects an earlier bracket |
| SalaryEngine.RowTax | services/salaryEngine.ts:46-48 | at exactly its lower bound a row taxes its fixed amount |
| SalaryEngine.RowTaxAtLeastFixedAmount | services/salaryEngine.ts:46-48 | at or above its lower bound a row taxes at least its fixed amount |
| SalaryEngine.Isr | services/salaryEngine.ts:43-49 | when no row matches, ISR is 0 |
| SalaryEngine.IsrZeroBelowFirstBracket | services/salaryEngine.ts:43-49 | below the first lower bound ISR is 0 |
| SalaryEngine.IsrNonNegative | services/salaryEngine.ts:43-49 | from the first lower bound on, a row matches and ISR ≥ 0 |
| SalaryEngine.IsrEffectiveRateBound | services/salaryEngine.ts:43-49 | if every rate is at most `top`%, ISR is at most `top`% of the gross |
| SalaryEngine.IsrMonotoneWithinBracket | services/salaryEngine.ts:46-48 | inside one bracket ISR never falls as the gross rises |
| SalaryEngine.Isr2024DropsAtBracketEdge | services/salaryEngine.ts:43-49 | with the 2024 table ISR at 746.04 is 14.323776 but at 746.05 only 14.32 |
| SalaryEngine.Isr2024Bounds | services/salaryEngine.ts:43-49 | 2024 table: ISR is 0 below 0.01, otherwise between 0 and 35% of the gross |
| SalaryEngine.Isr2024At5000 | services/salaryEngine.ts:44-48 | 5000 selects the 746.05 row (index 1) and ISR = 286.5728 |
| SalaryEngine.ImssWorkerCap | services/salaryEngine.ts:53 | the ceiling 25 × UMA × 30.4 × 2.7% equals 2227.8564 |
| SalaryEngine.ImssWorker | services/salaryEngine.ts:52-53 | the contribution is the smaller of the uncapped one and the cap: at most both, equal to one; uncapped while SBC ≤ 25 UMA, the cap from 25 UMA on |
| SalaryEngine.Breakdown | services/salaryEngine.ts:87-91 | three slices whose values sum to net + ISR + IMSS |
| SalaryEngine.Isn | services/salaryEngine.ts:61-65 | ISN × 100 = monthly gross × state rate |
| SalaryEngine.IsnScalesWithRate | services/salaryEngine.ts:61-65 | scaling the state rate by c scales ISN by c |
| SalaryEngine.EmployerCostOf | services/salaryEngine.ts:59-69 | ISN as above; total monthly = gross + IMSS + INFONAVIT + ISN; total annual = 12 × monthly total + 1.3 × (bonus + premium) |
| SalaryEngine.Aguinaldo | services/salaryEngine.ts:33 | non-negative for non-negative salary and days; zero bonus days pay nothing |
| SalaryEngine.AguinaldoOfOneMonth | services/salaryEngine.ts:29-33 | a bonus of 30.4 days pays exactly one monthly gross |
| SalaryEngine.VacationPremium | services/salaryEngine.ts:35 | four times the premium is the pay for the vacation days (the fixed 25%), whatever percentage was entered; non-negative for non-negative inputs |
| SalaryEngine.CalculatePayrollWith | services/salaryEngine.ts:12-93 | for any table: net + ISR + worker IMSS = monthly gross; the three breakdown slices sum to the monthly gross; worker IMSS ≤ 2227.8564 |
| SalaryEngine.CalculatePayroll | services/salaryEngine.ts:12-93 | on the 2024 table: the same three facts |
| SalaryEngine.Normalisation | services/salaryEngine.ts:25-30 | monthly unchanged, biweekly × 2, weekly × 30.4/7; daily salary × 30.4 = monthly gross; annual gross = 12 × monthly |
| SalaryEngine.WorkerSide | services/salaryEngine.ts:32-56 | bonus = daily × bonus days; premium = daily × vacation days × 0.25; ISR from the table on the monthly gross; net annual = 12 × net monthly + bonus + premium |
| SalaryEngine.PayrollIsrBounds | services/salaryEngine.ts:43-49 | monthly gross below 0.01 gives ISR 0; from 0.01 on ISR is between 0 and 35% of the gross |
| SalaryEngine.NetMonthlyLowerBound | services/salaryEngine.ts:43-55 | from 0.01 a month on, net ≥ 65% of gross − 2227.8564 |
| SalaryEngine.ImssWorkerUncappedBelowCeiling | services/salaryEngine.ts:52-53 | while SBC ≤ 25 UMA the worker IMSS is SBC × 30.4 × 0.027 |
| SalaryEngine.EmployerTotals | services/salaryEngine.ts:59-69 | employer IMSS = SBC × 30.4 × 22%; INFONAVIT = SBC × 30.4 × 5%; the monthly and annual totals as above |
| SalaryEngine.MonetaryFieldsNonNegative | services/salaryEngine.ts:25-69 | with positive pay, non-negative bonus days and a non-negative state rate: monthly and annual gross are positive; ISR, worker IMSS, bonus, premium, employer IMSS, INFONAVIT, ISN and both employer totals are non-negative |
| SalaryEngine.SameWorkerFieldsSameBase | services/salaryEngine.ts:13-40 | inputs agreeing on salary, period, seniority and bonus days share monthly gross, daily salary and SBC |
| SalaryEngine.VacationPremiumPercentageIgnored | services/salaryEngine.ts:13-35 | changing vacationPremiumPercentage leaves the whole result unchanged |
| SalaryEngine.StatePayrollTaxOnlyAffectsIsn | services/salaryEngine.ts:61-69 | changing the state rate changes only ISN and the two employer totals; the totals move by the ISN difference (× 12 for the annual one) |
| SalaryEngine.DoublingStateTaxDoublesIsn | services/salaryEngine.ts:61-65 | doubling the state rate doubles ISN |
| SalaryEngine.WorkedExample | services/salaryEngine.ts:12-93 | 5000 monthly, 1 year, 15 bonus days, 3%: gross 5000, annual 60000, ISR 286.5728, IMSS 10341/73, bonus × 30.4 = 75000, premium × 30.4 = 15000, ISN 150, net = 5000 − 286.5728 − 10341/73 |
| App.PeriodLabel | App.tsx:69 | the label is non-empty and contains no tab or line break |
| App.PeriodShort | App.tsx:70 | the abbreviation is non-empty and contains no tab or line break |
| App.PeriodLabelsDistinct | App.tsx:69-70 | different periods get different labels and different abbreviations |
| App.PeriodDivisor | App.tsx:73 | the divisor is positive and is exactly the engine's normalisation factor for the period |
| App.PeriodValues | App.tsx:72-84 | each of the eight per-period figures times the period's divisor is its monthly counterpart |
| App.NormaliseThenDivide | App.tsx:73-75 | normalising to a month and dividing back by the divisor returns the entered pay |
| App.PeriodGrossIsEnteredSalary | App.tsx:72-84 | the per-period gross equals the grossSalary entered |
| App.DivisorKeepsSign | App.tsx:73-82 | every per-period figure has the sign of its monthly counterpart |
| App.PerPeriodWorkerIdentity | App.tsx:75-78 | per period, net + ISR + worker IMSS = gross whenever it holds monthly |
| App.PerPeriodEmployerIdentity | App.tsx:75-82 | per period, total cost = gross + employer IMSS + INFONAVIT + ISN whenever it holds monthly |
| App.PerPeriodIdentitiesOfPayroll | App.tsx:72-84 | both per-period identities hold for the engine's result |
| App.Join | App.tsx:94 | no parts give the empty line; otherwise the line starts with the first part; `SplitJoin` and `JoinSplit` make it the inverse of `Split` |
| App.Split | App.tsx:94 | splitting yields at least one field and no field contains the separator |
| App.CountAppend | App.tsx:94 | occurrences of a character add up over a concatenation |
| App.CountAbsent | App.tsx:94 | a line without the character has zero occurrences |
| App.SplitPrefix | App.tsx:94 | a separator-free prefix becomes part of the first field |
| App.JoinCount | App.tsx:94 | joining n separator-free parts puts exactly n − 1 separators in the line |
| App.SplitJoin | App.tsx:94 | splitting the join of separator-free parts returns the parts |
| App.JoinSplit | App.tsx:94 | joining the fields of any line returns the line |
| App.JoinFreeOf | App.tsx:94 | joining parts free of a character with another separator gives a line free of it |
| App.Headers | App.tsx:87-93 | there are 20 column titles |
| App.HeadersFreeOf | App.tsx:87-93 | with a label free of tabs (or line breaks) no title contains one |
| App.ExcelHeader | App.tsx:86-95 | the header line has exactly 19 tabs and no line break |
| App.ExcelHeaderFields | App.tsx:86-95 | the header line splits back into the 20 titles |
| App.ExcelValues | App.tsx:98-103 | the data row carries 20 amounts |
| App.ExcelDataLine | App.tsx:97-106 | the data line starts with the rendered per-period gross |
| App.ExcelDataLineFields | App.tsx:97-106 | when the rendering never emits a tab, the data line has 20 fields, field i rendering amount i; when it never emits a line break, neither does the line |
| App.ClipboardText | App.tsx:109 | the text has exactly one more line break than the header and the data line together |
| App.ClipboardLines | App.tsx:109 | header + "\n" + data splits into exactly those two lines when neither has a line break |
| App.ExportShape | App.tsx:86-109 | the copied text splits into exactly the header line and the data line; the first splits into the 20 titles, the second into 20 fields, field i being the rendered amount i |

## Findings

| source | as written | input that shows it | evidently intended | confidence | as-written member | corrected member |
|---|---|---|---|---|---|---|
| constants.ts:25-30 | the exact-year steps use `===`, so a fractional seniority between 1 and 5 years matches none and gets the 6–10-year step | yearsOfService = 1.5 gives 22 days, while 2 years give 14 | days by completed years of service (1.5 → 12), monotone in seniority | medium, not executed | Constants.AsWrittenNotMonotone | Constants.CompletedYearsMonotone |

The engine's input takes whole years, where the code as written and the corrected schedule
agree (`Constants.AsWrittenAgreesOnWholeYears`, `Constants.CompletedYearsAgreesOnWholeYears`).

## Left out

- React rendering, JSX and the `useState`/`useMemo` plumbing of App.tsx: presentation only. The memoised bodies are modelled as plain functions.
- The AI narrative request (`getAiInsight`, App.tsx:46-67): a network call with loading flags.
- The clipboard write and the `setTimeout` reset of the copied flag (App.tsx:110-112): browser I/O and timers. Only the text that is written is modelled.
- `Intl.NumberFormat` currency display (App.tsx:43-44). `toFixed(2)` in the data line (App.tsx:97-106) is a parameter `toFixed: real -> string`, so its digits are not modelled; the field lemmas assume it never emits a tab or line break.
- `parseFloat(value) || 0` in the input handler (App.tsx:35-41): a JavaScript library parse. The model takes the parsed numbers as its input.
- IEEE-754 rounding: every amount is an exact real, so the model states exact identities where the program has float error.
- The colour strings of the breakdown slices (services/salaryEngine.ts:88-90) and the unused minimum-wage constants (constants.ts:20-21).
- `calculatePayroll` on a fractional `yearsOfService`: the page's number input (App.tsx:39, App.tsx:173) can pass one, but the engine's input takes whole years. `Constants.VacationDaysAsWritten` models the schedule on such values; no engine variant uses it.
- An unrecognised `period` string falling through to monthly: the period is a closed three-value datatype.
- SalaryEngine.IsrMonotoneWithinBracket: ISR is proved monotone only within one bracket. At some bracket edges (for example 746.05) the 2024 table's rounded fixed amounts make it drop slightly (SalaryEngine.Isr2024DropsAtBracketEdge).
