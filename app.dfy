/**
 * The per-period figures and the spreadsheet export of the calculator's page
 * (App.tsx): the period labels, the monthly results divided back down to the pay
 * period, and the tab-separated header and data lines copied to the clipboard.
 */
module App {
  import opened Types
  import opened SalaryEngine

  // ---------------------------------------------------------------------------
  // Period labels
  // ---------------------------------------------------------------------------

  /** periodLabel: the period's name, with "Mensual" as the fall-through. */
  function PeriodLabel(period: Period): (s: string)
    ensures |s| > 0 && '\t' !in s && '\n' !in s
  {
    if period == Weekly then "Semanal" else if period == Biweekly then "Quincenal" else "Mensual"
  }

  /** periodShort: the abbreviated name. */
  function PeriodShort(period: Period): (s: string)
    ensures |s| > 0 && '\t' !in s && '\n' !in s
  {
    if period == Weekly then "Sem." else if period == Biweekly then "Quin." else "Mes."
  }

  /** Different periods get different labels and abbreviations. */
  lemma PeriodLabelsDistinct(p: Period, q: Period)
    ensures PeriodLabel(p) == PeriodLabel(q) <==> p == q
    ensures PeriodShort(p) == PeriodShort(q) <==> p == q
  {
    if p != q {
      assert PeriodLabel(p)[0] != PeriodLabel(q)[0];
      assert PeriodShort(p)[0] != PeriodShort(q)[0];
    }
  }

  // ---------------------------------------------------------------------------
  // Per-period values
  // ---------------------------------------------------------------------------

  /** The divisor taking a monthly figure back to the pay period: exactly the engine's normalisation factor. */
  function PeriodDivisor(period: Period): (d: real)
    ensures d > 0.0
    ensures forall x :: MonthlyGross(x, period) == x * d
  {
    if period == Weekly then 30.4 / 7.0 else if period == Biweekly then 2.0 else 1.0
  }

  /** The per-period figures shown beside the monthly ones. */
  datatype PerPeriod = PerPeriod(
    gross: real, net: real, isr: real, imssW: real,
    imssP: real, infonavit: real, isn: real, totalCost: real)

  /** periodValues: every monthly figure divided by the period's divisor. */
  function PeriodValues(results: CalculationResult, period: Period): (v: PerPeriod)
    ensures var d := PeriodDivisor(period);
      && v.gross * d == results.grossMonthly && v.net * d == results.netMonthly
      && v.isr * d == results.isr && v.imssW * d == results.imssWorker
      && v.imssP * d == results.employerCost.imssPatronal && v.infonavit * d == results.employerCost.infonavit
      && v.isn * d == results.employerCost.isn && v.totalCost * d == results.employerCost.totalMonthly
  {
    var d := PeriodDivisor(period);
    PerPeriod(
      results.grossMonthly / d,
      results.netMonthly / d,
      results.isr / d,
      results.imssWorker / d,
      results.employerCost.imssPatronal / d,
      results.employerCost.infonavit / d,
      results.employerCost.isn / d,
      results.employerCost.totalMonthly / d)
  }

  /** Normalising to a month and dividing back down is the identity, for every period. */
  lemma NormaliseThenDivide(grossSalary: real, period: Period)
    ensures MonthlyGross(grossSalary, period) / PeriodDivisor(period) == grossSalary
  {
  }

  /** The per-period gross shown is the salary the user entered. */
  lemma PeriodGrossIsEnteredSalary(table: seq<IsrTableEntry>, inputs: CalculationInputs)
    ensures PeriodValues(CalculatePayrollWith(table, inputs), inputs.period).gross == inputs.grossSalary
  {
    NormaliseThenDivide(inputs.grossSalary, inputs.period);
  }

  /** Dividing by the period's divisor keeps the sign of every figure. */
  lemma DivisorKeepsSign(x: real, period: Period)
    ensures x / PeriodDivisor(period) > 0.0 <==> x > 0.0
    ensures x / PeriodDivisor(period) < 0.0 <==> x < 0.0
  {
  }

  /** Per period, net pay, ISR and worker IMSS still add up to the gross. */
  lemma PerPeriodWorkerIdentity(results: CalculationResult, period: Period)
    requires results.netMonthly + results.isr + results.imssWorker == results.grossMonthly
    ensures var v := PeriodValues(results, period); v.net + v.isr + v.imssW == v.gross
  {
    var d := PeriodDivisor(period);
    assert (results.netMonthly + results.isr + results.imssWorker) / d
      == results.netMonthly / d + results.isr / d + results.imssWorker / d;
  }

  /** Per period, the employer's total is the gross plus the three employer charges. */
  lemma PerPeriodEmployerIdentity(results: CalculationResult, period: Period)
    requires var e := results.employerCost; e.totalMonthly == results.grossMonthly + e.imssPatronal + e.infonavit + e.isn
    ensures var v := PeriodValues(results, period); v.totalCost == v.gross + v.imssP + v.infonavit + v.isn
  {
    var d := PeriodDivisor(period);
    var e := results.employerCost;
    assert (results.grossMonthly + e.imssPatronal + e.infonavit + e.isn) / d
      == results.grossMonthly / d + e.imssPatronal / d + e.infonavit / d + e.isn / d;
  }

  /** Both per-period identities hold for whatever the engine computes. */
  lemma PerPeriodIdentitiesOfPayroll(table: seq<IsrTableEntry>, inputs: CalculationInputs)
    ensures var v := PeriodValues(CalculatePayrollWith(table, inputs), inputs.period);
      v.net + v.isr + v.imssW == v.gross && v.totalCost == v.gross + v.imssP + v.infonavit + v.isn
  {
    var r := CalculatePayrollWith(table, inputs);
    EmployerTotals(table, inputs);
    PerPeriodWorkerIdentity(r, inputs.period);
    PerPeriodEmployerIdentity(r, inputs.period);
  }

  // ---------------------------------------------------------------------------
  // Joining and splitting text lines
  // ---------------------------------------------------------------------------

  /** `parts.join(sep)`: the parts with one separator between neighbours. */
  function Join(parts: seq<string>, sep: char): (line: string)
    ensures |parts| == 0 ==> line == ""
    ensures |parts| >= 1 ==> parts[0] <= line
  {
    if |parts| == 0 then ""
    else if |parts| == 1 then parts[0]
    else parts[0] + [sep] + Join(parts[1..], sep)
  }

  /** The fields of `s` between separators (the reading a spreadsheet applies to a pasted line). */
  function Split(s: string, sep: char): (parts: seq<string>)
    ensures |parts| >= 1
    ensures forall i :: 0 <= i < |parts| ==> sep !in parts[i]
  {
    if |s| == 0 then [""]
    else
      var rest := Split(s[1..], sep);
      if s[0] == sep then [""] + rest
      else [[s[0]] + rest[0]] + rest[1..]
  }

  /** Number of occurrences of `c` in `s`. */
  function Count(s: string, c: char): nat {
    if |s| == 0 then 0 else (if s[0] == c then 1 else 0) + Count(s[1..], c)
  }

  lemma {:induction false} CountAppend(a: string, b: string, c: char)
    ensures Count(a + b, c) == Count(a, c) + Count(b, c)
  {
    if |a| > 0 {
      assert (a + b)[1..] == a[1..] + b;
      CountAppend(a[1..], b, c);
    } else {
      assert a + b == b;
    }
  }

  lemma {:induction false} CountAbsent(a: string, c: char)
    requires c !in a
    ensures Count(a, c) == 0
  {
    if |a| > 0 {
      CountAbsent(a[1..], c);
    }
  }

  /** A separator-free prefix joins the first field. */
  lemma {:induction false} SplitPrefix(a: string, b: string, sep: char)
    requires sep !in a
    ensures Split(a + b, sep) == [a + Split(b, sep)[0]] + Split(b, sep)[1..]
  {
    if |a| > 0 {
      assert (a + b)[1..] == a[1..] + b;
      SplitPrefix(a[1..], b, sep);
      assert [a[0]] + (a[1..] + Split(b, sep)[0]) == a + Split(b, sep)[0];
    } else {
      assert a + b == b;
      var parts := Split(b, sep);
      assert a + parts[0] == parts[0];
      assert parts == [parts[0]] + parts[1..];
    }
  }

  /** Joining separator-free parts puts exactly one separator between neighbours. */
  lemma {:induction false} JoinCount(parts: seq<string>, sep: char)
    requires |parts| >= 1
    requires forall i :: 0 <= i < |parts| ==> sep !in parts[i]
    ensures Count(Join(parts, sep), sep) == |parts| - 1
  {
    CountAbsent(parts[0], sep);
    if |parts| > 1 {
      JoinCount(parts[1..], sep);
      CountAppend(parts[0], [sep], sep);
      CountAppend(parts[0] + [sep], Join(parts[1..], sep), sep);
    }
  }

  /** Splitting a join of separator-free parts gives the parts back. */
  lemma {:induction false} SplitJoin(parts: seq<string>, sep: char)
    requires |parts| >= 1
    requires forall i :: 0 <= i < |parts| ==> sep !in parts[i]
    ensures Split(Join(parts, sep), sep) == parts
  {
    if |parts| == 1 {
      SplitPrefix(parts[0], "", sep);
      assert parts[0] + "" == parts[0];
    } else {
      var tail := Join(parts[1..], sep);
      SplitJoin(parts[1..], sep);
      assert parts[0] + [sep] + tail == parts[0] + ([sep] + tail);
      SplitPrefix(parts[0], [sep] + tail, sep);
      assert ([sep] + tail)[1..] == tail;
      assert Split([sep] + tail, sep) == [""] + parts[1..];
      assert parts[0] + "" == parts[0];
    }
  }

  /** Joining the fields of any line gives the line back. */
  lemma {:induction false} JoinSplit(s: string, sep: char)
    ensures Join(Split(s, sep), sep) == s
  {
    if |s| > 0 {
      var rest := Split(s[1..], sep);
      JoinSplit(s[1..], sep);
      if s[0] == sep {
        assert Join([""] + rest, sep) == "" + [sep] + Join(rest, sep);
      } else {
        var parts := [[s[0]] + rest[0]] + rest[1..];
        assert parts[1..] == rest[1..];
        if |rest| == 1 {
          assert Join(parts, sep) == [s[0]] + rest[0];
        } else {
          assert Join(rest, sep) == rest[0] + [sep] + Join(rest[1..], sep);
          assert Join(parts, sep) == [s[0]] + rest[0] + [sep] + Join(rest[1..], sep);
        }
      }
    }
  }

  // ---------------------------------------------------------------------------
  // Spreadsheet export
  // ---------------------------------------------------------------------------

  /** The twenty column titles: per-period and monthly worker figures, the employer's, then annual totals. */
  function Headers(periodName: string): (hs: seq<string>)
    ensures |hs| == 20
  {
    [
      "Trabajador Bruto (" + periodName + ")", "Trabajador Neto (" + periodName + ")",
      "ISR (" + periodName + ")", "IMSS Obrero (" + periodName + ")",
      "Trabajador Bruto (Mensual)", "Trabajador Neto (Mensual)", "ISR (Mensual)", "IMSS Obrero (Mensual)",
      "Empresa IMSS Pat. (" + periodName + ")", "Empresa INFONAVIT (" + periodName + ")",
      "Empresa ISN (" + periodName + ")", "Empresa Costo Total (" + periodName + ")",
      "Empresa IMSS Pat. (Mensual)", "Empresa INFONAVIT (Mensual)", "Empresa ISN (Mensual)", "Empresa Costo Total (Mensual)",
      "Anual Aguinaldo", "Anual Prima Vacacional", "Anual Neto Total", "Anual Costo Patronal"
    ]
  }

  /** A title built from a periodName free of `c` is free of `c` as long as `c` is a control character. */
  lemma HeadersFreeOf(periodName: string, c: char)
    requires c == '\t' || c == '\n'
    requires c !in periodName
    ensures forall i :: 0 <= i < 20 ==> c !in Headers(periodName)[i]
  {
  }

  /** excelHeader: the twenty titles joined by tabs. */
  function ExcelHeader(period: Period): (h: string)
    ensures Count(h, '\t') == 19 && '\n' !in h
  {
    var periodName := PeriodLabel(period);
    HeadersFreeOf(periodName, '\t');
    HeadersFreeOf(periodName, '\n');
    JoinCount(Headers(periodName), '\t');
    JoinFreeOf(Headers(periodName), '\t', '\n');
    Join(Headers(periodName), '\t')
  }

  /** The header line's tab-separated fields are the twenty titles. */
  lemma ExcelHeaderFields(period: Period)
    ensures Split(ExcelHeader(period), '\t') == Headers(PeriodLabel(period))
  {
    var periodName := PeriodLabel(period);
    HeadersFreeOf(periodName, '\t');
    SplitJoin(Headers(periodName), '\t');
  }

  /** Joining parts free of `c` with a separator other than `c` yields a line free of `c`. */
  lemma {:induction false} JoinFreeOf(parts: seq<string>, sep: char, c: char)
    requires sep != c
    requires forall i :: 0 <= i < |parts| ==> c !in parts[i]
    ensures c !in Join(parts, sep)
  {
    if |parts| > 1 {
      JoinFreeOf(parts[1..], sep, c);
    }
  }

  /** The twenty amounts of the data line, in the same column order as the titles. */
  function ExcelValues(v: PerPeriod, r: CalculationResult): (vs: seq<real>)
    ensures |vs| == 20
  {
    [
      v.gross, v.net, v.isr, v.imssW,
      r.grossMonthly, r.netMonthly, r.isr, r.imssWorker,
      v.imssP, v.infonavit, v.isn, v.totalCost,
      r.employerCost.imssPatronal, r.employerCost.infonavit, r.employerCost.isn, r.employerCost.totalMonthly,
      r.aguinaldo, r.vacationPremium, r.netAnnual, r.employerCost.totalAnnual
    ]
  }

  /** excelDataLine: each amount rendered by `toFixed` (two decimals), joined by tabs. */
  function ExcelDataLine(v: PerPeriod, r: CalculationResult, toFixed: real -> string): (line: string)
    ensures toFixed(v.gross) <= line
  {
    var vs := ExcelValues(v, r);
    Join(seq(|vs|, i requires 0 <= i < |vs| => toFixed(vs[i])), '\t')
  }

  /** When the rendering never produces a tab, the data line has twenty fields, one per amount in column order. */
  lemma ExcelDataLineFields(v: PerPeriod, r: CalculationResult, toFixed: real -> string)
    requires forall x :: '\t' !in toFixed(x)
    ensures |Split(ExcelDataLine(v, r, toFixed), '\t')| == 20
    ensures forall i :: 0 <= i < 20 ==> Split(ExcelDataLine(v, r, toFixed), '\t')[i] == toFixed(ExcelValues(v, r)[i])
    ensures (forall x :: '\n' !in toFixed(x)) ==> '\n' !in ExcelDataLine(v, r, toFixed)
  {
    var vs := ExcelValues(v, r);
    var fields := seq(|vs|, i requires 0 <= i < |vs| => toFixed(vs[i]));
    SplitJoin(fields, '\t');
    if forall x :: '\n' !in toFixed(x) {
      JoinFreeOf(fields, '\t', '\n');
    }
  }

  /** copyToClipboard's text: the header line, a line break, the data line. */
  function ClipboardText(header: string, dataLine: string): (text: string)
    ensures Count(text, '\n') == Count(header, '\n') + Count(dataLine, '\n') + 1
  {
    CountAppend(header, "\n", '\n');
    CountAppend(header + "\n", dataLine, '\n');
    header + "\n" + dataLine
  }

  /** Two lines without line breaks come back apart when the clipboard text is split into lines. */
  lemma ClipboardLines(header: string, dataLine: string)
    requires '\n' !in header && '\n' !in dataLine
    ensures Split(ClipboardText(header, dataLine), '\n') == [header, dataLine]
  {
    SplitJoin([header, dataLine], '\n');
    assert Join([header, dataLine], '\n') == header + ['\n'] + Join([dataLine], '\n');
  }

  /** The exported text is the header line and the data line: the twenty titles, then the twenty rendered amounts. */
  lemma ExportShape(period: Period, v: PerPeriod, r: CalculationResult, toFixed: real -> string)
    requires forall x :: '\t' !in toFixed(x) && '\n' !in toFixed(x)
    ensures var lines := Split(ClipboardText(ExcelHeader(period), ExcelDataLine(v, r, toFixed)), '\n');
      && lines == [ExcelHeader(period), ExcelDataLine(v, r, toFixed)]
      && Split(lines[0], '\t') == Headers(PeriodLabel(period))
      && |Split(lines[1], '\t')| == 20
      && forall i :: 0 <= i < 20 ==> Split(lines[1], '\t')[i] == toFixed(ExcelValues(v, r)[i])
  {
    var header, dataLine := ExcelHeader(period), ExcelDataLine(v, r, toFixed);
    ExcelDataLineFields(v, r, toFixed);
    ExcelHeaderFields(period);
    ClipboardLines(header, dataLine);
  }
}
