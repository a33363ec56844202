/** The sizing pipeline: the module-level computation of the script,
    taken as one function from an input record to a summary record. */
module Coil {
  import opened Wrappers
  import opened Numerics
  import opened Geometry
  import opened Thermal
  import opened Sizing

  /** Every scalar the script supplies. Temperatures in °C, lengths in m
      (fin dimensions in mm), mass flow in kg/s, heats in kJ/kg and
      kJ/(kg·K), U in W/(m²·K). */
  datatype CoilInputs = CoilInputs(
    dOd: real, fpi: real, finThkMm: real, finOdMm: real, finIdMm: real,
    coilLength: real, coilWidth: real,
    mDot: real, cpLiquid: real, hFg: real,
    tIn: real, tSat: real, tOut: real, tAir: real, u: real)

  /** Every value the script derives. */
  datatype CoilSizingSummary = CoilSizingSummary(
    tubesPerRow: int,
    qDesuper: real, qCond: real, qSub: real,
    dtDesuper: real, dtCond: real, dtSub: real,
    area: AirsideArea,
    desuper: ZoneSizing, cond: ZoneSizing, sub: ZoneSizing,
    lTotal: real, rowsRequired: real)

  /** The script's computation, in its order; the first fault raised is the result. */
  function SizeCoil(inp: CoilInputs, pi: real, ln: real -> real): (r: Result<CoilSizingSummary>)
    ensures LogMeanTempDiff(inp.tIn, inp.tSat, inp.tAir, ln).Err?
      ==> r == Err(LogMeanTempDiff(inp.tIn, inp.tSat, inp.tAir, ln).fault)
    ensures r.Ok? ==>
      var s := r.value;
      && s.tubesPerRow == TubesPerRow(inp.coilWidth)
      && s.qDesuper == DesuperheatDuty(inp.mDot, inp.tIn, inp.tSat)
      && s.qCond == CondensationDuty(inp.mDot, inp.hFg)
      && s.qSub == SubcoolingDuty(inp.mDot, inp.cpLiquid, inp.tSat, inp.tOut)
      && LogMeanTempDiff(inp.tIn, inp.tSat, inp.tAir, ln) == Ok(s.dtDesuper)
      && s.dtCond == inp.tSat - inp.tAir
      && LogMeanTempDiff(inp.tSat, inp.tOut, inp.tAir, ln) == Ok(s.dtSub)
      && s.area == AirsideAreaPerM(pi, inp.dOd, inp.fpi, inp.finThkMm, inp.finOdMm, inp.finIdMm, DEFAULT_FIN_EFF)
      && Balanced(s.desuper, s.qDesuper, inp.u, s.area.total, s.dtDesuper)
      && Balanced(s.cond, s.qCond, inp.u, s.area.total, s.dtCond)
      && Balanced(s.sub, s.qSub, inp.u, s.area.total, s.dtSub)
      && s.lTotal == s.desuper.length + s.cond.length + s.sub.length
      && FillsRows(s.rowsRequired, s.tubesPerRow, inp.coilLength, s.lTotal)
  {
    var tubesPerRow := TubesPerRow(inp.coilWidth);
    var qDesuper := DesuperheatDuty(inp.mDot, inp.tIn, inp.tSat);
    var qCond := CondensationDuty(inp.mDot, inp.hFg);
    var qSub := SubcoolingDuty(inp.mDot, inp.cpLiquid, inp.tSat, inp.tOut);
    var dtDesuper :- LogMeanTempDiff(inp.tIn, inp.tSat, inp.tAir, ln);
    // The isothermal call always takes the degenerate branch and cannot fail.
    var dtCond := LogMeanTempDiff(inp.tSat, inp.tSat, inp.tAir, ln).value;
    var dtSub :- LogMeanTempDiff(inp.tSat, inp.tOut, inp.tAir, ln);
    var area := AirsideAreaPerM(pi, inp.dOd, inp.fpi, inp.finThkMm, inp.finOdMm, inp.finIdMm, DEFAULT_FIN_EFF);
    var desuper :- RequiredLength(qDesuper, inp.u, area.total, dtDesuper);
    var cond :- RequiredLength(qCond, inp.u, area.total, dtCond);
    var sub :- RequiredLength(qSub, inp.u, area.total, dtSub);
    var lTotal := desuper.length + cond.length + sub.length;
    var rowsRequired :- RowsRequired(lTotal, tubesPerRow, inp.coilLength);
    Ok(CoilSizingSummary(tubesPerRow, qDesuper, qCond, qSub, dtDesuper, dtCond, dtSub,
                         area, desuper, cond, sub, lTotal, rowsRequired))
  }

  /** A physically sensible condenser: the refrigerant cools from inlet through
      saturation to outlet, all above the air; positive flow, heats and U; a
      valid fin annulus; a face at least one tube pitch wide. */
  ghost predicate PhysicallyValid(inp: CoilInputs, pi: real) {
    && pi > 0.0
    && inp.tIn >= inp.tSat >= inp.tOut > inp.tAir
    && inp.mDot > 0.0 && inp.hFg > 0.0 && inp.cpLiquid >= 0.0 && inp.u > 0.0
    && inp.dOd > 0.0 && inp.fpi >= 0.0 && inp.finOdMm >= inp.finIdMm >= 0.0
    && inp.coilWidth >= TUBE_PITCH && inp.coilLength > 0.0
  }

  /** With every step succeeding, `SizeCoil` succeeds with exactly those steps' values. */
  lemma SizeCoilFromSteps(inp: CoilInputs, pi: real, ln: real -> real,
                          dt1: real, dt3: real, z1: ZoneSizing, z2: ZoneSizing, z3: ZoneSizing, rows: real)
    requires LogMeanTempDiff(inp.tIn, inp.tSat, inp.tAir, ln) == Ok(dt1)
    requires LogMeanTempDiff(inp.tSat, inp.tOut, inp.tAir, ln) == Ok(dt3)
    requires var a := AirsideAreaPerM(pi, inp.dOd, inp.fpi, inp.finThkMm, inp.finOdMm, inp.finIdMm, DEFAULT_FIN_EFF).total;
      && RequiredLength(DesuperheatDuty(inp.mDot, inp.tIn, inp.tSat), inp.u, a, dt1) == Ok(z1)
      && RequiredLength(CondensationDuty(inp.mDot, inp.hFg), inp.u, a, inp.tSat - inp.tAir) == Ok(z2)
      && RequiredLength(SubcoolingDuty(inp.mDot, inp.cpLiquid, inp.tSat, inp.tOut), inp.u, a, dt3) == Ok(z3)
    requires RowsRequired(z1.length + z2.length + z3.length, TubesPerRow(inp.coilWidth), inp.coilLength) == Ok(rows)
    ensures SizeCoil(inp, pi, ln) == Ok(CoilSizingSummary(
      TubesPerRow(inp.coilWidth),
      DesuperheatDuty(inp.mDot, inp.tIn, inp.tSat), CondensationDuty(inp.mDot, inp.hFg),
      SubcoolingDuty(inp.mDot, inp.cpLiquid, inp.tSat, inp.tOut),
      dt1, inp.tSat - inp.tAir, dt3,
      AirsideAreaPerM(pi, inp.dOd, inp.fpi, inp.finThkMm, inp.finOdMm, inp.finIdMm, DEFAULT_FIN_EFF),
      z1, z2, z3, z1.length + z2.length + z3.length, rows))
  {
  }

  /** A valid tube and fin give a positive area per metre. */
  lemma ValidAreaPositive(inp: CoilInputs, pi: real)
    requires PhysicallyValid(inp, pi)
    ensures AirsideAreaPerM(pi, inp.dOd, inp.fpi, inp.finThkMm, inp.finOdMm, inp.finIdMm, DEFAULT_FIN_EFF).total > 0.0
  {
    AreasNonNegative(pi, inp.dOd, inp.fpi, inp.finThkMm, inp.finOdMm, inp.finIdMm, DEFAULT_FIN_EFF);
    ProductSign(pi, inp.dOd);
  }

  /** A face at least one pitch wide and a positive tube length give a row of positive capacity. */
  lemma ValidRowCapacity(inp: CoilInputs, pi: real)
    requires PhysicallyValid(inp, pi)
    ensures TubesPerRow(inp.coilWidth) >= 1
    ensures TubesPerRow(inp.coilWidth) as real * inp.coilLength > 0.0
  {
    var n := TubesPerRow(inp.coilWidth);
    assert inp.coilWidth < (n + 1) as real * TUBE_PITCH;
    ProductSign(n as real, inp.coilLength);
  }

  /** A positive length over a positive row capacity needs a positive number of rows. */
  lemma RowsPositive(l: real, n: int, coilLength: real)
    requires l > 0.0 && n as real * coilLength > 0.0
    ensures RowsRequired(l, n, coilLength).Ok? && RowsRequired(l, n, coilLength).value > 0.0
  {
    var rows := RowsRequired(l, n, coilLength).value;
    ProductSign(rows, n as real * coilLength);
  }

  /** A physically valid configuration is sized without fault, every zone length
      is non-negative, the condensation zone needs tube, and rows are positive. */
  lemma ValidConfigurationSizes(inp: CoilInputs, pi: real, ln: real -> real)
    requires IsLog(ln)
    requires PhysicallyValid(inp, pi)
    ensures SizeCoil(inp, pi, ln).Ok?
    ensures var s := SizeCoil(inp, pi, ln).value;
      && s.dtDesuper > 0.0 && s.dtCond > 0.0 && s.dtSub > 0.0
      && s.desuper.length >= 0.0 && s.cond.length > 0.0 && s.sub.length >= 0.0
      && s.lTotal > 0.0 && s.rowsRequired > 0.0
  {
    LogMeanPositive(inp.tIn, inp.tSat, inp.tAir, ln);
    LogMeanPositive(inp.tSat, inp.tOut, inp.tAir, ln);
    var dt1 := LogMeanTempDiff(inp.tIn, inp.tSat, inp.tAir, ln).value;
    var dt3 := LogMeanTempDiff(inp.tSat, inp.tOut, inp.tAir, ln).value;
    var a := AirsideAreaPerM(pi, inp.dOd, inp.fpi, inp.finThkMm, inp.finOdMm, inp.finIdMm, DEFAULT_FIN_EFF).total;
    ValidAreaPositive(inp, pi);
    var q1 := DesuperheatDuty(inp.mDot, inp.tIn, inp.tSat);
    var q2 := CondensationDuty(inp.mDot, inp.hFg);
    var q3 := SubcoolingDuty(inp.mDot, inp.cpLiquid, inp.tSat, inp.tOut);
    RequiredLengthPositive(q1, inp.u, a, dt1);
    RequiredLengthPositive(q2, inp.u, a, inp.tSat - inp.tAir);
    RequiredLengthPositive(q3, inp.u, a, dt3);
    var z1 := RequiredLength(q1, inp.u, a, dt1).value;
    var z2 := RequiredLength(q2, inp.u, a, inp.tSat - inp.tAir).value;
    var z3 := RequiredLength(q3, inp.u, a, dt3).value;
    var l := z1.length + z2.length + z3.length;
    ValidRowCapacity(inp, pi);
    RowsPositive(l, TubesPerRow(inp.coilWidth), inp.coilLength);
    SizeCoilFromSteps(inp, pi, ln, dt1, dt3, z1, z2, z3,
                      RowsRequired(l, TubesPerRow(inp.coilWidth), inp.coilLength).value);
  }

  /** The inputs hard-coded in the script. */
  const ScriptInputs: CoilInputs := CoilInputs(
    dOd := 0.00952, fpi := 14.0, finThkMm := 0.12, finOdMm := 25.4, finIdMm := 9.52,
    coilLength := 1.2, coilWidth := 1.0,
    mDot := 0.48, cpLiquid := 1.45, hFg := 100.1,
    tIn := 86.0, tSat := 65.0, tOut := 58.0, tAir := 50.0, u := 45.0)

  /** The script's run: it completes without fault for any π > 0 and any
      logarithm; the duties, the condensation LMTD and the tube count are exact,
      the other two LMTDs lie strictly between their approach temperatures. */
  lemma ScriptRun(pi: real, ln: real -> real)
    requires pi > 0.0
    requires IsLog(ln)
    ensures SizeCoil(ScriptInputs, pi, ln).Ok?
    ensures var s := SizeCoil(ScriptInputs, pi, ln).value;
      && s.tubesPerRow == 39
      && s.qDesuper == 10.584 && s.qCond == 48.048 && s.qSub == 4.872
      && 15.0 < s.dtDesuper < 36.0
      && s.dtCond == 15.0
      && 8.0 < s.dtSub < 15.0
      && s.area.total == pi * 0.0782902656088
      && s.lTotal > 0.0 && s.rowsRequired > 0.0
  {
    ValidConfigurationSizes(ScriptInputs, pi, ln);
    LogMeanStrictlyBetween(86.0, 65.0, 50.0, ln);
    LogMeanStrictlyBetween(65.0, 58.0, 50.0, ln);
    ScriptTubesPerRow();
    ScriptGeometry(pi);
  }
}
