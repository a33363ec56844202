/** Zone heat duties and the log-mean temperature difference against a
    constant air temperature (`log_mean_temp_diff`, script lines 49-51). */
module Thermal {
  import opened Wrappers
  import opened Numerics

  /** Vapour specific heat used for the desuperheating zone, kJ/(kg·K). */
  const VAPOR_CP: real := 1.05

  /** Desuperheating duty, kW: cooling the vapour from inlet to saturation. */
  function DesuperheatDuty(mDot: real, tIn: real, tSat: real): (q: real)
    ensures mDot >= 0.0 && tIn >= tSat ==> q >= 0.0
    ensures mDot > 0.0 && tIn > tSat ==> q > 0.0
    ensures tIn == tSat ==> q == 0.0
  {
    var k := mDot * VAPOR_CP;
    var dT := tIn - tSat;
    ProductSign(k, dT);
    k * dT
  }

  /** Condensation duty, kW: latent heat released at saturation. */
  function CondensationDuty(mDot: real, hFg: real): (q: real)
    ensures mDot >= 0.0 && hFg >= 0.0 ==> q >= 0.0
    ensures mDot > 0.0 && hFg > 0.0 ==> q > 0.0
  {
    ProductSign(mDot, hFg);
    mDot * hFg
  }

  /** Subcooling duty, kW: cooling the liquid from saturation to outlet. */
  function SubcoolingDuty(mDot: real, cpLiquid: real, tSat: real, tOut: real): (q: real)
    ensures mDot >= 0.0 && cpLiquid >= 0.0 && tSat >= tOut ==> q >= 0.0
    ensures mDot > 0.0 && cpLiquid > 0.0 && tSat > tOut ==> q > 0.0
    ensures tSat == tOut ==> q == 0.0
  {
    var k := mDot * cpLiquid;
    var dT := tSat - tOut;
    ProductSign(mDot, cpLiquid);
    ProductSign(k, dT);
    k * dT
  }

  /** Both approach temperatures are non-zero and of the same sign, so their ratio
      is a valid argument of the logarithm. */
  predicate SameSign(dT1: real, dT2: real) {
    (dT1 > 0.0 && dT2 > 0.0) || (dT1 < 0.0 && dT2 < 0.0)
  }

  /** Log-mean temperature difference between a hot stream going from
      `tHotIn` to `tHotOut` and air held at `tAir`. Equal approach temperatures
      return that approach directly, whatever its sign; otherwise a zero outlet
      approach raises ZeroDivisionError and a non-positive ratio raises a math
      domain error. */
  function LogMeanTempDiff(tHotIn: real, tHotOut: real, tAir: real, ln: real -> real): (r: Result<real>)
    ensures tHotIn == tHotOut ==> r == Ok(tHotIn - tAir)
    ensures tHotIn != tHotOut && tHotOut == tAir ==> r == Err(ZeroDivision)
    ensures tHotIn != tHotOut && tHotOut != tAir && !SameSign(tHotIn - tAir, tHotOut - tAir)
      ==> r == Err(MathDomain)
    ensures tHotIn != tHotOut && SameSign(tHotIn - tAir, tHotOut - tAir) && r.Ok?
      ==> r.value * ln((tHotIn - tAir) / (tHotOut - tAir)) == (tHotIn - tAir) - (tHotOut - tAir)
    ensures IsLog(ln) ==> (r.Ok? <==> tHotIn == tHotOut || SameSign(tHotIn - tAir, tHotOut - tAir))
  {
    var dT1 := tHotIn - tAir;
    var dT2 := tHotOut - tAir;
    if dT1 == dT2 then Ok(dT1)
    else
      var ratio :- Div(dT1, dT2);
      assert ratio > 0.0 <==> SameSign(dT1, dT2) by { RatioSign(dT1, dT2, ratio); }
      var l :- Log(ratio, ln);
      assert IsLog(ln) ==> l != 0.0 by {
        if IsLog(ln) { LnSign(ratio, ln); }
      }
      Div(dT1 - dT2, l)
  }

  /** The ratio of two reals is positive exactly when they share a sign. */
  lemma RatioSign(a: real, b: real, q: real)
    requires b != 0.0 && q * b == a
    ensures q > 0.0 <==> SameSign(a, b)
    ensures q == 1.0 <==> a == b
  {
    ProductSign(q, b);
    assert (q - 1.0) * b == q * b - b;
    ProductSign(q - 1.0, b);
  }

  /** The isothermal (condensation) case: both sides at saturation give exactly
      the saturation-to-air approach, even when it is zero or negative. */
  lemma IsothermalZone(tSat: real, tAir: real, ln: real -> real)
    ensures LogMeanTempDiff(tSat, tSat, tAir, ln) == Ok(tSat - tAir)
    ensures tSat <= tAir ==> LogMeanTempDiff(tSat, tSat, tAir, ln).value <= 0.0
  {
  }

  /** Swapping the hot inlet and outlet changes neither whether the LMTD is
      defined nor its value. */
  lemma LogMeanSymmetric(tHotIn: real, tHotOut: real, tAir: real, ln: real -> real)
    requires IsLog(ln)
    ensures LogMeanTempDiff(tHotIn, tHotOut, tAir, ln).Ok?
        == LogMeanTempDiff(tHotOut, tHotIn, tAir, ln).Ok?
    ensures LogMeanTempDiff(tHotIn, tHotOut, tAir, ln).Ok? ==>
      LogMeanTempDiff(tHotIn, tHotOut, tAir, ln).value == LogMeanTempDiff(tHotOut, tHotIn, tAir, ln).value
  {
    var a := tHotIn - tAir;
    var b := tHotOut - tAir;
    if a != b && SameSign(a, b) {
      var r := LogMeanTempDiff(tHotIn, tHotOut, tAir, ln);
      var r' := LogMeanTempDiff(tHotOut, tHotIn, tAir, ln);
      SwappedMeans(a, b, r.value, r'.value, ln);
    }
  }

  /** Two values whose products with ln(a/b) and ln(b/a) are a − b and b − a are equal. */
  lemma SwappedMeans(a: real, b: real, l: real, l': real, ln: real -> real)
    requires IsLog(ln)
    requires a != b && SameSign(a, b)
    requires l * ln(a / b) == a - b && l' * ln(b / a) == b - a
    ensures l == l'
  {
    var q := a / b;
    var q' := b / a;
    RatioSign(a, b, q);
    ReciprocalRatio(a, b);
    LnReciprocal(q, q', ln);
    LnSign(q, ln);
    Cancel(l, l', ln(q), a - b);
  }

  /** a/b and b/a are reciprocals. */
  lemma ReciprocalRatio(a: real, b: real)
    requires a != 0.0 && b != 0.0
    ensures (a / b) * (b / a) == 1.0
  {
  }

  /** Cancelling a non-zero factor, with the second product given negated. */
  lemma Cancel(l: real, l': real, m: real, d: real)
    requires m != 0.0 && l * m == d && l' * (-m) == -d
    ensures l == l'
  {
    assert (l - l') * m == 0.0;
  }

  /** The core inequality: if lo·a = hi·b = a − b, lo < m < hi and l·m = a − b,
      then l lies strictly between a and b. */
  lemma MeanBetween(a: real, b: real, lo: real, m: real, hi: real, l: real)
    requires SameSign(a, b) && a != b
    requires lo * a == a - b && hi * b == a - b
    requires lo < m < hi
    requires l * m == a - b
    ensures (if a < b then a else b) < l < (if a < b then b else a)
  {
    var d := a - b;
    if a > 0.0 && b > 0.0 {
      assert m * a > d;
      assert m * b < d;
      if d > 0.0 {
        assert m > 0.0;
        assert l * m < a * m;
        assert l * m > b * m;
      } else {
        assert m < 0.0;
        assert l * m < a * m;
        assert l * m > b * m;
      }
    } else {
      assert m * a < d;
      assert m * b > d;
      if d > 0.0 {
        assert m < 0.0;
        assert l * m > a * m;
        assert l * m < b * m;
      } else {
        assert m > 0.0;
        assert l * m > a * m;
        assert l * m < b * m;
      }
    }
  }

  /** Outside the isothermal case a defined LMTD lies strictly between the two
      approach temperatures. */
  lemma LogMeanStrictlyBetween(tHotIn: real, tHotOut: real, tAir: real, ln: real -> real)
    requires IsLog(ln)
    requires tHotIn != tHotOut
    requires SameSign(tHotIn - tAir, tHotOut - tAir)
    ensures var r := LogMeanTempDiff(tHotIn, tHotOut, tAir, ln);
      var dT1 := tHotIn - tAir; var dT2 := tHotOut - tAir;
      r.Ok? && (if dT1 < dT2 then dT1 else dT2) < r.value < (if dT1 < dT2 then dT2 else dT1)
  {
    var a := tHotIn - tAir;
    var b := tHotOut - tAir;
    var q := a / b;
    RatioSign(a, b, q);
    assert 1.0 - 1.0 / q < ln(q) < q - 1.0;
    RatioBounds(a, b, q);
    MeanBetween(a, b, 1.0 - 1.0 / q, ln(q), q - 1.0, LogMeanTempDiff(tHotIn, tHotOut, tAir, ln).value);
  }

  /** The logarithm bounds at q = a/b, scaled by the approach temperatures. */
  lemma RatioBounds(a: real, b: real, q: real)
    requires a != 0.0 && b != 0.0 && q * b == a
    ensures (1.0 - 1.0 / q) * a == a - b
    ensures (q - 1.0) * b == a - b
  {
    assert q != 0.0;
    assert (1.0 / q) * q == 1.0;
    assert (1.0 / q) * a == (1.0 / q) * q * b;
  }

  /** A hot stream above the air on both sides has a positive LMTD. */
  lemma LogMeanPositive(tHotIn: real, tHotOut: real, tAir: real, ln: real -> real)
    requires IsLog(ln)
    requires tHotIn > tAir && tHotOut > tAir
    ensures LogMeanTempDiff(tHotIn, tHotOut, tAir, ln).Ok?
    ensures LogMeanTempDiff(tHotIn, tHotOut, tAir, ln).value > 0.0
  {
    if tHotIn != tHotOut {
      LogMeanStrictlyBetween(tHotIn, tHotOut, tAir, ln);
    }
  }
}
