/** Required tube length per zone (`calculate_required_length`) and the
    aggregation of zone lengths into tubes per row and rows. */
module Sizing {
  import opened Wrappers
  import opened Numerics

  /** Watts per kilowatt. */
  const W_PER_KW: real := 1000.0
  /** Assumed tube pitch across the coil face, m (one inch). */
  const TUBE_PITCH: real := 0.0254

  /** Required air-side area (m²) and tube length (m) of one zone. */
  datatype ZoneSizing = ZoneSizing(area: real, length: real)

  /** The duty balance Q·1000 = U·A·ΔT_lm holds for the zone's area, and its
      length times the area per metre is that area. */
  predicate Balanced(z: ZoneSizing, qKw: real, u: real, aPerM: real, dtLm: real) {
    z.area * (u * dtLm) == qKw * W_PER_KW && z.length * aPerM == z.area
  }

  /** Solves Q = U·A·ΔT_lm for A and divides by the area per metre of tube.
      Raises ZeroDivisionError when U·ΔT_lm or the area per metre is zero. */
  function RequiredLength(qKw: real, u: real, aPerM: real, dtLm: real): (r: Result<ZoneSizing>)
    ensures r.Ok? <==> u * dtLm != 0.0 && aPerM != 0.0
    ensures r.Err? ==> r.fault == ZeroDivision
    ensures r.Ok? ==> Balanced(r.value, qKw, u, aPerM, dtLm)
  {
    var aRequired :- Div(qKw * W_PER_KW, u * dtLm);
    var lTotal :- Div(aRequired, aPerM);
    Ok(ZoneSizing(aRequired, lTotal))
  }

  /** The required area and length are the only values meeting the duty balance. */
  lemma RequiredLengthUnique(qKw: real, u: real, aPerM: real, dtLm: real, area: real, length: real)
    requires u * dtLm != 0.0 && aPerM != 0.0
    requires Balanced(ZoneSizing(area, length), qKw, u, aPerM, dtLm)
    ensures RequiredLength(qKw, u, aPerM, dtLm) == Ok(ZoneSizing(area, length))
  {
    var r := RequiredLength(qKw, u, aPerM, dtLm).value;
    assert (r.area - area) * (u * dtLm) == 0.0;
    assert r.area == area;
    assert (r.length - length) * aPerM == 0.0;
    assert r.length == length;
  }

  /** Positive duty, coefficient, area per metre and LMTD give a positive area
      and length; a zero duty gives a zero length. */
  lemma RequiredLengthPositive(qKw: real, u: real, aPerM: real, dtLm: real)
    requires qKw >= 0.0 && u > 0.0 && aPerM > 0.0 && dtLm > 0.0
    ensures RequiredLength(qKw, u, aPerM, dtLm).Ok?
    ensures qKw > 0.0 ==> RequiredLength(qKw, u, aPerM, dtLm).value.area > 0.0
    ensures qKw > 0.0 ==> RequiredLength(qKw, u, aPerM, dtLm).value.length > 0.0
    ensures qKw == 0.0 ==> RequiredLength(qKw, u, aPerM, dtLm).value.length == 0.0
  {
    var r := RequiredLength(qKw, u, aPerM, dtLm).value;
    assert u * dtLm > 0.0;
    if r.area <= 0.0 {
      assert r.area * (u * dtLm) <= 0.0;
    }
    if qKw == 0.0 {
      assert r.area == 0.0;
    }
  }

  /** Tubes across the coil face at one-inch pitch: `int(coil_width / 0.0254)`. */
  function TubesPerRow(coilWidth: real): (n: int)
    ensures coilWidth >= 0.0 ==> n >= 0 && n as real * TUBE_PITCH <= coilWidth < (n + 1) as real * TUBE_PITCH
    ensures coilWidth < 0.0 ==> n <= 0 && (n - 1) as real * TUBE_PITCH < coilWidth <= n as real * TUBE_PITCH
  {
    var x := coilWidth / TUBE_PITCH;
    var n := Trunc(x);
    assert x * TUBE_PITCH == coilWidth;
    assert coilWidth >= 0.0 <==> x >= 0.0;
    n
  }

  /** A one-metre coil face holds 39 tubes per row. */
  lemma ScriptTubesPerRow()
    ensures TubesPerRow(1.0) == 39
  {
  }

  /** `rows` rows of `tubesPerRow` tubes of `coilLength` hold exactly `lTotal` of tube. */
  predicate FillsRows(rows: real, tubesPerRow: int, coilLength: real, lTotal: real) {
    rows * (tubesPerRow as real * coilLength) == lTotal
  }

  /** Rows needed for a total tube length, each row holding `tubesPerRow`
      tubes of `coilLength`. Raises ZeroDivisionError for an empty row. */
  function RowsRequired(lTotal: real, tubesPerRow: int, coilLength: real): (r: Result<real>)
    ensures r.Ok? <==> tubesPerRow as real * coilLength != 0.0
    ensures r.Err? ==> r.fault == ZeroDivision
    ensures r.Ok? ==> FillsRows(r.value, tubesPerRow, coilLength, lTotal)
  {
    Div(lTotal, tubesPerRow as real * coilLength)
  }
}
