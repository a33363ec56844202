/** Air-side surface of a finned tube, per metre of tube
    (`compute_airside_area_per_m`). Tube diameter is in metres, fin diameters
    in millimetres, fin pitch in fins per inch. */
module Geometry {
  import opened Numerics

  /** Fins per metre for one fin per inch, the factor `compute_airside_area_per_m` uses
      (one inch is 0.0254 m, so the exact value would be 39.3700787...). */
  const FINS_PER_M_PER_FPI: real := 39.37
  /** Millimetres per metre. */
  const MM_PER_M: real := 1000.0
  /** Default fin efficiency when the caller passes none. */
  const DEFAULT_FIN_EFF: real := 0.9

  /** The three values returned by `compute_airside_area_per_m`, in m² per metre of tube. */
  datatype AirsideArea = AirsideArea(total: real, bare: real, fins: real)

  /** Area of one side of one annular fin disk, in m², from diameters in mm.
      It is non-negative when the fin OD is at least its ID. */
  function OneFinArea(pi: real, finOdMm: real, finIdMm: real): (r: real)
    ensures r == pi * (finOdMm * finOdMm - finIdMm * finIdMm) / 4000000.0
    ensures pi > 0.0 && finOdMm >= finIdMm >= 0.0 ==> r >= 0.0
  {
    var odM := finOdMm / MM_PER_M;
    var idM := finIdMm / MM_PER_M;
    assert odM * odM - idM * idM == (finOdMm * finOdMm - finIdMm * finIdMm) / 1000000.0;
    var d := odM * odM - idM * idM;
    assert d == (odM - idM) * (odM + idM);
    ProductSign(odM - idM, odM + idM);
    ProductSign(pi, d);
    pi * d / 4.0
  }

  /** Total, bare-tube and efficiency-derated fin area per metre of tube.
      `finThkMm` is accepted and never read, as in `compute_airside_area_per_m`. */
  function AirsideAreaPerM(pi: real, dOd: real, fpi: real, finThkMm: real,
                           finOdMm: real, finIdMm: real, finEff: real): (r: AirsideArea)
    ensures r.total == r.bare + r.fins
    ensures r.bare == pi * dOd
  {
    var finsPerM := fpi * FINS_PER_M_PER_FPI;
    var tubeCirc := pi * dOd;
    var aBare := tubeCirc * 1.0;
    var aFins := OneFinArea(pi, finOdMm, finIdMm) * finsPerM * finEff;
    AirsideArea(aBare + aFins, aBare, aFins)
  }

  /** The fin area in closed form: π/4 · (OD² − ID²) in mm², scaled to m²,
      times fins per metre and fin efficiency. */
  lemma FinAreaClosedForm(pi: real, dOd: real, fpi: real, finThkMm: real,
                          finOdMm: real, finIdMm: real, finEff: real)
    ensures AirsideAreaPerM(pi, dOd, fpi, finThkMm, finOdMm, finIdMm, finEff).fins
         == pi * (finOdMm * finOdMm - finIdMm * finIdMm) * fpi * 39.37 * finEff / 4000000.0
  {
    var odM := finOdMm / MM_PER_M;
    var idM := finIdMm / MM_PER_M;
    assert odM * odM - idM * idM == (finOdMm * finOdMm - finIdMm * finIdMm) / 1000000.0;
  }

  /** With a valid annulus, pitch and efficiency, no area is negative. */
  lemma AreasNonNegative(pi: real, dOd: real, fpi: real, finThkMm: real,
                         finOdMm: real, finIdMm: real, finEff: real)
    requires pi > 0.0 && dOd >= 0.0
    requires finOdMm >= finIdMm >= 0.0 && fpi >= 0.0 && finEff >= 0.0
    ensures var r := AirsideAreaPerM(pi, dOd, fpi, finThkMm, finOdMm, finIdMm, finEff);
      r.bare >= 0.0 && r.fins >= 0.0 && r.total >= r.bare
  {
    var a := OneFinArea(pi, finOdMm, finIdMm);
    assert a * (fpi * FINS_PER_M_PER_FPI) >= 0.0;
    assert a * (fpi * FINS_PER_M_PER_FPI) * finEff >= 0.0;
  }

  /** More fins per inch never reduce the total area. */
  lemma TotalMonotoneInFpi(pi: real, dOd: real, fpi1: real, fpi2: real, finThkMm: real,
                           finOdMm: real, finIdMm: real, finEff: real)
    requires pi > 0.0 && finOdMm >= finIdMm >= 0.0 && finEff >= 0.0
    requires fpi1 <= fpi2
    ensures AirsideAreaPerM(pi, dOd, fpi1, finThkMm, finOdMm, finIdMm, finEff).total
         <= AirsideAreaPerM(pi, dOd, fpi2, finThkMm, finOdMm, finIdMm, finEff).total
  {
    var a := OneFinArea(pi, finOdMm, finIdMm);
    var k := a * finEff * FINS_PER_M_PER_FPI;
    assert k >= 0.0;
    assert k * fpi1 <= k * fpi2;
    assert a * (fpi1 * FINS_PER_M_PER_FPI) * finEff == k * fpi1;
    assert a * (fpi2 * FINS_PER_M_PER_FPI) * finEff == k * fpi2;
  }

  /** A higher fin efficiency never reduces the total area (for fpi >= 0). */
  lemma TotalMonotoneInFinEff(pi: real, dOd: real, fpi: real, finThkMm: real,
                              finOdMm: real, finIdMm: real, finEff1: real, finEff2: real)
    requires pi > 0.0 && finOdMm >= finIdMm >= 0.0 && fpi >= 0.0
    requires finEff1 <= finEff2
    ensures AirsideAreaPerM(pi, dOd, fpi, finThkMm, finOdMm, finIdMm, finEff1).total
         <= AirsideAreaPerM(pi, dOd, fpi, finThkMm, finOdMm, finIdMm, finEff2).total
  {
    var a := OneFinArea(pi, finOdMm, finIdMm);
    var k := a * (fpi * FINS_PER_M_PER_FPI);
    assert k >= 0.0;
    assert k * finEff1 <= k * finEff2;
  }

  /** The fin thickness does not affect any returned value. */
  lemma FinThicknessIgnored(pi: real, dOd: real, fpi: real, thk1: real, thk2: real,
                            finOdMm: real, finIdMm: real, finEff: real)
    ensures AirsideAreaPerM(pi, dOd, fpi, thk1, finOdMm, finIdMm, finEff)
         == AirsideAreaPerM(pi, dOd, fpi, thk2, finOdMm, finIdMm, finEff)
  {
  }

  /** The script's tube and fin (3/8 in tube, 14 FPI, 1 in fin disk, default
      efficiency): every area is an exact rational multiple of π. */
  lemma ScriptGeometry(pi: real)
    ensures var r := AirsideAreaPerM(pi, 0.00952, 14.0, 0.12, 25.4, 9.52, DEFAULT_FIN_EFF);
      && r.bare == pi * 0.00952
      && r.fins == pi * 0.0687702656088
      && r.total == pi * 0.0782902656088
  {
    FinAreaClosedForm(pi, 0.00952, 14.0, 0.12, 25.4, 9.52, DEFAULT_FIN_EFF);
  }

  /** For any π in (3.14159, 3.1416) the script's total area per metre lies in
      (0.2459, 0.2460) m²/m. */
  lemma ScriptGeometryBounds(pi: real)
    requires 3.14159 < pi < 3.1416
    ensures 0.2459 < AirsideAreaPerM(pi, 0.00952, 14.0, 0.12, 25.4, 9.52, DEFAULT_FIN_EFF).total < 0.2460
  {
    ScriptGeometry(pi);
  }
}
