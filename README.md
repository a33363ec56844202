# Air-cooled condenser coil sizing — a Dafny model

This project models the thermal-sizing engine of an air-cooled condenser coil
estimator. The engine has three parts:

- **Geometry.** Air-side area per metre of finned tube: bare tube circumference plus
  efficiency-derated annular fin area.
- **Thermal.** Three zone duties (desuperheating, condensation, subcooling) and the
  log-mean temperature difference (LMTD) against constant-temperature air.
- **Sizing.** Required area and tube length per zone from Q = U·A·ΔT_lm, summed to a
  total length, then divided into rows of `int(coil_width / 0.0254)` tubes of the coil length.

Everything is modelled as pure functions over `real`, one module per component:

- `wrappers.dfy`: `Result` and the two faults the Python code can raise over the reals (`ZeroDivisionError`,
  the math-domain `ValueError` of `math.log`).
- `numerics.dfy`: float division, `math.log` and `int()` truncation.
- `geometry.dfy`, `thermal.dfy`, `sizing.dfy`: the three parts above.
- `coil.dfy`: the module-level script, lifted into `SizeCoil` from an input record to a
  summary record. The script's hard-coded inputs are `ScriptInputs`.

π and `math.log` are foreign numerics. Both are parameters of the model:

- `pi: real` is positive wherever a proof needs it.
- `ln: real -> real` is constrained only by `Numerics.IsLog`: `ln(1) = 0`, `ln(1/x) = −ln(x)`,
  and `1 − 1/x < ln(x) < x − 1` for positive `x ≠ 1`.
- The sign law (ln x has the sign of x − 1) is derived from these (`Numerics.LnSign`).

Some behaviour of the code is worth stating because a reader might expect otherwise:

- The code validates nothing. No "invalid geometry" or "invalid sizing input" error exists.
  Over the reals, the only failures are Python's division by zero and `math.log` of a non-positive number.
  `SizeCoil` returns the first of these in script order.
- The degenerate LMTD branch returns `T_hot_in − T_air` even when it is zero or negative.
  It never raises.
- For the reference geometry (3/8 in tube, 14 FPI, 25.4 mm fin, 9.52 mm hole, efficiency 0.9),
  the code gives exactly `π · 0.0782902656088` m²/m. That lies in (0.2459, 0.2460) for π in
  (3.14159, 3.1416) (`Geometry.ScriptGeometryBounds`). The code counts only one face of
  each fin annulus; counting both faces would roughly double the fin area.

## Model

| member | source | states |
|---|---|---|
| `Numerics.Div` | finned_area_row_estimator_aircooledcond.py:16-17 | Python float division: it fails with ZeroDivision exactly when the divisor is 0; otherwise the quotient times the divisor is the dividend |
| `Numerics.Log` | finned_area_row_estimator_aircooledcond.py:25 | `math.log(x)`: it fails with a math-domain fault exactly when x ≤ 0; otherwise it is `ln(x)` |
| `Numerics.LnSign` | finned_area_row_estimator_aircooledcond.py:25 | for a logarithm `ln`, ln(x) is positive, negative or zero exactly as x is above, below or equal to 1 |
| `Numerics.LnReciprocal` | finned_area_row_estimator_aircooledcond.py:25 | the reciprocal law: if x > 0 and x·y = 1 then y > 0 and ln(y) = −ln(x) |
| `Numerics.Trunc` | finned_area_row_estimator_aircooledcond.py:37 | `int()` truncates toward zero: for x ≥ 0 it gives the n ≥ 0 with n ≤ x < n+1; for x < 0 the n ≤ 0 with n−1 < x ≤ n |
| `Numerics.TruncVersusFloor` | finned_area_row_estimator_aircooledcond.py:37 | truncation equals the floor for x ≥ 0 and is the floor plus one for negative non-integers |
| `Geometry.AirsideAreaPerM` | finned_area_row_estimator_aircooledcond.py:4-13 | total area per metre equals bare plus fin area; bare area is π·D_od with D_od already in metres |
| `Geometry.FinAreaClosedForm` | finned_area_row_estimator_aircooledcond.py:9-10 | fin area per metre is π·(OD²−ID²)·FPI·39.37·η / (4·10⁶) with the diameters in mm |
| `Geometry.OneFinArea` | finned_area_row_estimator_aircooledcond.py:9 | one fin's annulus area is π·(OD² − ID²)/(4·10⁶) m² with the diameters in mm, and it is ≥ 0 when π > 0 and fin OD ≥ fin ID ≥ 0 |
| `Geometry.AreasNonNegative` | finned_area_row_estimator_aircooledcond.py:4-13 | for π > 0, D_od ≥ 0, OD ≥ ID ≥ 0, FPI ≥ 0 and η ≥ 0: bare and fin areas are ≥ 0 and the total is at least the bare area |
| `Geometry.TotalMonotoneInFpi` | finned_area_row_estimator_aircooledcond.py:5-12 | with the other inputs fixed and a valid annulus, the total area is non-decreasing in FPI |
| `Geometry.TotalMonotoneInFinEff` | finned_area_row_estimator_aircooledcond.py:10-12 | with the other inputs fixed, FPI ≥ 0 and a valid annulus, the total area is non-decreasing in fin efficiency |
| `Geometry.FinThicknessIgnored` | finned_area_row_estimator_aircooledcond.py:4-13 | the fin thickness argument has no effect on any returned value |
| `Geometry.ScriptGeometry` | finned_area_row_estimator_aircooledcond.py:28-32 | for the script's tube and fin, bare, fin and total areas are π·0.00952, π·0.0687702656088 and π·0.0782902656088 exactly |
| `Geometry.ScriptGeometryBounds` | finned_area_row_estimator_aircooledcond.py:57 | for 3.14159 < π < 3.1416, the script's total area per metre lies in (0.2459, 0.2460) |
| `Thermal.DesuperheatDuty` | finned_area_row_estimator_aircooledcond.py:49 | the desuperheating duty is ≥ 0 (> 0) when flow ≥ 0 (> 0) and the inlet is at or above (above) saturation; it is zero when T_in = T_sat |
| `Thermal.CondensationDuty` | finned_area_row_estimator_aircooledcond.py:50 | the condensation duty is ≥ 0 for non-negative flow and latent heat, and > 0 for positive ones |
| `Thermal.SubcoolingDuty` | finned_area_row_estimator_aircooledcond.py:51 | the subcooling duty is ≥ 0 (> 0) for non-negative (positive) flow and c_p with T_sat ≥ T_out (>); it is zero when T_sat = T_out |
| `Thermal.LogMeanTempDiff` | finned_area_row_estimator_aircooledcond.py:20-25 | equal approaches give T_hot_in − T_air; a zero outlet approach gives ZeroDivision; approaches not of one strict sign give a math-domain fault; otherwise result·ln(ΔT1/ΔT2) = ΔT1 − ΔT2; for a true logarithm it is defined exactly in the equal or same-sign cases |
| `Thermal.IsothermalZone` | finned_area_row_estimator_aircooledcond.py:23-24 | with T_sat on both sides the LMTD is exactly T_sat − T_air, and it is ≤ 0 when the air is not colder |
| `Thermal.LogMeanSymmetric` | finned_area_row_estimator_aircooledcond.py:20-25 | swapping hot inlet and outlet changes neither whether the LMTD is defined nor its value |
| `Thermal.MeanBetween` | finned_area_row_estimator_aircooledcond.py:25 | a value whose product with ln(ΔT1/ΔT2) is ΔT1 − ΔT2 lies strictly between ΔT1 and ΔT2, given the logarithm's bounds scaled by the approaches |
| `Thermal.LogMeanStrictlyBetween` | finned_area_row_estimator_aircooledcond.py:21-25 | for distinct approach temperatures of the same sign, the LMTD is defined and lies strictly between their minimum and maximum |
| `Thermal.LogMeanPositive` | finned_area_row_estimator_aircooledcond.py:20-25 | a hot stream above the air at both ends has a defined, positive LMTD |
| `Sizing.RequiredLength` | finned_area_row_estimator_aircooledcond.py:15-18 | it succeeds exactly when U·ΔT_lm ≠ 0 and A_per_m ≠ 0, and fails otherwise with ZeroDivision; on success A·U·ΔT_lm = Q·1000 and L·A_per_m = A |
| `Sizing.RequiredLengthUnique` | finned_area_row_estimator_aircooledcond.py:16-17 | any area and length meeting the duty balance are the ones returned |
| `Sizing.RequiredLengthPositive` | finned_area_row_estimator_aircooledcond.py:16-17 | for Q ≥ 0 and positive U, A_per_m and ΔT_lm the call succeeds; positive Q gives positive area and length; zero Q gives zero length |
| `Sizing.TubesPerRow` | finned_area_row_estimator_aircooledcond.py:37 | for a non-negative coil width, n ≥ 0 tubes at 0.0254 m pitch fit in the width and n+1 do not; for a negative width, n ≤ 0 with (n−1)·0.0254 < w ≤ n·0.0254 (truncation toward zero) |
| `Sizing.ScriptTubesPerRow` | finned_area_row_estimator_aircooledcond.py:36-37 | a 1.0 m coil width gives 39 tubes per row |
| `Sizing.RowsRequired` | finned_area_row_estimator_aircooledcond.py:65 | it succeeds exactly when tubes_per_row·coil_length ≠ 0; then rows·(tubes_per_row·coil_length) = L_total |
| `Coil.SizeCoil` | finned_area_row_estimator_aircooledcond.py:49-65 | a fault in the desuperheat LMTD (the first that can fail) is the result. On success: each summary field is the corresponding zone duty, LMTD, area or tube count; every zone meets the duty balance against the total area per metre; L_total = L1 + L2 + L3; rows·(tubes_per_row·coil_length) = L_total |
| `Coil.SizeCoilFromSteps` | finned_area_row_estimator_aircooledcond.py:49-65 | when both LMTD calls, the three length calculations and the row division succeed, sizing succeeds and its summary is exactly those steps' results, with L_total their length sum |
| `Coil.ValidConfigurationSizes` | finned_area_row_estimator_aircooledcond.py:49-65 | with π > 0, T_in ≥ T_sat ≥ T_out > T_air, m_dot > 0, h_fg > 0, c_p ≥ 0, U > 0, D_od > 0, FPI ≥ 0, fin OD ≥ fin ID ≥ 0, coil width ≥ 0.0254 m and coil length > 0: sizing succeeds, every LMTD is positive, zone lengths are ≥ 0 (condensation > 0), and total length and rows are positive |
| `Coil.ScriptRun` | finned_area_row_estimator_aircooledcond.py:28-65 | for the script's inputs, any π > 0 and any logarithm: sizing succeeds; 39 tubes per row; duties exactly 10.584, 48.048 and 4.872 kW; condensation LMTD exactly 15; desuperheat LMTD in (15, 36); subcool LMTD in (8, 15); area π·0.0782902656088; positive total length and rows |

## Left out

- The four `print` lines (67-70) only format output.
- The script runs at module load time. The model has no load-time effect; `Coil.SizeCoil` applied to `Coil.ScriptInputs` takes its place.
- `total_tubes` (line 64) is computed and never used, so it is not modelled.
- Float overflow: `**` at line 9 and `int()` at line 37 raise `OverflowError` past the float range; over `real` neither exists.
- IEEE-754 rounding: everything is exact over `real`. The float comparison `dT1 == dT2` is modelled as real equality.
- `Numerics.Trunc`, `Sizing.TubesPerRow`: `int()` is applied to a rounded float quotient, which can truncate to a different integer than the exact real quotient when that quotient is within rounding error of an integer.
- `math.pi` and `math.log` are parameters (`pi`, `ln`), not computed values. So the approximate figures ≈ 24.0 °C (desuperheat LMTD) and ≈ 11.1 °C (subcool LMTD) are not stated exactly. Only the bounds that follow from the logarithm laws are proved.
- `Coil.SizeCoil`: the error ordering is stated only for the first fallible step (the desuperheat LMTD). The later steps follow the script's order in the body. Success when every step succeeds is stated separately by `Coil.SizeCoilFromSteps`.
