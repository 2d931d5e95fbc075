# Wave pack tube solver, modelled in Dafny

This project models the calculation core of the Wave Pack backend,
`wavepack_v1_full/app.py`. The backend sizes a honeycomb of rectangular
waveguide tubes ("wave pack") that must carry a given air or liquid flow
within a velocity limit and a pressure-drop limit. It also reports the
weight of the pack and its shielding effectiveness below the waveguide
cutoff.

The model has six modules:

- `Wrappers`: the `Option` and `Result` types.
- `Units`: the linear unit conversions and their inverses.
- `Tables`: the `MATERIALS` table (density, roughness, colour) and the keys of the `FLUIDS` table.
- `Physics`: the closed-form formulas:
  - hydraulic diameter;
  - Reynolds number;
  - the three branches of the friction factor;
  - Darcy–Weisbach pressure loss;
  - TE10 cutoff frequency;
  - attenuation below cutoff;
  - tube weight.
- `Rounding`: the integer ceiling square root and ceiling quotient that round a tube count up to a full `n × m` array.
- `Solver`: `solve_tube_count`, in two forms.
  - Payload defaulting, the table lookups and the errors they raise.
  - The search loop as a method, `SolveTubeCount`, with loop invariants.
  - A specification of the loop as functions (`FirstMeeting`, `SolveFrom`, `Solve`), which the method is proved equal to.
  - Lemmas about what every result satisfies.

Everything is computed over exact reals. Four float routines are passed to
the solver as a `Numerics` value of functions:

- the fluid property correlations;
- the turbulent (Haaland, `log10`) friction value;
- `math.sqrt`;
- `10 ** x`.

Lemmas assume only sign facts about these routines, such as "the square root of a non-negative number is non-negative". The one exception is `FrequencyGridOrdered`, which assumes that `10 ** x` increases with x.

Python exceptions become error results:

- An unknown fluid or material key raises `KeyError`. This becomes `UnknownKey(key)`.
- A zero side sum, a zero hydraulic diameter or a zero viscosity raises `ZeroDivisionError`. This becomes `DivisionByZero`.

The errors are reported in the order the code reaches them.

The repository's browser front end (its HTML templates and static scripts: charts, input debouncing, rendering) lies outside `app.py` and is not modelled.

## Model

| member | source | states |
|---|---|---|
| Units.InToM | wavepack_v1_full/app.py:19 | inches to metres, ×0.0254; characterised by FootIsTwelveInches |
| Units.FtToM | wavepack_v1_full/app.py:20 | feet to metres, ×0.3048; characterised by FootIsTwelveInches |
| Units.PsiToPa | wavepack_v1_full/app.py:21 | psi to pascals, ×6894.757; its inverse is PaToPsi (PsiRoundTrip) |
| Units.CfmToM3s | wavepack_v1_full/app.py:23 | cfm to m³/s, ×0.00047194745; its inverse is M3sToCfm (CfmRoundTrip) |
| Units.Lbft3ToKgm3 | wavepack_v1_full/app.py:25 | lb/ft³ to kg/m³, ×16.0185; its inverse is Kgm3ToLbft3 (DensityRoundTrip) |
| Units.CToF | wavepack_v1_full/app.py:29 | Celsius to Fahrenheit; its inverse is FToC (TemperatureRoundTrip) |
| Units.FToK | wavepack_v1_full/app.py:30 | Fahrenheit to kelvin; characterised by KelvinScale |
| Units.PaToPsi | wavepack_v1_full/app.py:21-22 | psi_to_pa undoes pa_to_psi: pa_to_psi returns the value whose conversion back to pascals is the input |
| Units.M3sToCfm | wavepack_v1_full/app.py:23-24 | cfm_to_m3s undoes m3s_to_cfm |
| Units.Kgm3ToLbft3 | wavepack_v1_full/app.py:25-26 | lbft3_to_kgm3 undoes kgm3_to_lbft3 |
| Units.FToC | wavepack_v1_full/app.py:28-29 | C_to_F undoes F_to_C |
| Units.PsiRoundTrip | wavepack_v1_full/app.py:21-22 | psi ↔ Pa round trips are the identity in both directions |
| Units.CfmRoundTrip | wavepack_v1_full/app.py:23-24 | cfm ↔ m³/s round trips are the identity in both directions |
| Units.DensityRoundTrip | wavepack_v1_full/app.py:25-26 | lb/ft³ ↔ kg/m³ round trips are the identity in both directions |
| Units.TemperatureRoundTrip | wavepack_v1_full/app.py:28-29 | °F ↔ °C round trips are the identity in both directions |
| Units.FootIsTwelveInches | wavepack_v1_full/app.py:19-20 | ft_to_m(x) equals in_to_m(12x): the two length factors agree |
| Units.KelvinScale | wavepack_v1_full/app.py:28-30 | F_to_K(F) = F_to_C(F) + 273.15; 32 °F is 273.15 K and 212 °F is 373.15 K; a kelvin difference is five ninths of the Fahrenheit difference |
| Tables.Materials | wavepack_v1_full/app.py:35-41 | the material table, row by row; its keys and signs are stated by TablesWellFormed |
| Tables.Fluids | wavepack_v1_full/app.py:91-99 | the fluid keys and display names; its key set is stated by TablesWellFormed |
| Tables.LookupMaterial | wavepack_v1_full/app.py:35-41 | a material lookup succeeds exactly for the five listed keys and then returns that key's row, which has positive density and roughness; the solver's setup looks the material up through it |
| Tables.TablesWellFormed | wavepack_v1_full/app.py:35-41 | MATERIALS has exactly its five keys and FLUIDS exactly its seven; every density and roughness is positive |
| Tables.DefaultKeysKnown | wavepack_v1_full/app.py:91-99 | the default keys "air" and "stainless_304" are table keys |
| Physics.HydraulicDiameterRect | wavepack_v1_full/app.py:104-106 | hydraulic_diameter_rect; characterised by HydraulicDiameterOfSquare, HydraulicDiameterBetweenSides and HydraulicDiameterZero |
| Physics.ReynoldsNumber | wavepack_v1_full/app.py:108-110 | reynolds_number; characterised by ReynoldsSign |
| Physics.ColebrookWhite | wavepack_v1_full/app.py:112-119 | colebrook_white with the Haaland value as a parameter; characterised by FrictionRegimes and FrictionPositive |
| Physics.DarcyDeltaP | wavepack_v1_full/app.py:121-123 | darcy_delta_p; characterised by DarcyDeltaPProperties |
| Physics.CutoffFrequencyRect | wavepack_v1_full/app.py:125-127 | cutoff_frequency_rect; characterised by CutoffWavelength |
| Physics.SeBelowCutoffDb | wavepack_v1_full/app.py:129-137 | se_below_cutoff_db with sqrt as a parameter; characterised by SeBelowCutoffDbNonNegative and SeBelowCutoffDbPositiveIff |
| Physics.TubeWeightLbm | wavepack_v1_full/app.py:139-148 | tube_weight_lbm; characterised by TubeWeightNonNegative and TubeWeightOfWall |
| Physics.Max | wavepack_v1_full/app.py:145 | max(x, y) is an upper bound of both arguments and equals one of them |
| Physics.HydraulicDiameterOfSquare | wavepack_v1_full/app.py:104-106 | a square duct's hydraulic diameter is its side |
| Physics.HydraulicDiameterBetweenSides | wavepack_v1_full/app.py:104-106 | for positive sides, the hydraulic diameter lies between the shorter and the longer side and is symmetric in the sides |
| Physics.HarmonicMeanBounds | wavepack_v1_full/app.py:104-106 | 2ab/(a+b) lies in [a, b] for 0 < a ≤ b |
| Physics.HydraulicDiameterZero | wavepack_v1_full/app.py:104-106 | the hydraulic diameter is zero exactly when a side is zero |
| Physics.ReynoldsSign | wavepack_v1_full/app.py:108-110 | for positive density, diameter and viscosity, Re is positive or zero exactly when the velocity is |
| Physics.FrictionRegimes | wavepack_v1_full/app.py:112-119 | Re ≤ 0 gives 0.02; 0 < Re < 2300 gives f with f·Re = 64, so f > 64/2300; Re ≥ 2300 gives the turbulent value |
| Physics.FrictionPositive | wavepack_v1_full/app.py:112-119 | the friction factor is positive whenever the turbulent value is |
| Physics.DarcyDeltaPProperties | wavepack_v1_full/app.py:121-123 | ΔP is non-negative for non-negative f, L, ρ and positive Dh; it is even in v and linear in L |
| Physics.CutoffWavelength | wavepack_v1_full/app.py:125-127 | for a positive width, fc is positive, the cutoff wavelength C0/fc is twice the width, and a wider guide cuts off lower |
| Physics.SeBelowCutoffDbNonNegative | wavepack_v1_full/app.py:129-137 | attenuation is 0 at or above fc and never negative for a non-negative length |
| Physics.SeBelowCutoffDbPositiveIff | wavepack_v1_full/app.py:129-137 | for a positive length and a non-negative frequency, attenuation is positive exactly below fc |
| Physics.TubeWeightNonNegative | wavepack_v1_full/app.py:139-148 | a tube's weight is never negative when its length is not: the wall area is clamped at 0 and table densities are positive |
| Physics.TubeWeightOfWall | wavepack_v1_full/app.py:139-148 | for non-negative bore and wall, the clamp is inactive and the weight is the wall ring area t(2a+2b+4t)/144 ft² × length × density |
| Rounding.CeilSqrt | wavepack_v1_full/app.py:203 | n = ceil(sqrt(k)) is the least n with k ≤ n² |
| Rounding.CeilSqrtFrom | wavepack_v1_full/app.py:203 | counting up from below the root, the first n with k ≤ n² is reached and is still least |
| Rounding.CeilDiv | wavepack_v1_full/app.py:204 | m = ceil(k/n) is the least m with k ≤ m·n |
| Rounding.Rectangle | wavepack_v1_full/app.py:202-205 | the rounded array has n, m ≥ 1 and (n − 1)² < k ≤ n², so n = ceil(sqrt k); k ≤ n·m < k + n, so m = ceil(k / n); m ≤ n, and m ≥ n − 1 once n ≥ 2 |
| Rounding.RectangleBounds | wavepack_v1_full/app.py:202-205 | the arithmetic behind those bounds, from the two ceiling characterisations |
| Rounding.CeilSqrtUnique | wavepack_v1_full/app.py:203 | the ceiling square root is the unique n with (n−1)² < k ≤ n² |
| Rounding.RectangleOfCap | wavepack_v1_full/app.py:187-205 | the exit count 2501 rounds to [51, 50], that is 2550 tubes |
| Rounding.RectangleBelowCap | wavepack_v1_full/app.py:203-205 | every count up to 2500 rounds to an array of at most 50 × 50, so at most 2500 tubes |
| Solver.WithDefaults | wavepack_v1_full/app.py:160-169 | every field present in the payload is taken as given; a missing b_in equals a_in |
| Solver.MissingFieldsDefault | wavepack_v1_full/app.py:160-169 | each missing field takes its literal default (2.0, a_in, 3.0, 0.125, 100, 100, "air", "stainless_304", 200, 1.0) |
| Solver.Prepare | wavepack_v1_full/app.py:172-179 | a successful setup holds the inputs unchanged and their SI conversions and the material's table row; its flow is the payload's own: Dh = 2ab/(a+b) of the sides, bore area a·b, relative roughness = roughness·0.3048/Dh, ρ and μ from the fluid routine at Tmax_F, the total cfm and the length in metres; Dh, area and μ are non-zero |
| Solver.PreparePositiveDuct | wavepack_v1_full/app.py:172-179 | positive sides, known keys and a non-zero viscosity always pass setup, with positive bore area, hydraulic diameter and relative roughness |
| Solver.PrepareErrors | wavepack_v1_full/app.py:172-190 | setup fails exactly on an unknown fluid or material, a zero side or side sum, or zero viscosity; an unknown fluid is reported first; with a known fluid, a zero side sum is DivisionByZero whatever the material, since the perimeter is divided before the material is looked up; a reported key is outside a table |
| Solver.Evaluate | wavepack_v1_full/app.py:188-193 | one pass of the loop body: velocity and ΔP in psi at k tubes; the velocity's fall with k is VelocityFallsWithCount |
| Solver.Meets | wavepack_v1_full/app.py:196 | the constraint check; the search's use of it is stated by FirstMeeting, FirstMeetingUnique and FirstMeetingCap |
| Solver.BestSample | wavepack_v1_full/app.py:184-198 | the best_v / best_dp the loop leaves: those of the stopping count (SolveRoundsFirstMeeting, with the velocity converted to ft/s), or 0 at the cap (SolveHardCap) |
| Solver.FirstMeetingFrom | wavepack_v1_full/app.py:187-200 | searching from k gives the first count in k..2500 that meets both limits, or 2501 when none does |
| Solver.FirstMeeting | wavepack_v1_full/app.py:182-200 | the search stops at a count in 1..2501; every smaller count fails the limits, and a stop at or below 2500 meets them |
| Solver.FirstMeetingUnique | wavepack_v1_full/app.py:187-200 | any count with those properties is the stopping count |
| Solver.FirstMeetingCap | wavepack_v1_full/app.py:187-200 | the search runs to 2501 exactly when no count up to 2500 meets the limits |
| Solver.VelocityFallsWithCount | wavepack_v1_full/app.py:188-196 | with positive flow and bore, more tubes give a strictly lower velocity, so the velocity limit, once met, stays met |
| Solver.FrequencyGrid | wavepack_v1_full/app.py:211 | the grid has 101 points, from 10^5 Hz to 10^10 Hz |
| Solver.FrequencyGridOrdered | wavepack_v1_full/app.py:211 | if 10^x grows with x, the grid is strictly increasing |
| Solver.Attenuations | wavepack_v1_full/app.py:212 | SE_db has one entry per frequency, each the attenuation at that frequency |
| Solver.Assemble | wavepack_v1_full/app.py:205-230 | the part after the rounding, for given array dimensions; characterised by AssembleShape, AssembleWeight and AssembleWeightNonNegative |
| Solver.SolveFrom | wavepack_v1_full/app.py:182-230 | the search and assembly for a prepared setup; characterised by SolveArrayShape, SolveAttenuationCurve, SolveRoundsFirstMeeting, SolveWithinLimits and SolveHardCap |
| Solver.Solve | wavepack_v1_full/app.py:154-230 | solve_tube_count as a function of the payload; characterised by UnknownKeysFail and SolveReportsGeometry, and equal to SolveTubeCount's result |
| Solver.SolveReportsGeometry | wavepack_v1_full/app.py:177-222 | the reported Dh_in is the hydraulic diameter of the payload's sides in inches, and fc_GHz the cutoff of the wider side in GHz |
| Solver.SolveTubeCount | wavepack_v1_full/app.py:154-230 | the loop returns exactly the specification result `Solve`, and the reported tube_count is the product of array_dims |
| Solver.UnknownKeysFail | wavepack_v1_full/app.py:166-179 | an unknown fluid key yields UnknownKey(fluid) whatever the rest of the payload is; an unknown material is always an error; the payload fails exactly when its setup does |
| Solver.SolveArrayShape | wavepack_v1_full/app.py:202-229 | tube_count = n·m with 1 ≤ m ≤ n and m ≥ n − 1; total weight = per-tube weight × tube_count; the colour is the material's; a_in, b_in, L_ft and t_in are echoed unchanged |
| Solver.AssembleShape | wavepack_v1_full/app.py:205-225 | for any array dimensions, array_dims is those dimensions, tube_count = n·m and the colour is the material's |
| Solver.AssembleWeight | wavepack_v1_full/app.py:207-208 | for any array dimensions, total weight = per-tube weight × rounded count |
| Solver.SolveAttenuationCurve | wavepack_v1_full/app.py:211-213 | freqs and SE_db both have 101 entries, freqs is the grid, and SE_db[k] is the attenuation at freqs[k] for the wider side |
| Solver.SolveWeightNonNegative | wavepack_v1_full/app.py:207-208 | the reported total weight is non-negative when L_ft ≥ 0 |
| Solver.AssembleWeightNonNegative | wavepack_v1_full/app.py:207-208 | the same, for any array dimensions |
| Solver.SolveAttenuationNonNegative | wavepack_v1_full/app.py:211-212 | no reported attenuation is negative when L_ft ≥ 0 |
| Solver.SolveRoundsFirstMeeting | wavepack_v1_full/app.py:182-219 | the array is the rectangle of the first count c that meets the limits, every smaller count fails them, and c ≤ tube_count < c + n; when c ≤ 2500, velocity_fts and deltaP_psi are c's own velocity in ft/s and pressure drop |
| Solver.SolveWithinLimits | wavepack_v1_full/app.py:187-219 | if some count up to 2500 meets the limits, the search stops at or before it, at most 2500 tubes are reported, and the reported velocity and ΔP are within the limits |
| Solver.SolveHardCap | wavepack_v1_full/app.py:184-219 | no count up to 2500 meets the limits exactly when 2550 tubes are reported; then array_dims is [51, 50] and the velocity and ΔP are 0 |

## Left out

- The Flask routes and the server launch (`index`, `calculate`, `app.run`): HTTP input and output only.
- The PDF report (`report`): calls into reportlab, an in-memory buffer and a wall-clock timestamp.
- The fluid property correlations (`air_props` … `glycol_props`): float powers and `exp`. They are the `Numerics.fluidProps` parameter. Any ZeroDivisionError, or the complex result of a negative base raised to a fractional power, that they could give is not modelled.
- The Haaland turbulent friction value (`log10` and `** -2`), `math.sqrt` and `10 **`: these are the `haaland`, `sqrt` and `pow10` parameters, taken as total functions, so no error raised inside them is modelled.
- The `haaland` parameter's errors in particular: a ZeroDivisionError when the logarithm is 0, and a TypeError when the relative roughness is negative. A negative roughness needs Dh < 0 (app.py:179), which needs a negative side (for example `a_in = -1, b_in = 2`; `a_in = -1, b_in = 0.5` still gives Dh > 0). In turbulent flow, `(rel_rough / 3.7) ** 1.11` is then complex and `math.log10` rejects it (app.py:119). For such a payload the code raises while the model returns a result. `Solver.PreparePositiveDuct` shows that positive sides always give a positive roughness, so this gap needs a negative side.
- IEEE double rounding. Every conversion round trip, clamp and bound is proved over exact reals and holds only approximately in doubles. `math.ceil(math.sqrt(k))` and `math.ceil(k / n)` are modelled as exact integer ceilings, which agree with the double computations for the counts that occur (1 to 2501).
- `float(...)` parsing of payload fields. A payload field is a number (a string for fluid and material) or missing. A string or other value that `float` would reject, or would parse, is not modelled.
- The `meets` flag: it is written but never returned.
- `rho_lbft3`: it is computed but never used.
- Physics.TubeWeightLbm: requires the material key to be in the table, where the code would raise KeyError. The solver always looks the material up first (its relative-roughness step), so an unknown key is reported there as `UnknownKey`.
- Solver.VelocityFallsWithCount: covers the velocity limit only. ΔP need not fall with the count in every friction regime, so the search is not claimed monotone.
