# RamWare well-test calculation core in Dafny

RamWare is a desktop application for oil-well production tests. An operator
enters the test parameters and a time series of half-hourly readings: the
cumulative separator meters, temperatures, separator pressure and the gas
orifice differential. The application turns them into oil, water and gas
rates, gas-oil ratios and their averages. This project models the
calculation core behind that screen:

- `calculator.dfy` (module `WellTestCalculator`) holds the static
  correlation functions of the `WellTestCalculator` class as pure functions.
  They cover oil API at 60 degF, the separator volume-correction factor
  (VCF), the shrinkage factor, and the GOR2 dispatch over the
  Vasquez-Beggs, Standing and Katz correlations. They also cover the two-
  and three-phase rate splits and the gas-lift metrics.
- `series.dfy` (module `TimeSeries`) gives `perform_calculations` as
  specification functions:
  - the entry record and the parameters;
  - the meter differencing step;
  - the per-entry result row;
  - `Calculate`, the whole pass over the time series.

  It also proves the telescoping of the meter deltas and the shape of the
  result rows.
- `averages.dfy` (module `Averaging`) gives the per-field mean of
  `calculate_averages` as a function, with its bounds.
- `app.dfy` (module `RamWareApp`) holds the project the two application
  methods act on, as a class. Its fields are the parameters, the time
  series, the results and the averages.
  - `PerformCalculations` and `CalculateAverages` update those fields with
    loops.
  - Both methods are proved against the functions above.
  - The loop body is split into methods for the meter differencing
    (`DifferenceMeters`), the correlation chain (`FillResult`) and the
    key-by-key filling of the result dictionary (`FillRow`).
- `numerics.dfy` (module `Numerics`) holds `Option`, `Max`, `Sum` and the
  primitives record described next.

Numbers are Dafny `real`, so exact arithmetic replaces IEEE doubles.

Some library calls are treated as uninterpreted:
- `math.exp`;
- fractional powers `x ** y`, including `10 ** x`;
- the orifice gas-flow equation (`calculate_gas_flow` with
  `calculate_fpv`).

These are the fields of a `Primitives` value that every calculation takes
as a parameter. `exp` and `pow` answer `None` where Python raises
(OverflowError, ZeroDivisionError). The surrounding `try/except` then yields
its default, as in the source. The only facts assumed about them are
collected in `Sound`:
- `exp(0) = 1`;
- `exp` is positive;
- `exp` is at most 1 for a non-positive argument;
- a power of a non-negative base is non-negative.

Lemmas that need these facts take `Sound(p)` as a hypothesis.

The model keeps the source's behaviour where it is surprising:
- `calculate_oil_api_60f` is called with the test temperature as the API
  and the API as the temperature (ramware_app.py:1563-1565).
- `calculate_gor2` converts pressure and temperature more than once:
  - The 'API', 'STANDINGS' and 'KATZ' paths see the pressure with 14.7 psi
    added twice.
  - Vasquez-Beggs sees the temperature converted to degF twice, and the
    explicit 'VASQUEZ_BEGGS' branch adds one more conversion of each.
- The separator temperature is the entry's "Oil T (°C)" cell.
- The gas temperature goes to the gas equation in degC.
- The separation mode is three-phase only for the exact string
  "THREE PHASES".
- The gas-lift fields appear only for exactly "GAS LIFT".
- Cells missing from an entry read as 0, except "Time" and
  "GAS DP (inH₂O)", whose absence raises KeyError.

At API 40 the automatic ('API') method and the explicit 'VASQUEZ_BEGGS'
method both use the Vasquez-Beggs correlation with its default
coefficients, but not at the same conditions. 'API' evaluates it at
separator pressure + 29.4 psi with the temperature converted to degF twice.
'VASQUEZ_BEGGS' evaluates it at + 44.1 psi with three conversions
(ramware_app.py:105-106, 118-119, 142-143). `Gor2ApiMethod` and
`Gor2ExplicitVasquezBeggs` state the arguments each path passes, and
`Gor2ApiDiffersFromExplicitVasquezBeggs` exhibits primitives under which
the two results differ. The two labels "VASQUEZ BEGGS" and "STANDING'S"
offered by the parameters form are not among the method names
`calculate_gor2` tests for, so they give 0.0 (`Gor2FormLabels`).

## Model

| member | source | states |
|---|---|---|
| WellTestCalculator.CelsiusToFahrenheit | ramware_app.py:54 | t·9/5+32 is at most 60 degF exactly when 9·t ≤ 140, the threshold the API correction tests |
| WellTestCalculator.OilApi60F | ramware_app.py:51-62 | at or below 60 degF the API comes back unchanged; above it the corrected API is lower than the input exactly when API > 10 and higher exactly when API < 10 |
| WellTestCalculator.ApiCorrection | ramware_app.py:60 | for a positive temperature excess the correction 0.00035·dt·(api−10) is positive exactly when api > 10 and negative exactly when api < 10 |
| WellTestCalculator.VcfExponent | ramware_app.py:68-72 | the exponent −(α·Δt+β·Δt²) with Δt the excess over 60 degF and α = 0.00034878 − 0.00000091·API; it is 0 at exactly 60 degF |
| WellTestCalculator.VcfSep | ramware_app.py:65-74 | with sound primitives the VCF is positive; 1.0 when exp raises |
| WellTestCalculator.VcfAtReference | ramware_app.py:67-72 | at a separator temperature of exactly 60 degF the VCF is 1 |
| WellTestCalculator.VcfExponentNonPositive | ramware_app.py:68-72 | at or above 60 degF, for API ≤ 383, the exponent −(α·Δt+β·Δt²) is not positive |
| WellTestCalculator.VcfSepAtMostOne | ramware_app.py:65-74 | at or above 60 degF, for API ≤ 383 and with sound primitives (exp is at most 1 for a non-positive argument), the VCF lies in (0, 1]: the liquid is never expanded |
| WellTestCalculator.ApiTierCoefficient | ramware_app.py:82-87 | the base coefficient lies in [2.5e-7, 3.5e-7]; it is 2.5e-7 exactly when API > 35 and 3.5e-7 exactly when API < 25 (3e-7 in between) |
| WellTestCalculator.ShrinkageCoefficient | ramware_app.py:80-95 | both low GOR2 (< 100) and low pressure (< 50 psig) give 5e-8; low GOR2 alone 1e-7; low pressure alone 2e-7; otherwise the API tier 2.5e-7 / 3e-7 / 3.5e-7 for > 35, 25..35, < 25; always within [5e-8, 3.5e-7] |
| WellTestCalculator.ShrinkageFactor | ramware_app.py:77-99 | the factor is 1 when GOR2 or pressure is 0, and for non-negative inputs lies in [1 − 3.5e-7·gor2·sepP, 1] |
| WellTestCalculator.ShrinkagePrecedenceExample | ramware_app.py:82-97 | API 40, GOR2 50, 30 psig uses 5e-8 and gives 1 − 5e-8·50·30 |
| WellTestCalculator.CalculateGor2 | ramware_app.py:102-136 | a method name other than API, VASQUEZ_BEGGS, STANDINGS, KATZ gives 0.0; with sound primitives, non-negative gas gravity and non-negative power bases GOR2 is never negative |
| WellTestCalculator.CorrelationsNonNegative | ramware_app.py:139-166 | with sound primitives, non-negative gravity and absolute pressure, the Vasquez-Beggs (any c1 ≥ 0), Standing and Katz formulas (lines 144, 154, 164) are non-negative |
| WellTestCalculator.VasquezBeggs | ramware_app.py:139-146 | `_vasquez_beggs`: adds 14.7 psi and converts the temperature to degF once more, then evaluates sg·c1·p^c2·exp(c3·api/(T+460)), 0.0 on a fault; non-negative with sound primitives, non-negative gravity and c1, and a non-negative absolute pressure |
| WellTestCalculator.Standings | ramware_app.py:149-156 | `_standings`: adds 14.7 psi, keeps the temperature as given, evaluates sg·((p·10^e)/18.2)^1.204, 0.0 on a fault; non-negative under the same conditions |
| WellTestCalculator.Katz | ramware_app.py:159-166 | `_katz`: adds 14.7 psi, keeps the temperature as given, evaluates 0.224·sg·p^1.182·10^e, 0.0 on a fault; non-negative under the same conditions |
| WellTestCalculator.Gor2ApiMethod | ramware_app.py:105-114 | 'API' uses Vasquez-Beggs above API 35, Standing at 25..35 and Katz below 25, each at separator pressure + 29.4 psi; Vasquez-Beggs sees the temperature converted twice, Standing and Katz once |
| WellTestCalculator.Gor2ExplicitVasquezBeggs | ramware_app.py:116-125 | 'VASQUEZ_BEGGS' evaluates Vasquez-Beggs at pressure + 44.1 psi with the temperature converted three times, using the heavy-oil coefficients (0.0362, 1.0937, 25.724) at API ≤ 30 and the default ones above |
| WellTestCalculator.Gor2ApiDiffersFromExplicitVasquezBeggs | ramware_app.py:102-146 | with exp ≡ 1 and every power returning its base, API 40, 100 psig and 20 degC give 0.65·0.0178·129.4 under 'API' and 0.65·0.0178·144.1 under 'VASQUEZ_BEGGS', so the two methods disagree |
| WellTestCalculator.Gor2NamedMethods | ramware_app.py:127-131 | 'STANDINGS' and 'KATZ' apply their correlation at any API, and agree with 'API' on the API tiers where 'API' picks them |
| WellTestCalculator.Gor2FormLabels | ramware_app.py:133-134 | the form labels 'VASQUEZ BEGGS' and "STANDING'S" fall through to 0.0 |
| WellTestCalculator.ThreePhaseFlow | ramware_app.py:232-239 | zero oil and water volumes give zero rates; with meter factor 1 and sf·vcf = 1 the two rates add up to the whole metered volume per day; with no water in oil the water rate is vs_water·mf·48 |
| WellTestCalculator.TwoPhaseFlow | ramware_app.py:242-249 | zero liquid volume gives zero rates; with sf·vcf = 1 oil and water add up to vs·mf·48; BSW 0 gives no water and BSW 100 % no oil |
| WellTestCalculator.CalculateForGasLift | ramware_app.py:252-260 | formation gas is max(q_gas − q_inj, 0): never negative, never below q_gas − q_inj, and one of the two; its GOR is 0 when q_oil ≤ 0 and formation·1000/q_oil otherwise; total formation GOR exceeds it by GOR2 |
| WellTestCalculator.GasLiftExample | ramware_app.py:255-257 | 500 MSCF/d produced against 800 injected leaves no formation gas, so the total formation GOR is GOR2 |
| Numerics.Max | ramware_app.py:255 | max(a, b) is at least both arguments and equals one of them |
| Numerics.Sum | ramware_app.py:1642 | Python's `sum`, added left to right: 0 for no values and the value itself for one; its bounds are `Averaging.SumBounds` |
| TimeSeries.LabelsDistinct | ramware_app.py:1594-1625 | the result keys of distinct fields differ and none is "Time" |
| TimeSeries.Step | ramware_app.py:1545-1558 | the mode is three-phase exactly for "THREE PHASES"; the active meters' delta plus the carried reading is the current reading, which becomes the carried one; the interval's water fraction is "WIO (%)"/100 (three-phase) or "BSW (%)"/100 (two-phase); the other mode's carried readings are untouched |
| TimeSeries.Carried | ramware_app.py:1537-1558 | the `prev_meter_*` readings after a prefix of the series; the meters of the inactive mode stay 0 |
| TimeSeries.Intervals | ramware_app.py:1542-1558 | one interval per entry |
| TimeSeries.DeltasSumToCarried | ramware_app.py:1537-1558 | the interval volumes telescope: their running total, meter by meter, is the carried reading |
| TimeSeries.CarriedIsLastReading | ramware_app.py:1537-1558 | the carried readings start at 0, are the last entry's readings of the active meters, and the inactive mode's meters stay 0 |
| TimeSeries.DeltasSumToLastReading | ramware_app.py:1537-1558 | the deltas of the first k entries sum to the k-th cumulative reading of each active meter |
| TimeSeries.GuardedGor1 | ramware_app.py:1610 | GOR1 is 0 when the oil rate is not positive, and otherwise GOR1·Q Oil = Q Gas·1000 |
| TimeSeries.PhaseRates | ramware_app.py:1582-1592 | an interval with no volume gives zero oil and water rates in either mode |
| TimeSeries.EntryValues | ramware_app.py:1560-1625 | the row of an entry carries exactly the fields its production type calls for |
| TimeSeries.ResultRow | ramware_app.py:1594-1625 | the row holds Q Oil, Q Water, Total Q = Q Oil + Q Water, Q Gas, guarded GOR1, GOR2 and Total GOR = GOR1 + GOR2; for gas lift also Q Gas Inj and the formation-gas fields with their bounds; the gas-lift keys are present exactly when gas lift is on |
| TimeSeries.EntryResult | ramware_app.py:1542-1627 | an entry yields a row exactly when it has "Time" and "GAS DP (inH₂O)"; the row copies the time and has the production type's keys |
| TimeSeries.Calculate | ramware_app.py:1530-1627 | the whole pass as a function: the rows in entry order, or None where an entry raises KeyError; a successful pass has one row per entry |
| TimeSeries.LastRow | ramware_app.py:1541-1627 | a pass that succeeds on all but the last entry, whose cells are present, ends with that entry's row on its own interval |
| TimeSeries.CalculateSucceeds | ramware_app.py:1541-1627 | the pass over the time series succeeds exactly when every entry has both directly-read cells |
| TimeSeries.CompleteEntriesSucceed | ramware_app.py:1541-1627 | with both cells in every entry the pass succeeds |
| TimeSeries.MissingCellFails | ramware_app.py:1543 | one entry lacking either cell makes the whole pass fail |
| TimeSeries.CalculateRows | ramware_app.py:1541-1627 | a successful pass yields one row per entry, in input order, row i being entry i's result on entry i's interval volumes |
| TimeSeries.ResultRowsUniform | ramware_app.py:1541-1627 | every row of a successful pass has the same keys and copies its entry's time |
| Averaging.CalculatedFieldsComplete | ramware_app.py:1639-1641 | every row of a successful pass has every field of the first row, so averaging raises no KeyError |
| Averaging.Column | ramware_app.py:1641 | the column has one value per row, row i's value of the key |
| Averaging.Mean | ramware_app.py:1642 | `sum(values) / len(values)`: the mean times the count is the sum |
| Averaging.Averages | ramware_app.py:1632-1644 | the averages have exactly the first row's numeric keys |
| Averaging.SumBounds | ramware_app.py:1642 | a sum of n values in [lo, hi] lies in [n·lo, n·hi] |
| Averaging.MeanBounds | ramware_app.py:1642 | a mean lies within any bounds of its values |
| Averaging.AveragesWithinRange | ramware_app.py:1638-1642 | each average lies within the range of its field over all rows |
| Averaging.AverageExample | ramware_app.py:1638-1642 | Q Oil values 100 and 200 average to 150 |
| RamWareApp.Project.PerformCalculations | ramware_app.py:1530-1630 | succeeds exactly when every entry has "Time" and "GAS DP (inH₂O)"; then the stored results are `Calculate` of the parameters and time series and the averages are refreshed (left alone for no rows); on failure results and averages are unchanged; parameters and series are never changed |
| RamWareApp.Project.CollectResults | ramware_app.py:1536-1627 | the loop over the entries, carrying the previous readings, succeeds exactly when every entry has both cells, and then collects `Calculate`'s rows |
| RamWareApp.Project.DifferenceMeters | ramware_app.py:1545-1558 | one differencing step computes `Step`'s interval and carried readings |
| RamWareApp.Project.FillResult | ramware_app.py:1560-1625 | the correlation chain of one entry gives `EntryValues`' row |
| RamWareApp.Project.FillRow | ramware_app.py:1594-1625 | filling the result dictionary key by key gives `ResultRow`'s row |
| RamWareApp.Project.CalculateAverages | ramware_app.py:1632-1644 | succeeds exactly when every row has the first row's fields; no rows or a failure leave the averages unchanged, otherwise they become `Averages` of the results |

## Left out

- `calculate_gas_flow` and `calculate_fpv` (ramware_app.py:169-229) are not modelled beyond being a function of their eight arguments (`Primitives.gasFlow`). Their internals are floating-point numerics (square roots, fractional powers, the Papay Z-factor). Their own try/except fall-backs are part of that opaque function.
- `math.exp` and fractional powers are uninterpreted, as described above. Only exp(0) = 1, positivity of exp, exp ≤ 1 on non-positive arguments and non-negativity of powers of non-negative bases are assumed. So no numeric value of VCF, GOR2 or the gas rate is computed.
- WellTestCalculator.CalculateGor2: non-negativity is stated only when every fractional-power base is non-negative (separator pressure + 29.4 psi ≥ 0). For a negative base Python produces a complex number rather than an exception, and the model leaves that value to the `pow` primitive.
- IEEE double rounding, overflow to infinity and NaN are not modelled; arithmetic is exact over `real`.
- Only the numeric cells of an entry are modelled (a map from column header to number). A cell holding a non-number, and so a TypeError in the arithmetic, is not modelled.
- A KeyError on "Time" or "GAS DP (inH₂O)" is modelled as `ok = false` with the project unchanged. The exception itself, and which entry raised it, are not modelled. One order differs from the source: `CollectResults` tests for the gas differential before it fills the row, while the source reads it half-way through. The difference is not observable, because a failed pass discards its partial results.
- The result dictionary's "Time" key is kept beside the numeric fields (`CalcResult.time`) rather than inside the map. The insertion order of dictionary keys is not modelled; the averaging loop picks keys in an arbitrary order, which does not change the result.
- The database (`DatabaseManager`), the Qt user interface, Excel import, PDF reports and plotting are not part of this model. This includes the cell validation of the data-entry page and the module-level `setup_ui` definitions.
