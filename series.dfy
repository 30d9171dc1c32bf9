/**
 * The time-series pipeline of `perform_calculations`, as specification
 * functions: the cumulative meter readings are differenced entry by entry
 * (the carried previous readings start at 0), each entry's interval volumes
 * go through the correlation chain, and one result is produced per entry.
 *
 * The imperative loop that computes the same thing lives in RamWareApp and
 * is proved equal to `Calculate` below.
 */
module TimeSeries {
  import opened Numerics
  import opened WellTestCalculator

  // Keys of a time-series entry (a row of the data-entry table).
  const MeterOilKey := "Meter Oil (BBL)"
  const MeterWaterKey := "Meter Water (BBL)"
  const WioKey := "WIO (%)"
  const MeterLiquidKey := "Meter Liquid (BBL)"
  const BswKey := "BSW (%)"
  const OilTempKey := "Oil T (°C)"
  const SepPKey := "SEP P (PSIG)"
  const GasTempKey := "GAS T (°C)"
  const GasDpKey := "GAS DP (inH₂O)"
  const GasInjKey := "Q Gas Inj (MSCF/D)"

  /** The numeric fields of a result row; `Label` gives each one's key in
      the source's result dictionary ("Time" is kept apart, in CalcResult). */
  datatype Field =
    | QOil | QWater | TotalQ | QGas | Gor1 | Gor2 | TotalGor
    | QGasInj | FormationGas | Gor1Formation | TotalGorFormation

  function Label(f: Field): string
  {
    match f
    case QOil => "Q Oil"
    case QWater => "Q Water"
    case TotalQ => "Total Q"
    case QGas => "Q Gas"
    case Gor1 => "GOR1"
    case Gor2 => "GOR2"
    case TotalGor => "Total GOR"
    case QGasInj => "Q Gas Inj"
    case FormationGas => "Formation Gas"
    case Gor1Formation => "GOR1 Formation"
    case TotalGorFormation => "Total GOR Formation"
  }

  /** Distinct fields have distinct dictionary keys, and none of them is
      "Time", the one key `calculate_averages` skips. */
  lemma LabelsDistinct(f: Field, g: Field)
    ensures Label(f) == Label(g) ==> f == g
    ensures Label(f) != "Time"
  {
  }

  /** The project parameters the calculation reads. The three selectors stay
      strings because the source compares them with string literals. */
  datatype TestParameters = TestParameters(
    oilApi: real, oilTemp: real, meterFactor: real, sgGas: real,
    orificeDiameter: real, lineBore: real, h2s: real, co2: real,
    separationType: string, productionType: string, gor2Method: string)

  /** One row of the time series: its "Time" label, if the row has one, and
      its numeric cells by column header. */
  datatype TimeSeriesEntry = TimeSeriesEntry(time: Option<string>, cells: map<string, real>)

  /** One result row: the copied "Time" value and the numeric fields. */
  datatype CalcResult = CalcResult(time: string, values: map<Field, real>)

  /** `entry.get(key, 0)`. */
  function Get(e: TimeSeriesEntry, key: string): real
  {
    if key in e.cells then e.cells[key] else 0.0
  }

  /** Separation is three-phase only for this exact label. */
  predicate IsThreePhase(params: TestParameters)
  {
    params.separationType == "THREE PHASES"
  }

  predicate IsGasLift(params: TestParameters)
  {
    params.productionType == "GAS LIFT"
  }

  /** The previous cumulative readings carried from entry to entry. */
  datatype Meters = Meters(oil: real, water: real, liquid: real)

  const NoReadings := Meters(0.0, 0.0, 0.0)

  /** The interval volumes (and water fractions) of one entry. */
  datatype Interval =
    | ThreePhaseInterval(vsOil: real, vsWater: real, wio: real)
    | TwoPhaseInterval(vsLiquid: real, bsw: real)

  datatype Differenced = Differenced(interval: Interval, carried: Meters)

  /** One differencing step: the interval volume is the current reading less
      the carried one, and the current reading becomes the carried one. Only
      the meters of the active separation mode are read and carried. */
  function Step(params: TestParameters, prev: Meters, e: TimeSeriesEntry): (d: Differenced)
    ensures IsThreePhase(params) <==> d.interval.ThreePhaseInterval?
    ensures IsThreePhase(params) ==>
      && d.interval.vsOil + prev.oil == Get(e, MeterOilKey) == d.carried.oil
      && d.interval.vsWater + prev.water == Get(e, MeterWaterKey) == d.carried.water
      && d.carried.liquid == prev.liquid
      && d.interval.wio == Get(e, WioKey) / 100.0
    ensures !IsThreePhase(params) ==>
      && d.interval.vsLiquid + prev.liquid == Get(e, MeterLiquidKey) == d.carried.liquid
      && d.carried.oil == prev.oil && d.carried.water == prev.water
      && d.interval.bsw == Get(e, BswKey) / 100.0
  {
    if IsThreePhase(params) then
      var meterOil := Get(e, MeterOilKey);
      var meterWater := Get(e, MeterWaterKey);
      Differenced(ThreePhaseInterval(meterOil - prev.oil, meterWater - prev.water, Get(e, WioKey) / 100.0),
                  prev.(oil := meterOil, water := meterWater))
    else
      var meterLiquid := Get(e, MeterLiquidKey);
      Differenced(TwoPhaseInterval(meterLiquid - prev.liquid, Get(e, BswKey) / 100.0),
                  prev.(liquid := meterLiquid))
  }

  /** The carried readings after the given entries have been processed. */
  function Carried(params: TestParameters, entries: seq<TimeSeriesEntry>): (c: Meters)
    ensures IsThreePhase(params) ==> c.liquid == 0.0
    ensures !IsThreePhase(params) ==> c.oil == 0.0 && c.water == 0.0
  {
    if |entries| == 0 then NoReadings
    else
      var n := |entries| - 1;
      Step(params, Carried(params, entries[..n]), entries[n]).carried
  }

  /** The interval of each entry, in order. */
  function Intervals(params: TestParameters, entries: seq<TimeSeriesEntry>): (ivs: seq<Interval>)
    ensures |ivs| == |entries|
  {
    if |entries| == 0 then []
    else
      var n := |entries| - 1;
      Intervals(params, entries[..n]) + [Step(params, Carried(params, entries[..n]), entries[n]).interval]
  }

  function OilDelta(iv: Interval): real { if iv.ThreePhaseInterval? then iv.vsOil else 0.0 }
  function WaterDelta(iv: Interval): real { if iv.ThreePhaseInterval? then iv.vsWater else 0.0 }
  function LiquidDelta(iv: Interval): real { if iv.TwoPhaseInterval? then iv.vsLiquid else 0.0 }

  /** The interval volumes added up, meter by meter. */
  function TotalDeltas(ivs: seq<Interval>): Meters
  {
    if ivs == [] then NoReadings
    else
      var t := TotalDeltas(ivs[..|ivs| - 1]);
      var iv := ivs[|ivs| - 1];
      Meters(t.oil + OilDelta(iv), t.water + WaterDelta(iv), t.liquid + LiquidDelta(iv))
  }

  /** The intervals of a prefix are the prefix of the intervals. */
  lemma {:induction false} IntervalsPrefix(params: TestParameters, entries: seq<TimeSeriesEntry>, k: nat)
    requires k <= |entries|
    ensures Intervals(params, entries[..k]) == Intervals(params, entries)[..k]
    decreases |entries|
  {
    if k < |entries| {
      var n := |entries| - 1;
      assert entries[..n][..k] == entries[..k];
      IntervalsPrefix(params, entries[..n], k);
    } else {
      assert entries[..k] == entries;
    }
  }

  /** The interval volumes telescope: their running total is always the
      carried reading. */
  lemma {:induction false} DeltasSumToCarried(params: TestParameters, entries: seq<TimeSeriesEntry>)
    ensures TotalDeltas(Intervals(params, entries)) == Carried(params, entries)
  {
    if |entries| > 0 {
      var n := |entries| - 1;
      DeltasSumToCarried(params, entries[..n]);
      var ivs := Intervals(params, entries);
      assert ivs[..|ivs| - 1] == Intervals(params, entries[..n]);
    }
  }

  /** The carried readings are the last entry's readings for the meters of
      the active mode (0 before any entry), and the other mode's meters are
      never touched: they stay 0. */
  lemma {:induction false} CarriedIsLastReading(params: TestParameters, entries: seq<TimeSeriesEntry>)
    ensures |entries| == 0 ==> Carried(params, entries) == NoReadings
    ensures |entries| > 0 && IsThreePhase(params) ==>
      var last := entries[|entries| - 1];
      Carried(params, entries) == Meters(Get(last, MeterOilKey), Get(last, MeterWaterKey), 0.0)
    ensures |entries| > 0 && !IsThreePhase(params) ==>
      Carried(params, entries) == Meters(0.0, 0.0, Get(entries[|entries| - 1], MeterLiquidKey))
  {
    if |entries| > 0 {
      CarriedIsLastReading(params, entries[..|entries| - 1]);
    }
  }

  /** The deltas of the first k entries add up to the k-th cumulative
      reading of each meter the mode uses. */
  lemma DeltasSumToLastReading(params: TestParameters, entries: seq<TimeSeriesEntry>, k: nat)
    requires 0 < k <= |entries|
    ensures IsThreePhase(params) ==>
      && TotalDeltas(Intervals(params, entries)[..k]).oil == Get(entries[k - 1], MeterOilKey)
      && TotalDeltas(Intervals(params, entries)[..k]).water == Get(entries[k - 1], MeterWaterKey)
    ensures !IsThreePhase(params) ==>
      TotalDeltas(Intervals(params, entries)[..k]).liquid == Get(entries[k - 1], MeterLiquidKey)
  {
    IntervalsPrefix(params, entries, k);
    DeltasSumToCarried(params, entries[..k]);
    CarriedIsLastReading(params, entries[..k]);
  }

  /** GOR1 with its guard against a non-positive oil rate. */
  function GuardedGor1(qGas: real, qOil: real): (g: real)
    ensures qOil <= 0.0 ==> g == 0.0
    ensures qOil > 0.0 ==> g * qOil == qGas * 1000.0
  {
    if qOil > 0.0 then qGas * 1000.0 / qOil else 0.0
  }

  /** The keys every result row has, and the ones only gas lift adds. */
  function ResultKeys(params: TestParameters): set<Field>
  {
    {QOil, QWater, TotalQ, QGas, Gor1, Gor2, TotalGor}
    + if IsGasLift(params) then {QGasInj, FormationGas, Gor1Formation, TotalGorFormation}
      else {}
  }

  /** The oil and water rates of one interval. */
  function PhaseRates(iv: Interval, meterFactor: real, sf: real, vcfSep: real): (q: Rates)
    ensures iv.ThreePhaseInterval? && iv.vsOil == 0.0 && iv.vsWater == 0.0 ==> q == Rates(0.0, 0.0)
    ensures iv.TwoPhaseInterval? && iv.vsLiquid == 0.0 ==> q == Rates(0.0, 0.0)
  {
    match iv
    case ThreePhaseInterval(vsOil, vsWater, wio) => ThreePhaseFlow(vsOil, vsWater, wio, meterFactor, sf, vcfSep)
    case TwoPhaseInterval(vsLiquid, bsw) => TwoPhaseFlow(vsLiquid, bsw, meterFactor, sf, vcfSep)
  }

  /** The result row of one entry, or None where the source raises KeyError
      (no "Time" or no "GAS DP (inH₂O)" cell). */
  function EntryResult(p: Primitives, params: TestParameters, e: TimeSeriesEntry, iv: Interval)
    : (r: Option<CalcResult>)
    ensures r.Some? <==> e.time.Some? && GasDpKey in e.cells
    ensures r.Some? ==> r.value.time == e.time.value && r.value.values.Keys == ResultKeys(params)
  {
    if e.time.None? || GasDpKey !in e.cells then None
    else Some(CalcResult(e.time.value, EntryValues(p, params, e, iv)))
  }

  /** The correlation chain of one entry. The separator temperature is the
      entry's oil temperature, the test-level API correction is called with
      its two arguments swapped, and the gas temperature reaches the gas
      equation in degC, all as in the source. */
  function EntryValues(p: Primitives, params: TestParameters, e: TimeSeriesEntry, iv: Interval)
    : (v: map<Field, real>)
    requires GasDpKey in e.cells
    ensures v.Keys == ResultKeys(params)
  {
    var sepTemp := Get(e, OilTempKey);
    var oilApi60F := OilApi60F(params.oilTemp, params.oilApi);
    var vcfSep := VcfSep(p, sepTemp, oilApi60F);
    var sepP := Get(e, SepPKey);
    var gor2 := CalculateGor2(p, oilApi60F, params.sgGas, sepP, sepTemp, params.gor2Method);
    var sf := ShrinkageFactor(gor2, sepP, oilApi60F);
    var q := PhaseRates(iv, params.meterFactor, sf, vcfSep);
    var qGas := p.gasFlow(e.cells[GasDpKey], sepP, Get(e, GasTempKey), params.sgGas,
                          params.orificeDiameter, params.lineBore, params.h2s, params.co2);
    ResultRow(q, qGas, gor2, IsGasLift(params), Get(e, GasInjKey))
  }

  /** The numeric fields of one result row, filled in the source's order:
      the rates, the GORs, and for gas lift the formation-gas metrics. */
  function ResultRow(q: Rates, qGas: real, gor2: real, gasLift: bool, qGasInj: real)
    : (v: map<Field, real>)
    ensures v.Keys == {QOil, QWater, TotalQ, QGas, Gor1, Gor2, TotalGor}
      + if gasLift then {QGasInj, FormationGas, Gor1Formation, TotalGorFormation} else {}
    ensures v[QOil] == q.qOil && v[QWater] == q.qWater && v[QGas] == qGas && v[Gor2] == gor2
    ensures v[TotalQ] == v[QOil] + v[QWater]
    ensures v[QOil] <= 0.0 ==> v[Gor1] == 0.0
    ensures v[QOil] > 0.0 ==> v[Gor1] * v[QOil] == v[QGas] * 1000.0
    ensures v[TotalGor] == v[Gor1] + v[Gor2]
    ensures gasLift ==>
      && v[QGasInj] == qGasInj
      && v[FormationGas] >= 0.0
      && v[FormationGas] >= v[QGas] - v[QGasInj]
      && (v[FormationGas] == 0.0 || v[FormationGas] == v[QGas] - v[QGasInj])
      && (v[QOil] <= 0.0 ==> v[Gor1Formation] == 0.0)
      && (v[QOil] > 0.0 ==> v[Gor1Formation] * v[QOil] == v[FormationGas] * 1000.0)
      && v[TotalGorFormation] == v[Gor1Formation] + v[Gor2]
  {
    var gor1 := GuardedGor1(qGas, q.qOil);
    var values := map[QOil := q.qOil, QWater := q.qWater, TotalQ := q.qOil + q.qWater,
                      QGas := qGas, Gor1 := gor1, Gor2 := gor2, TotalGor := gor1 + gor2];
    if gasLift then
      var m := CalculateForGasLift(qGas, qGasInj, q.qOil, gor2);
      values[QGasInj := qGasInj][FormationGas := m.formationGas]
            [Gor1Formation := m.gor1Formation][TotalGorFormation := m.totalGorFormation]
    else
      values
  }

  /** `perform_calculations` as a function: the result rows in entry order,
      or None when some entry makes the source raise KeyError. */
  function Calculate(p: Primitives, params: TestParameters, entries: seq<TimeSeriesEntry>)
    : (r: Option<seq<CalcResult>>)
    ensures r.Some? ==> |r.value| == |entries|
  {
    if |entries| == 0 then Some([])
    else
      var n := |entries| - 1;
      match Calculate(p, params, entries[..n])
      case None => None
      case Some(rs) =>
        match EntryResult(p, params, entries[n], Step(params, Carried(params, entries[..n]), entries[n]).interval)
        case None => None
        case Some(r) => Some(rs + [r])
  }

  /** The cells `perform_calculations` reads with `entry[...]` rather than
      `entry.get`: without them the source raises KeyError. */
  predicate HasRequiredCells(e: TimeSeriesEntry)
  {
    e.time.Some? && GasDpKey in e.cells
  }

  /** Calculation succeeds exactly when every entry has its "Time" and gas
      differential cells. */
  lemma {:induction false} CalculateSucceeds(p: Primitives, params: TestParameters, entries: seq<TimeSeriesEntry>)
    ensures Calculate(p, params, entries).Some? <==>
      forall i :: 0 <= i < |entries| ==> HasRequiredCells(entries[i])
  {
    if forall i :: 0 <= i < |entries| ==> HasRequiredCells(entries[i]) {
      CompleteEntriesSucceed(p, params, entries);
    } else {
      var k :| 0 <= k < |entries| && !HasRequiredCells(entries[k]);
      MissingCellFails(p, params, entries, k);
    }
  }

  lemma {:induction false} CompleteEntriesSucceed(p: Primitives, params: TestParameters, entries: seq<TimeSeriesEntry>)
    requires forall i :: 0 <= i < |entries| ==> HasRequiredCells(entries[i])
    ensures Calculate(p, params, entries).Some?
  {
    if |entries| > 0 {
      var n := |entries| - 1;
      var prefix := entries[..n];
      assert forall i :: 0 <= i < n ==> prefix[i] == entries[i];
      CompleteEntriesSucceed(p, params, prefix);
    }
  }

  lemma {:induction false} MissingCellFails(p: Primitives, params: TestParameters,
                                            entries: seq<TimeSeriesEntry>, k: nat)
    requires k < |entries| && !HasRequiredCells(entries[k])
    ensures Calculate(p, params, entries).None?
  {
    var n := |entries| - 1;
    var prefix := entries[..n];
    if k < n {
      assert prefix[k] == entries[k];
      MissingCellFails(p, params, prefix, k);
      assert Calculate(p, params, prefix).None?;
    } else {
      var iv := Step(params, Carried(params, prefix), entries[n]).interval;
      assert EntryResult(p, params, entries[n], iv).None?;
    }
  }

  /** When calculation succeeds it yields exactly one row per entry, in
      input order: row i is entry i's result on entry i's interval volumes. */
  lemma {:induction false} CalculateRows(p: Primitives, params: TestParameters, entries: seq<TimeSeriesEntry>)
    requires forall i :: 0 <= i < |entries| ==> HasRequiredCells(entries[i])
    ensures Calculate(p, params, entries).Some?
    ensures var rs := Calculate(p, params, entries).value;
      var ivs := Intervals(params, entries);
      && |rs| == |entries|
      && forall i :: 0 <= i < |rs| ==> Some(rs[i]) == EntryResult(p, params, entries[i], ivs[i])
  {
    if |entries| > 0 {
      var n := |entries| - 1;
      var prefix := entries[..n];
      assert forall i :: 0 <= i < n ==> prefix[i] == entries[i];
      CalculateRows(p, params, prefix);
      var before := Calculate(p, params, prefix);
      var iv := Step(params, Carried(params, prefix), entries[n]).interval;
      var er := EntryResult(p, params, entries[n], iv);
      LastRow(p, params, entries);
      var rs := Calculate(p, params, entries).value;
      var ivs := Intervals(params, entries);
      forall i | 0 <= i < |rs|
        ensures Some(rs[i]) == EntryResult(p, params, entries[i], ivs[i])
      {
        if i < n {
          assert rs[i] == before.value[i];
          assert ivs[i] == Intervals(params, prefix)[i];
          assert entries[i] == prefix[i];
        }
      }
    }
  }

  /** A successful pass ends with the last entry's row on its own interval. */
  lemma LastRow(p: Primitives, params: TestParameters, entries: seq<TimeSeriesEntry>)
    requires |entries| > 0 && Calculate(p, params, entries[..|entries| - 1]).Some?
    requires HasRequiredCells(entries[|entries| - 1])
    ensures var n := |entries| - 1;
      var iv := Step(params, Carried(params, entries[..n]), entries[n]).interval;
      && EntryResult(p, params, entries[n], iv).Some?
      && Intervals(params, entries) == Intervals(params, entries[..n]) + [iv]
      && Calculate(p, params, entries)
         == Some(Calculate(p, params, entries[..n]).value + [EntryResult(p, params, entries[n], iv).value])
  {
  }

  /** Every row carries the same keys, fixed by the production type, and the
      row times are the entry times in order. */
  lemma ResultRowsUniform(p: Primitives, params: TestParameters, entries: seq<TimeSeriesEntry>)
    requires forall i :: 0 <= i < |entries| ==> HasRequiredCells(entries[i])
    ensures Calculate(p, params, entries).Some?
    ensures var rs := Calculate(p, params, entries).value;
      && |rs| == |entries|
      && forall i :: 0 <= i < |rs| ==>
        rs[i].values.Keys == ResultKeys(params) && Some(rs[i].time) == entries[i].time
  {
    CalculateRows(p, params, entries);
  }
}
