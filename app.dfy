/**
 * The calculation methods of the application window: `perform_calculations`
 * and `calculate_averages` act on the current project, a dictionary holding
 * the parameters, the time series, the results and the averages. Here that
 * project is an object whose fields the two methods update in place.
 */
module RamWareApp {
  import opened Numerics
  import opened WellTestCalculator
  import opened TimeSeries
  import opened Averaging

  class Project {
    var parameters: TestParameters
    var timeSeries: seq<TimeSeriesEntry>
    var results: seq<CalcResult>
    var averages: map<Field, real>

    constructor (parameters: TestParameters, timeSeries: seq<TimeSeriesEntry>)
      ensures this.parameters == parameters && this.timeSeries == timeSeries
      ensures results == [] && averages == map[]
    {
      this.parameters := parameters;
      this.timeSeries := timeSeries;
      results := [];
      averages := map[];
    }

    /** Walks the time series in order, differencing the cumulative meters
        against the carried previous readings, and stores one result row per
        entry, then refreshes the averages. `ok` is false where the source
        raises KeyError (an entry without "Time" or "GAS DP (inH₂O)"); the
        project is then left as it was. */
    method PerformCalculations(p: Primitives) returns (ok: bool)
      modifies this
      ensures parameters == old(parameters) && timeSeries == old(timeSeries)
      ensures ok <==> forall i :: 0 <= i < |timeSeries| ==> HasRequiredCells(timeSeries[i])
      ensures ok ==> Some(results) == Calculate(p, parameters, timeSeries)
      ensures ok ==> FieldsComplete(results)
      ensures ok && |results| > 0 ==> averages == Averages(results)
      ensures ok && |results| == 0 ==> averages == old(averages)
      ensures !ok ==> results == old(results) && averages == old(averages)
    {
      var params, series := parameters, timeSeries;
      var rs;
      ok, rs := CollectResults(p, params, series);
      if !ok {
        return;
      }
      CalculatedFieldsComplete(p, params, series);
      results := rs;
      var averaged := CalculateAverages();
      assert averaged;
    }

    /** The loop of `perform_calculations`: walks the entries in order,
        differencing the cumulative meters against the readings carried from
        the previous entry, and collects one result row per entry. `ok` is
        false where the source raises KeyError. */
    static method CollectResults(p: Primitives, params: TestParameters, series: seq<TimeSeriesEntry>)
      returns (ok: bool, rs: seq<CalcResult>)
      ensures ok <==> forall i :: 0 <= i < |series| ==> HasRequiredCells(series[i])
      ensures ok ==> Some(rs) == Calculate(p, params, series)
    {
      rs := [];
      var prev := NoReadings;
      var i := 0;
      while i < |series|
        invariant 0 <= i <= |series|
        invariant prev == Carried(params, series[..i])
        invariant Calculate(p, params, series[..i]) == Some(rs)
      {
        var entry := series[i];
        assert series[..i + 1][..i] == series[..i];
        assert series[..i + 1][i] == entry;
        if entry.time.None? {
          MissingCellFails(p, params, series, i);
          CalculateSucceeds(p, params, series);
          return false, rs;
        }
        var time := entry.time.value;
        var interval;
        interval, prev := DifferenceMeters(params, prev, entry);
        if GasDpKey !in entry.cells {
          MissingCellFails(p, params, series, i);
          CalculateSucceeds(p, params, series);
          return false, rs;
        }
        var result := FillResult(p, params, entry, interval);
        rs := rs + [CalcResult(time, result)];
        i := i + 1;
      }
      assert series[..i] == series;
      CalculateSucceeds(p, params, series);
      ok := true;
    }

    /** The volume differences of one entry against the readings carried
        from the previous entry, and the readings to carry on: in three-phase
        separation the oil and water meters with the water-in-oil fraction,
        otherwise the liquid meter with the BS&W fraction. */
    static method DifferenceMeters(params: TestParameters, prev: Meters, entry: TimeSeriesEntry)
      returns (interval: Interval, carried: Meters)
      ensures Differenced(interval, carried) == Step(params, prev, entry)
    {
      carried := prev;
      if params.separationType == "THREE PHASES" {
        var meterOil := Get(entry, MeterOilKey);
        var meterWater := Get(entry, MeterWaterKey);
        var vsOil := meterOil - prev.oil;
        var vsWater := meterWater - prev.water;
        var wio := Get(entry, WioKey) / 100.0;
        interval := ThreePhaseInterval(vsOil, vsWater, wio);
        carried := carried.(oil := meterOil, water := meterWater);
      } else {
        var meterLiquid := Get(entry, MeterLiquidKey);
        var vsLiquid := meterLiquid - prev.liquid;
        var bsw := Get(entry, BswKey) / 100.0;
        interval := TwoPhaseInterval(vsLiquid, bsw);
        carried := carried.(liquid := meterLiquid);
      }
    }

    /** One entry's result row, filled key by key as the loop body of
        `perform_calculations` does once the interval volumes are known.
        The oil temperature stands in for the separator temperature, and
        the API correction gets its two arguments swapped. */
    static method FillResult(p: Primitives, params: TestParameters, entry: TimeSeriesEntry,
                             interval: Interval) returns (result: map<Field, real>)
      requires GasDpKey in entry.cells
      ensures result == EntryValues(p, params, entry, interval)
    {
      var sepTemp := Get(entry, OilTempKey);
      var oilApi60F := OilApi60F(params.oilTemp, params.oilApi);
      var vcfSep := VcfSep(p, sepTemp, oilApi60F);
      var sepP := Get(entry, SepPKey);
      var gor2 := CalculateGor2(p, oilApi60F, params.sgGas, sepP, sepTemp, params.gor2Method);
      var sf := ShrinkageFactor(gor2, sepP, oilApi60F);

      var q: Rates;
      match interval {
        case ThreePhaseInterval(vsOil, vsWater, wio) =>
          q := ThreePhaseFlow(vsOil, vsWater, wio, params.meterFactor, sf, vcfSep);
        case TwoPhaseInterval(vsLiquid, bsw) =>
          q := TwoPhaseFlow(vsLiquid, bsw, params.meterFactor, sf, vcfSep);
      }
      assert q == PhaseRates(interval, params.meterFactor, sf, vcfSep);
      var qGas := p.gasFlow(entry.cells[GasDpKey], sepP, Get(entry, GasTempKey), params.sgGas,
                            params.orificeDiameter, params.lineBore, params.h2s, params.co2);
      result := FillRow(q, qGas, gor2, params.productionType == "GAS LIFT", Get(entry, GasInjKey));
    }

    /** The result dictionary filled key by key: the rates, the gas rate,
        the GORs, and for gas lift the injected gas and the formation-gas
        metrics. */
    static method FillRow(q: Rates, qGas: real, gor2: real, gasLift: bool, qGasInj: real)
      returns (result: map<Field, real>)
      ensures result == ResultRow(q, qGas, gor2, gasLift, qGasInj)
    {
      result := map[];
      result := result[QOil := q.qOil];
      result := result[QWater := q.qWater];
      result := result[TotalQ := q.qOil + q.qWater];
      result := result[QGas := qGas];

      var gor1 := if q.qOil > 0.0 then qGas * 1000.0 / q.qOil else 0.0;
      result := result[Gor1 := gor1];
      result := result[Gor2 := gor2];
      result := result[TotalGor := gor1 + gor2];

      if gasLift {
        result := result[QGasInj := qGasInj];
        var m := CalculateForGasLift(qGas, qGasInj, q.qOil, gor2);
        result := result[FormationGas := m.formationGas];
        result := result[Gor1Formation := m.gor1Formation];
        result := result[TotalGorFormation := m.totalGorFormation];
      }
    }

    /** With no results the stored averages are left untouched; otherwise
        they become the per-field means over all rows. `ok` is false where
        the source raises KeyError (a row lacking a field of the first row);
        the stored averages are then left untouched as well. */
    method CalculateAverages() returns (ok: bool)
      modifies this`averages
      ensures ok <==> FieldsComplete(results)
      ensures !ok || |results| == 0 ==> averages == old(averages)
      ensures ok && |results| > 0 ==> averages == Averages(results)
    {
      ok := true;
      if |results| == 0 {
        return;
      }
      var avg: map<Field, real> := map[];
      var keys := results[0].values.Keys;
      while keys != {}
        invariant keys <= results[0].values.Keys
        invariant avg.Keys == results[0].values.Keys - keys
        invariant forall key :: key in avg ==>
          && (forall i :: 0 <= i < |results| ==> key in results[i].values)
          && avg[key] == Mean(Column(results, key))
        decreases keys
      {
        var key :| key in keys;
        if exists i :: 0 <= i < |results| && key !in results[i].values {
          return false;
        }
        var values := Column(results, key);
        avg := avg[key := Sum(values) / |values| as real];
        keys := keys - {key};
      }
      assert FieldsComplete(results) by {
        forall i, key | 0 <= i < |results| && key in results[0].values
          ensures key in results[i].values
        {
          assert key in avg;
        }
      }
      averages := avg;
    }
  }
}
