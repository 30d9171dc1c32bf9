/**
 * The per-field mean of `calculate_averages`: for every key of the first
 * result row except "Time", the sum over all rows divided by their number.
 */
module Averaging {
  import opened Numerics
  import opened TimeSeries

  /** Every row has every numeric field of the first row; otherwise the
      source's `r[key]` raises KeyError. */
  predicate FieldsComplete(results: seq<CalcResult>)
  {
    forall i :: 0 <= i < |results| ==> results[0].values.Keys <= results[i].values.Keys
  }

  /** The rows of a successful calculation all carry the same keys, so
      every row has every field of the first one. */
  lemma CalculatedFieldsComplete(p: Primitives, params: TestParameters, entries: seq<TimeSeriesEntry>)
    requires forall i :: 0 <= i < |entries| ==> HasRequiredCells(entries[i])
    ensures Calculate(p, params, entries).Some?
    ensures FieldsComplete(Calculate(p, params, entries).value)
  {
    ResultRowsUniform(p, params, entries);
  }

  /** `[r[key] for r in results]`. */
  function Column(results: seq<CalcResult>, key: Field): (col: seq<real>)
    requires forall i :: 0 <= i < |results| ==> key in results[i].values
    ensures |col| == |results|
    ensures forall i :: 0 <= i < |results| ==> col[i] == results[i].values[key]
  {
    seq(|results|, i requires 0 <= i < |results| => results[i].values[key])
  }

  /** `sum(values) / len(values)`. */
  function Mean(xs: seq<real>): (m: real)
    requires |xs| > 0
    ensures m * |xs| as real == Sum(xs)
  {
    Sum(xs) / |xs| as real
  }

  /** The averages dictionary: one mean per numeric field of the first row. */
  function Averages(results: seq<CalcResult>): (avg: map<Field, real>)
    requires |results| > 0 && FieldsComplete(results)
    ensures avg.Keys == results[0].values.Keys
  {
    map key | key in results[0].values.Keys :: Mean(Column(results, key))
  }

  /** A sum of values that all lie in [lo, hi] lies in [n * lo, n * hi]. */
  lemma {:induction false} SumBounds(xs: seq<real>, lo: real, hi: real)
    requires forall i :: 0 <= i < |xs| ==> lo <= xs[i] <= hi
    ensures |xs| as real * lo <= Sum(xs) <= |xs| as real * hi
  {
    if xs != [] {
      var n := |xs| - 1;
      var init := xs[..n];
      assert forall i :: 0 <= i < n ==> init[i] == xs[i];
      SumBounds(init, lo, hi);
      assert |init| == n;
      assert Sum(xs) == Sum(init) + xs[n];
      assert n as real * lo + lo <= Sum(xs) <= n as real * hi + hi;
      assert |xs| as real * lo == n as real * lo + lo;
      assert |xs| as real * hi == n as real * hi + hi;
    }
  }

  /** A mean lies between any lower and upper bound of its values; in
      particular the mean of equal values is that value. */
  lemma MeanBounds(xs: seq<real>, lo: real, hi: real)
    requires |xs| > 0
    requires forall i :: 0 <= i < |xs| ==> lo <= xs[i] <= hi
    ensures lo <= Mean(xs) <= hi
  {
    SumBounds(xs, lo, hi);
    var n := |xs| as real;
    var m := Mean(xs);
    assert (m - lo) * n == Sum(xs) - n * lo >= 0.0;
    assert (hi - m) * n == n * hi - Sum(xs) >= 0.0;
  }

  /** Each average lies within the range of that field over all rows. */
  lemma AveragesWithinRange(results: seq<CalcResult>, key: Field, lo: real, hi: real)
    requires |results| > 0 && FieldsComplete(results)
    requires key in results[0].values
    requires forall i :: 0 <= i < |results| ==> lo <= results[i].values[key] <= hi
    ensures lo <= Averages(results)[key] <= hi
  {
    MeanBounds(Column(results, key), lo, hi);
  }

  /** Two rows with Q Oil 100 and 200 average to 150. */
  lemma AverageExample(t1: string, t2: string)
    ensures var rs := [CalcResult(t1, map[QOil := 100.0]), CalcResult(t2, map[QOil := 200.0])];
      FieldsComplete(rs) && Averages(rs) == map[QOil := 150.0]
  {
    var rs := [CalcResult(t1, map[QOil := 100.0]), CalcResult(t2, map[QOil := 200.0])];
    assert Column(rs, QOil) == [100.0, 200.0];
    assert Sum([100.0, 200.0]) == 300.0 by {
      assert [100.0, 200.0][..1] == [100.0];
      assert [100.0][..0] == [];
    }
  }
}
