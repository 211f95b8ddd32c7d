/**
 Validation of backtests against snooping: train and evaluation data are separated in time,
 and walk-forward folds partition the data (backend/backtesting/validation.py).
 */
module Validation {
  import opened Decimals
  import opened BacktestModel

  datatype Bar = Bar(timestamp: int, candle: Candle)

  datatype Fold = Fold(index: nat, train: seq<Bar>, test: seq<Bar>)

  /** Every training timestamp lies before every evaluation timestamp. */
  predicate Before(train: seq<Bar>, eval: seq<Bar>) {
    forall i, j :: 0 <= i < |train| && 0 <= j < |eval| ==> train[i].timestamp < eval[j].timestamp
  }

  /** `assert_no_parameter_snooping`: passes exactly on data separated in time. */
  method NoParameterSnooping(train: seq<Bar>, eval: seq<Bar>) returns (ok: bool)
    ensures ok <==> Before(train, eval)
  {
    var seen: set<int> := {};
    var latest: Option<int> := None;
    for i := 0 to |train|
      invariant forall t :: t in seen <==> exists k :: 0 <= k < i && train[k].timestamp == t
      invariant latest.Some? <==> i > 0
      invariant latest.Some? ==> exists k :: 0 <= k < i && train[k].timestamp == latest.value
      invariant latest.Some? ==> forall k :: 0 <= k < i ==> train[k].timestamp <= latest.value
    {
      seen := seen + {train[i].timestamp};
      if latest.None? || train[i].timestamp > latest.value { latest := Some(train[i].timestamp); }
    }
    for j := 0 to |eval|
      invariant forall k :: 0 <= k < j ==> eval[k].timestamp !in seen
    {
      if eval[j].timestamp in seen {
        var k :| 0 <= k < |train| && train[k].timestamp == eval[j].timestamp;
        assert !(train[k].timestamp < eval[j].timestamp);
        return false;
      }
    }
    if latest.Some? && eval != [] {
      var earliest := eval[0].timestamp;
      for j := 1 to |eval|
        invariant exists k :: 0 <= k < j && eval[k].timestamp == earliest
        invariant forall k :: 0 <= k < j ==> earliest <= eval[k].timestamp
      {
        if eval[j].timestamp < earliest { earliest := eval[j].timestamp; }
      }
      if latest.value > earliest {
        var i :| 0 <= i < |train| && train[i].timestamp == latest.value;
        var j :| 0 <= j < |eval| && eval[j].timestamp == earliest;
        assert !(train[i].timestamp < eval[j].timestamp);
        return false;
      }
      assert latest.value != earliest;
    }
    ok := true;
  }

  predicate StrictlyIncreasing(bars: seq<Bar>) {
    forall i, j :: 0 <= i < j < |bars| ==> bars[i].timestamp < bars[j].timestamp
  }

  /** Where `split_dataset` cuts: never an empty side. */
  function SplitIndex(n: nat, ratio: real): nat
    requires n >= 2 && 0.0 < ratio < 1.0
  {
    var cut := (n as real * ratio).Floor;
    if cut < 1 then 1 else if cut > n - 1 then n - 1 else cut
  }

  /** `split_dataset`; None where it raises. */
  function SplitDataset(bars: seq<Bar>, ratio: real): (r: Option<(seq<Bar>, seq<Bar>)>)
    ensures r.Some? <==> 0.0 < ratio < 1.0 && |bars| >= 2
    ensures r.Some? ==> r.value.0 != [] && r.value.1 != [] && r.value.0 + r.value.1 == bars
    ensures r.Some? ==> |r.value.0| == 1 || |r.value.0| as real <= |bars| as real * ratio
    ensures r.Some? ==> |r.value.1| == 1 || |bars| as real * ratio < |r.value.0| as real + 1.0
  {
    if !(0.0 < ratio < 1.0) || |bars| < 2 then None
    else
      var cut := SplitIndex(|bars|, ratio);
      Some((bars[..cut], bars[cut..]))
  }

  // ---------- Walk-forward folds ----------

  /** Each fold trains on everything before its test window, and the next fold on that window too. */
  ghost predicate IsWalkForward(bars: seq<Bar>, minTrain: nat, folds: seq<Fold>) {
    && folds != [] && minTrain <= |bars| && folds[0].train == bars[..minTrain]
    && (forall i :: 0 <= i < |folds| ==> folds[i].index == i && folds[i].test != [])
    && (forall i :: 0 <= i < |folds| - 1 ==> folds[i].train + folds[i].test == folds[i + 1].train)
    && folds[|folds| - 1].train + folds[|folds| - 1].test == bars
  }

  lemma NextStart(minTrain: int, i: int, size: int)
    ensures minTrain + (i + 1) * size == minTrain + i * size + size
  {}

  lemma PoolHolds(pool: int, n: int, i: int)
    requires 1 <= n <= pool && 0 <= i < n
    ensures pool / n >= 1 && 0 <= i * (pool / n) && (i + 1) * (pool / n) <= pool
  {
    var size := pool / n;
    assert n * size <= pool;
    assert (n - (i + 1)) * size >= 0;
    assert (n - (i + 1)) * size == n * size - (i + 1) * size;
  }

  /** `walk_forward_splits`; None exactly where it raises. */
  method WalkForwardSplits(bars: seq<Bar>, nFolds: int, minTrain: int) returns (folds: Option<seq<Fold>>)
    ensures folds.Some? <==> nFolds >= 1 && minTrain >= 1 && |bars| >= minTrain + nFolds
    ensures folds.Some? ==> |folds.value| == nFolds && IsWalkForward(bars, minTrain, folds.value)
    ensures folds.Some? ==> forall i :: 0 <= i < nFolds - 1 ==> |folds.value[i].test| == (|bars| - minTrain) / nFolds
  {
    if nFolds < 1 || minTrain < 1 {
      return None;
    }
    var n := |bars|;
    if n < minTrain + nFolds {
      return None;
    }
    var size := (n - minTrain) / nFolds;
    var result: seq<Fold> := [];
    for i := 0 to nFolds
      invariant |result| == i
      invariant forall k :: 0 <= k < i ==> result[k].index == k && result[k].test != []
      invariant i > 0 ==> result[0].train == bars[..minTrain]
      invariant forall k :: 0 <= k < i - 1 ==> result[k].train + result[k].test == result[k + 1].train
      invariant 0 < i < nFolds ==>
                  minTrain + i * size <= n && result[i - 1].train + result[i - 1].test == bars[..minTrain + i * size]
      invariant 0 < i == nFolds ==> result[i - 1].train + result[i - 1].test == bars
      invariant forall k :: 0 <= k < i && k < nFolds - 1 ==> |result[k].test| == size
    {
      PoolHolds(n - minTrain, nFolds, i);
      NextStart(minTrain, i, size);
      var start := minTrain + i * size;
      var end := if i < nFolds - 1 then start + size else n;
      assert bars[..start] + bars[start..end] == bars[..end];
      assert i == nFolds - 1 ==> bars[..end] == bars;
      result := result + [Fold(i, bars[..start], bars[start..end])];
    }
    folds := Some(result);
  }

  function Tests(folds: seq<Fold>): seq<Bar> {
    if folds == [] then [] else folds[0].test + Tests(folds[1..])
  }

  lemma {:induction false} TestsExtendTrain(folds: seq<Fold>)
    requires folds != []
    requires forall i :: 0 <= i < |folds| - 1 ==> folds[i].train + folds[i].test == folds[i + 1].train
    ensures folds[0].train + Tests(folds) == folds[|folds| - 1].train + folds[|folds| - 1].test
    decreases |folds|
  {
    if |folds| == 1 {
      assert Tests(folds[1..]) == [];
      assert folds[0].test + [] == folds[0].test;
    } else {
      TestsExtendTrain(folds[1..]);
      assert folds[0].train + (folds[0].test + Tests(folds[1..])) == folds[1].train + Tests(folds[1..]);
    }
  }

  /** The test windows are together exactly the data after the first training window. */
  lemma {:induction false} TestsPartition(bars: seq<Bar>, minTrain: nat, folds: seq<Fold>)
    requires IsWalkForward(bars, minTrain, folds)
    ensures Tests(folds) == bars[minTrain..]
  {
    TestsExtendTrain(folds);
    assert bars[..minTrain] + Tests(folds) == bars;
    assert (bars[..minTrain] + Tests(folds))[minTrain..] == Tests(folds);
  }

  lemma {:induction false} TrainsArePrefixes(bars: seq<Bar>, minTrain: nat, folds: seq<Fold>, i: nat)
    requires IsWalkForward(bars, minTrain, folds) && i < |folds|
    ensures folds[i].train + folds[i].test <= bars
    decreases |folds| - i
  {
    if i < |folds| - 1 {
      TrainsArePrefixes(bars, minTrain, folds, i + 1);
      assert folds[i].train + folds[i].test <= folds[i + 1].train + folds[i + 1].test;
    }
  }

  lemma PartsAreOrdered(a: seq<Bar>, b: seq<Bar>, bars: seq<Bar>)
    requires StrictlyIncreasing(bars) && a + b <= bars
    ensures Before(a, b)
  {
    forall i, j | 0 <= i < |a| && 0 <= j < |b| ensures a[i].timestamp < b[j].timestamp {
      assert a[i] == (a + b)[i] == bars[i] && b[j] == (a + b)[|a| + j] == bars[|a| + j];
    }
  }

  /** On chronological data no fold and no split ever fails the snooping check. */
  lemma {:induction false} FoldsNeverSnoop(bars: seq<Bar>, minTrain: nat, folds: seq<Fold>, ratio: real)
    requires StrictlyIncreasing(bars) && IsWalkForward(bars, minTrain, folds)
    ensures forall i :: 0 <= i < |folds| ==> Before(folds[i].train, folds[i].test)
    ensures var split := SplitDataset(bars, ratio); split.Some? ==> Before(split.value.0, split.value.1)
  {
    forall i | 0 <= i < |folds| ensures Before(folds[i].train, folds[i].test) {
      TrainsArePrefixes(bars, minTrain, folds, i);
      PartsAreOrdered(folds[i].train, folds[i].test, bars);
    }
    var split := SplitDataset(bars, ratio);
    if split.Some? { PartsAreOrdered(split.value.0, split.value.1, bars); }
  }
}
