/**
  The storage instantiated with a Sum aggregation over integer measurements, where
  a fresh aggregation of `v` holds `v` and `prev.Diff(next)` is `next - prev`.
  Under that policy the increments handed over by successive Collects add up to the
  growth of the observed absolute value.
 */
module SumCycles {
  import opened Aggregation
  import opened StorageMaps

  /** Sum's Aggregate: adds the measurement to the running sum. */
  function SumAggregate(sum: int, v: int): int
  {
    sum + v
  }

  /** Sum's Diff: the increment from `prev` to `next`. */
  function SumDiff(prev: int, next: int): int
  {
    next - prev
  }

  /** A Sum policy for an integer instrument. The floating-point overload is never
      reached on a kLong instrument and keeps the sum unchanged. */
  function SumPolicy(): Policy<int>
  {
    Policy(0, SumAggregate, (sum: int, v: real) => sum, SumDiff)
  }

  /** The last absolute value known for `key`, zero before the first observation. */
  function Baseline<K>(s: Maps<K, int>, key: K): int
  {
    if key in s.cumulative then s.cumulative[key] else 0
  }

  function Total(xs: seq<int>): int
  {
    if xs == [] then 0 else xs[0] + Total(xs[1..])
  }

  /**
    The increments reported for `key` when each absolute observation in `obs` is
    recorded on its own and followed by a Collect, as when a reader's collection
    cycle runs the instrument's callback and then drains the storage.
   */
  function Reports<K>(s: Maps<K, int>, key: K, obs: seq<int>): (reported: seq<int>)
    ensures |reported| == |obs|
    decreases |obs|
  {
    if obs == [] then []
    else
      var recorded := RecordOne(SumDiff, s, key, SumAggregate(0, obs[0]));
      [recorded.delta[key]] + Reports(AfterCollect(recorded), key, obs[1..])
  }

  /** The first increment reported is the first observation minus the last known
      absolute value; for an attribute set never seen before, the observation itself. */
  lemma FirstReport<K>(s: Maps<K, int>, key: K, obs: seq<int>)
    requires |obs| > 0
    ensures Reports(s, key, obs)[0] == obs[0] - Baseline(s, key)
    ensures key !in s.cumulative ==> Reports(s, key, obs)[0] == obs[0]
  {
  }

  /** Every report after the first is the growth between two successive
      observations. */
  lemma {:induction false} ReportIsIncrement<K>(s: Maps<K, int>, key: K, obs: seq<int>)
    ensures forall i :: 0 < i < |obs| ==> Reports(s, key, obs)[i] == obs[i] - obs[i - 1]
    decreases |obs|
  {
    if |obs| > 1 {
      var next := AfterCollect(RecordOne(SumDiff, s, key, SumAggregate(0, obs[0])));
      assert Baseline(next, key) == obs[0];
      ReportIsIncrement(next, key, obs[1..]);
      FirstReport(next, key, obs[1..]);
      forall i | 0 < i < |obs|
        ensures Reports(s, key, obs)[i] == obs[i] - obs[i - 1]
      {
        assert Reports(s, key, obs)[i] == Reports(next, key, obs[1..])[i - 1];
      }
    }
  }

  /** Delta conservation: the reported increments add up to the last observation
      minus the value known before the first one. */
  lemma {:induction false} DeltaConservation<K>(s: Maps<K, int>, key: K, obs: seq<int>)
    requires |obs| > 0
    ensures Total(Reports(s, key, obs)) == obs[|obs| - 1] - Baseline(s, key)
    decreases |obs|
  {
    var recorded := RecordOne(SumDiff, s, key, SumAggregate(0, obs[0]));
    FirstReport(s, key, obs);
    if |obs| > 1 {
      var next := AfterCollect(recorded);
      assert Baseline(next, key) == obs[0];
      DeltaConservation(next, key, obs[1..]);
      assert obs[1..][|obs[1..]| - 1] == obs[|obs| - 1];
    }
  }

  /** Two observations `v1`, `v2` of `key` without a Collect in between: only
      `v2 - v1` is handed over, so the growth from the last known value up to `v1`
      is never reported (unless `v1` equals it). */
  lemma IntermediateIncrementLost<K>(s: Maps<K, int>, key: K, v1: int, v2: int)
    ensures
      var twice := RecordOne(SumDiff, RecordOne(SumDiff, s, key, SumAggregate(0, v1)), key, SumAggregate(0, v2));
      twice.delta[key] == v2 - v1 && twice.cumulative[key] == v2
  {
  }
}
