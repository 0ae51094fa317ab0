/**
  The aggregation capability the asynchronous storage relies on. The storage never
  looks inside an aggregation: it creates a default one, folds one raw measurement
  into it and diffs two of them. Those operations are supplied as function values,
  so every property proved about the storage holds for any aggregation policy.
 */
module Aggregation {

  /** The value type an instrument declares (InstrumentValueType::kInt, kLong,
      kFloat, kDouble). Asynchronous instruments are fed only through the kLong and
      kDouble entry points, so a storage of any other value type drops every batch. */
  datatype InstrumentValueType = Int | Long | Float | Double

  /**
    One aggregation policy, fixed by the instrument's aggregation type and descriptor:
    - `initial` is the aggregation DefaultAggregation::CreateAggregation returns,
    - `aggregateLong` and `aggregateDouble` are the two Aggregate overloads,
    - `diff(prev, next)` is `prev.Diff(next)`, the increment from `prev` to `next`.
    Cloning an aggregation is the identity on values.
   */
  datatype Policy<!A> = Policy(
    initial: A,
    aggregateLong: (A, int) -> A,
    aggregateDouble: (A, real) -> A,
    diff: (A, A) -> A)

  /** The fresh aggregation built for each measurement of a batch: a default
      aggregation with that one measurement folded in. */
  function FreshAggregations<K, T, A>(initial: A, aggregate: (A, T) -> A, measurements: map<K, T>): map<K, A>
  {
    map k | k in measurements :: aggregate(initial, measurements[k])
  }
}
