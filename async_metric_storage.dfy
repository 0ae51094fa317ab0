/**
  AsyncMetricStorage: turns the absolute observations of an asynchronous instrument
  into per-attribute-set increments. Each public call runs under the storage's lock,
  so each is modelled as one sequential step on the two map fields.
 */
module AsyncStorage {
  import opened Aggregation
  import opened StorageMaps

  class AsyncMetricStorage<K(==), A> {
    /** The instrument's declared value type. */
    const valueType: InstrumentValueType
    /** The aggregation built from the instrument's aggregation type and descriptor. */
    const policy: Policy<A>

    /** Last absolute aggregation per attribute set. */
    var cumulative: map<K, A>
    /** Unreported increment per attribute set since the last Collect. */
    var delta: map<K, A>

    ghost function State(): Maps<K, A>
      reads this
    {
      Maps(cumulative, delta)
    }

    ghost predicate Valid()
      reads this
    {
      DeltaWithinCumulative(State())
    }

    constructor (valueType: InstrumentValueType, policy: Policy<A>)
      ensures Valid()
      ensures this.valueType == valueType && this.policy == policy
      ensures cumulative == map[] && delta == map[]
    {
      this.valueType := valueType;
      this.policy := policy;
      cumulative := map[];
      delta := map[];
    }

    /**
      Records one batch of measurements, `aggregate` being the Aggregate overload
      for the batch's value type. The batch is a map, so its attribute sets are
      distinct; it is visited in an unspecified order.
     */
    method Record<T>(measurements: map<K, T>, aggregate: (A, T) -> A)
      requires Valid()
      modifies this
      ensures Valid()
      ensures Recorded(policy.diff, old(State()), FreshAggregations(policy.initial, aggregate, measurements), State())
    {
      ghost var start := State();
      ghost var batch := FreshAggregations(policy.initial, aggregate, measurements);
      assert batch.Keys == measurements.Keys;
      ghost var order: seq<K> := [];
      var pending := measurements.Keys;
      while pending != {}
        invariant pending <= batch.Keys
        invariant Distinct(order)
        invariant forall i :: 0 <= i < |order| ==> order[i] in batch && order[i] !in pending
        invariant (set k | k in order) == batch.Keys - pending
        invariant State() == RecordAll(policy.diff, start, order, batch)
        decreases pending
      {
        var key :| key in pending;
        var aggr := aggregate(policy.initial, measurements[key]);
        assert aggr == batch[key];
        RecordMeasurement(key, aggr);
        RecordAllSnoc(policy.diff, start, order, key, batch);
        assert (set k | k in order + [key]) == (set k | k in order) + {key};
        order := order + [key];
        pending := pending - {key};
      }
      RecordAllCoversBatch(policy.diff, start, order, batch);
    }

    /** One measurement of a batch: the fresh aggregation `aggr` for `key` becomes the
        last absolute value, and the increment it makes becomes the unreported delta. */
    method RecordMeasurement(key: K, aggr: A)
      modifies this
      ensures State() == RecordOne(policy.diff, old(State()), key, aggr)
    {
      if key in cumulative {
        var d := policy.diff(cumulative[key], aggr);
        cumulative := cumulative[key := aggr];
        delta := delta[key := d];
      } else {
        cumulative := cumulative[key := aggr];
        delta := delta[key := aggr];
      }
    }

    /** Records an integer batch; dropped silently unless the instrument is kLong. */
    method RecordLong(measurements: map<K, int>)
      requires Valid()
      modifies this
      ensures Valid()
      ensures valueType != Long ==> cumulative == old(cumulative) && delta == old(delta)
      ensures valueType == Long ==>
        Recorded(policy.diff, old(State()), FreshAggregations(policy.initial, policy.aggregateLong, measurements), State())
    {
      if valueType != Long {
        return;
      }
      Record(measurements, policy.aggregateLong);
    }

    /** Records a floating-point batch; dropped silently unless the instrument is kDouble. */
    method RecordDouble(measurements: map<K, real>)
      requires Valid()
      modifies this
      ensures Valid()
      ensures valueType != Double ==> cumulative == old(cumulative) && delta == old(delta)
      ensures valueType == Double ==>
        Recorded(policy.diff, old(State()), FreshAggregations(policy.initial, policy.aggregateDouble, measurements), State())
    {
      if valueType != Double {
        return;
      }
      Record(measurements, policy.aggregateDouble);
    }

    /**
      Drains the delta map: hands over every unreported increment and leaves an
      empty delta map behind. The cumulative map is kept, so the next observation
      of an attribute set is diffed against its last absolute value.
     */
    method Collect() returns (drained: map<K, A>)
      requires Valid()
      modifies this`delta
      ensures Valid()
      ensures drained == old(delta)
      ensures State() == AfterCollect(old(State()))
    {
      drained := delta;
      delta := map[];
    }
  }
}
