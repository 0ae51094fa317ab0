/**
  What a caller can conclude from the storage's contracts alone, on an integer Sum
  instrument observed under two attribute sets.
 */
module Scenario {
  import opened Aggregation
  import opened AsyncStorage
  import opened SumCycles

  /** Two attribute sets, standing for {host=a} and {host=b}. */
  datatype Host = HostA | HostB

  /** The first observation of an attribute set is its own increment, and a
      floating-point batch on an integer instrument leaves both maps as they were. */
  method FirstObservationAndMistypedBatch()
  {
    var storage := new AsyncMetricStorage<Host, int>(Long, SumPolicy());
    storage.RecordLong(map[HostA := 5]);
    storage.RecordDouble(map[HostA := 9.5, HostB := 1.0]);
    assert storage.cumulative.Keys == {HostA} && storage.cumulative[HostA] == 5;
    var drained := storage.Collect();
    assert drained.Keys == {HostA} && drained[HostA] == 5;
  }

  /** A later observation hands over only the growth since the last one, while a
      new attribute set in the same batch is seeded. */
  method SecondObservation()
  {
    var storage := new AsyncMetricStorage<Host, int>(Long, SumPolicy());
    storage.RecordLong(map[HostA := 5]);
    var drained := storage.Collect();
    storage.RecordLong(map[HostA := 8, HostB := 2]);
    drained := storage.Collect();
    assert drained.Keys == {HostA, HostB};
    assert drained[HostA] == 3 && drained[HostB] == 2;
  }

  /** With nothing recorded since the last Collect there is nothing to hand over. */
  method CollectTwice()
  {
    var storage := new AsyncMetricStorage<Host, int>(Long, SumPolicy());
    storage.RecordLong(map[HostA := 5]);
    var drained := storage.Collect();
    drained := storage.Collect();
    assert drained == map[];
    assert storage.cumulative.Keys == {HostA};
  }

  /** A storage whose value type is neither kLong nor kDouble drops every batch. */
  method OtherValueTypeDropsAll()
  {
    var storage := new AsyncMetricStorage<Host, int>(Float, SumPolicy());
    storage.RecordLong(map[HostA := 5]);
    storage.RecordDouble(map[HostB := 1.5]);
    var drained := storage.Collect();
    assert drained == map[] && storage.cumulative == map[];
  }
}
