# AsyncMetricStorage, modelled in Dafny

This project models `AsyncMetricStorage` from the OpenTelemetry C++ metrics SDK.
That is the storage behind an asynchronous (observable) instrument. The instrument's
callback reports absolute values per attribute set. The storage turns them into
per-attribute-set increments, which a reader's collection then drains.

The storage owns two maps keyed by attribute set:

- the **cumulative map** holds the last absolute aggregation of each attribute set;
- the **delta map** holds the unreported increment of each attribute set.

`Record` visits a batch of measurements. Each batch is an `unordered_map`, so its
attribute sets are distinct. For each measurement it builds a fresh aggregation. When the
attribute set is already in the cumulative map, the fresh aggregation replaces the old one,
and `prev.Diff(fresh)` replaces the attribute set's delta entry. A new attribute set gets
the fresh aggregation in both maps. `RecordLong` and `RecordDouble` silently drop a batch
whose value type differs from the instrument's. `Collect` hands over the whole delta map
and leaves an empty one behind.

Files:

- `aggregation.dfy` (module `Aggregation`) defines the instrument value type and the
  aggregation policy. The policy bundles the default aggregation, the two `Aggregate`
  overloads and `Diff` as function values, so everything below holds for any
  aggregation. Cloning is the identity on values.
- `storage_maps.dfy` (module `StorageMaps`) gives the two maps as a value and one loop
  iteration (`RecordOne`). `RecordAll` is the loop over a visiting order. `Recorded`
  specifies a whole batch attribute set by attribute set. The lemmas prove that the loop
  meets that specification in every visiting order. They also prove the class invariant:
  every attribute set in the delta map is in the cumulative map.
- `async_metric_storage.dfy` (module `AsyncStorage`) holds the class
  `AsyncMetricStorage`. Its two map fields are updated in place. `Record` is a loop over
  the batch's key set, visited in an unspecified order. It is proved to reach exactly
  `Recorded`.
- `sum_cycles.dfy` (module `SumCycles`) instantiates a Sum aggregation. There
  `Diff(prev, next) = next - prev`; this is an assumption, because the aggregation code is
  not part of this model. Under it, the increments handed over by a sequence of
  record-then-collect cycles add up to the growth of the observed value.
- `scenario.dfy` (module `Scenario`) holds client methods that follow a storage through a
  few calls, using only the class's contracts.

An unreported increment is replaced, not summed (line 61).
`StorageMaps.UnreportedDeltaReplaced` and `SumCycles.IntermediateIncrementLost` state
the consequence: when two batches for one attribute set arrive between Collects, only
the increment between those two batches is handed over.

## Model

| member | source | states |
|---|---|---|
| `StorageMaps.RecordOne` | sdk/include/opentelemetry/sdk/metrics/state/async_metric_storage.h:52-70 | one measurement adds its attribute set to the domain of both maps and nothing else; it keeps "delta keys within cumulative keys" |
| `StorageMaps.RecordAll` | sdk/include/opentelemetry/sdk/metrics/state/async_metric_storage.h:50-71 | the loop over a batch, in any visiting order, keeps the class invariant |
| `StorageMaps.RecordOneExtends` | sdk/include/opentelemetry/sdk/metrics/state/async_metric_storage.h:54-69 | one more iteration, on an attribute set not yet visited, extends the recorded part of the batch by exactly that attribute set. Its cumulative entry becomes the fresh aggregation. Its delta entry becomes `Diff(prev, fresh)` when it had a previous value, and the fresh aggregation otherwise |
| `StorageMaps.RecordAllMeetsSpec` | sdk/include/opentelemetry/sdk/metrics/state/async_metric_storage.h:50-71 | after visiting distinct attribute sets, both maps are exactly `Recorded` for the visited part of the batch: domains grow by the visited keys, cumulative holds the fresh value, delta holds the fresh value for new keys and `Diff(prev, fresh)` for known ones, and all other entries are unchanged |
| `StorageMaps.RecordAllCoversBatch` | sdk/include/opentelemetry/sdk/metrics/state/async_metric_storage.h:50-71 | a loop that has visited every attribute set of the batch once has recorded the whole batch |
| `StorageMaps.RecordedUnique` | sdk/include/opentelemetry/sdk/metrics/state/async_metric_storage.h:50-71 | the key-wise specification of a batch determines both maps completely |
| `StorageMaps.RecordOrderIrrelevant` | sdk/include/opentelemetry/sdk/metrics/state/async_metric_storage.h:43-50 | any two visiting orders of a batch's distinct attribute sets give the same two maps |
| `StorageMaps.RecordedKeepsInvariant` | sdk/include/opentelemetry/sdk/metrics/state/async_metric_storage.h:60-69 | recording a batch keeps every delta key inside the cumulative map's domain |
| `StorageMaps.AfterCollect` | sdk/include/opentelemetry/sdk/metrics/state/async_metric_storage.h:103-108 | after a drain the delta map is empty, so the class invariant holds whatever the cumulative map holds |
| `StorageMaps.UnreportedDeltaReplaced` | sdk/include/opentelemetry/sdk/metrics/state/async_metric_storage.h:57-61 | a second observation of an attribute set before a Collect leaves `Diff(first, second)` as its delta: the earlier increment is replaced, not combined |
| `AsyncStorage.AsyncMetricStorage.constructor` | sdk/include/opentelemetry/sdk/metrics/state/async_metric_storage.h:28-40 | a new storage starts with both maps empty and keeps the instrument's value type and aggregation |
| `AsyncStorage.AsyncMetricStorage.Record` | sdk/include/opentelemetry/sdk/metrics/state/async_metric_storage.h:43-72 | the new maps are exactly `Recorded` from the old maps and the batch's fresh aggregations, whatever order the loop visits the batch in; the class invariant is kept |
| `AsyncStorage.AsyncMetricStorage.RecordMeasurement` | sdk/include/opentelemetry/sdk/metrics/state/async_metric_storage.h:52-70 | one measurement changes the two maps as `RecordOne` says |
| `AsyncStorage.AsyncMetricStorage.RecordLong` | sdk/include/opentelemetry/sdk/metrics/state/async_metric_storage.h:74-83 | on a kLong instrument the batch is recorded; on any other both maps stay as they were |
| `AsyncStorage.AsyncMetricStorage.RecordDouble` | sdk/include/opentelemetry/sdk/metrics/state/async_metric_storage.h:85-94 | on a kDouble instrument the batch is recorded; on any other both maps stay as they were |
| `AsyncStorage.AsyncMetricStorage.Collect` | sdk/include/opentelemetry/sdk/metrics/state/async_metric_storage.h:96-114 | hands over exactly the delta map as it was before the call, leaves it empty and the cumulative map unchanged, so a second Collect with no Record between hands over nothing |
| `SumCycles.ReportIsIncrement` | sdk/include/opentelemetry/sdk/metrics/state/async_metric_storage.h:54-61 | in record-then-collect cycles, every report after the first is the current observation minus the previous one |
| `SumCycles.FirstReport` | sdk/include/opentelemetry/sdk/metrics/state/async_metric_storage.h:63-69 | the first report is the observation minus the last known value; for a new attribute set it is the observation itself |
| `SumCycles.DeltaConservation` | sdk/include/opentelemetry/sdk/metrics/state/async_metric_storage.h:54-61 | the reports of record-then-collect cycles add up to the last observation minus the value known before the first |
| `SumCycles.IntermediateIncrementLost` | sdk/include/opentelemetry/sdk/metrics/state/async_metric_storage.h:57-61 | with two observations `v1`, `v2` and no Collect between, the delta is `v2 - v1` and the cumulative value is `v2` |

## Left out

- The spin lock `hashmap_lock_` and all concurrency: each public call is one sequential step.
- `AsyncStorage.AsyncMetricStorage.Collect`: returns the drained map instead of passing it to `TemporalMetricStorage::buildMetrics` and returning that call's status. The temporal storage, the collector handles, the timestamps and the metric callback are not part of this model.
- The bodies of `CreateAggregation`, `CloneAggregation`, `Aggregate` and `Diff` are not part of this model. They are function values in a policy, and a clone is the same value.
- `SumCycles.SumDiff`: assumes a Sum aggregation's `Diff` is `next - prev`; it does not model a 64-bit overflow of that subtraction or of the measured values.
- `SumCycles.SumPolicy`: assumes a fresh Sum aggregation starts at 0 and that `Aggregate(v)` adds `v`, so a fresh aggregation of `v` holds `v`. The bodies of `CreateAggregation` and `Aggregate` are not part of this model.
- Floating-point measurements are modelled as `real`. Only the type gate of `RecordDouble` is meant; double rounding is not modelled.
- `attributes_processor_`, `state_` and the observation timestamp are never read by the modelled code and are left out.
- Ownership moves between `unique_ptr` and `shared_ptr` are not modelled: the maps are values replaced wholesale.
