/**
  The two maps of an asynchronous metric storage, as values, and the effect of
  recording and collecting on them.
 */
module StorageMaps {

  /** The cumulative map (last absolute aggregation per attribute set) and the
      delta map (unreported increment per attribute set). */
  datatype Maps<K, A> = Maps(cumulative: map<K, A>, delta: map<K, A>)

  /** Class invariant: an attribute set with an unreported increment also has a
      last absolute aggregation. */
  ghost predicate DeltaWithinCumulative<K, A>(s: Maps<K, A>)
  {
    s.delta.Keys <= s.cumulative.Keys
  }

  /** One iteration of Record's loop: the fresh aggregation `aggr` observed for `key`. */
  function RecordOne<K, A>(diff: (A, A) -> A, s: Maps<K, A>, key: K, aggr: A): (r: Maps<K, A>)
    ensures r.cumulative.Keys == s.cumulative.Keys + {key}
    ensures r.delta.Keys == s.delta.Keys + {key}
    ensures DeltaWithinCumulative(s) ==> DeltaWithinCumulative(r)
  {
    if key in s.cumulative then
      // the increment since the last absolute value replaces any unreported one
      Maps(s.cumulative[key := aggr], s.delta[key := diff(s.cumulative[key], aggr)])
    else
      // first observation: the whole value is its own increment
      Maps(s.cumulative[key := aggr], s.delta[key := aggr])
  }

  /** Keys listed at most once. */
  ghost predicate Distinct<K>(keys: seq<K>)
  {
    forall i, j :: 0 <= i < j < |keys| ==> keys[i] != keys[j]
  }

  /** Record's loop run over the fresh aggregations `batch` in the visiting order `keys`. */
  function RecordAll<K, A>(diff: (A, A) -> A, s: Maps<K, A>, keys: seq<K>, batch: map<K, A>): (r: Maps<K, A>)
    requires forall i :: 0 <= i < |keys| ==> keys[i] in batch
    ensures DeltaWithinCumulative(s) ==> DeltaWithinCumulative(r)
    decreases |keys|
  {
    if keys == [] then s
    else
      var last := keys[|keys| - 1];
      RecordOne(diff, RecordAll(diff, s, keys[..|keys| - 1], batch), last, batch[last])
  }

  /** The part of `batch` whose keys are in `ks`. */
  function Restrict<K, A>(batch: map<K, A>, ks: set<K>): map<K, A>
  {
    map k | k in ks && k in batch :: batch[k]
  }

  /**
    What recording `batch` (attribute set to fresh aggregation) into `s`
    yields, attribute set by attribute set:
    - both domains grow by exactly the batch's attribute sets;
    - each batch attribute set's cumulative entry is its fresh aggregation;
    - its delta entry is the fresh aggregation when it was not in the cumulative
      map before, and `diff(previous, fresh)` when it was (replacing any unreported
      delta);
    - every other entry of both maps is unchanged.
   */
  ghost predicate Recorded<K, A>(diff: (A, A) -> A, s: Maps<K, A>, batch: map<K, A>, r: Maps<K, A>)
  {
    && r.cumulative.Keys == s.cumulative.Keys + batch.Keys
    && r.delta.Keys == s.delta.Keys + batch.Keys
    && BatchEntries(diff, s, batch, r)
    && OtherEntriesKept(s, batch, r)
  }

  /** The entries of the batch's attribute sets after recording it. */
  ghost predicate BatchEntries<K, A>(diff: (A, A) -> A, s: Maps<K, A>, batch: map<K, A>, r: Maps<K, A>)
    requires r.cumulative.Keys == s.cumulative.Keys + batch.Keys
    requires r.delta.Keys == s.delta.Keys + batch.Keys
  {
    && (forall k :: k in batch ==> r.cumulative[k] == batch[k])
    && (forall k :: k in batch && k !in s.cumulative ==> r.delta[k] == batch[k])
    && (forall k :: k in batch && k in s.cumulative ==> r.delta[k] == diff(s.cumulative[k], batch[k]))
  }

  /** The entries of every other attribute set are untouched. */
  ghost predicate OtherEntriesKept<K, A>(s: Maps<K, A>, batch: map<K, A>, r: Maps<K, A>)
    requires r.cumulative.Keys == s.cumulative.Keys + batch.Keys
    requires r.delta.Keys == s.delta.Keys + batch.Keys
  {
    && (forall k :: k in s.cumulative && k !in batch ==> r.cumulative[k] == s.cumulative[k])
    && (forall k :: k in s.delta && k !in batch ==> r.delta[k] == s.delta[k])
  }

  /** Recording a batch keeps the class invariant. */
  lemma RecordedKeepsInvariant<K, A>(diff: (A, A) -> A, s: Maps<K, A>, batch: map<K, A>, r: Maps<K, A>)
    requires DeltaWithinCumulative(s)
    requires Recorded(diff, s, batch, r)
    ensures DeltaWithinCumulative(r)
  {
  }

  /** One more loop iteration, on an attribute set not yet visited, extends the batch
      recorded so far by that attribute set. */
  lemma RecordOneExtends<K, A>(diff: (A, A) -> A, s: Maps<K, A>, batch: map<K, A>, r: Maps<K, A>, key: K, aggr: A)
    requires Recorded(diff, s, batch, r)
    requires key !in batch
    ensures Recorded(diff, s, batch[key := aggr], RecordOne(diff, r, key, aggr))
  {
    var next, extended := RecordOne(diff, r, key, aggr), batch[key := aggr];
    // `key` is outside the batch recorded so far, so `r` still holds its old entries
    assert key in r.cumulative <==> key in s.cumulative;
    assert key in s.cumulative ==> r.cumulative[key] == s.cumulative[key];
    assert next.cumulative.Keys == s.cumulative.Keys + extended.Keys;
    assert next.delta.Keys == s.delta.Keys + extended.Keys;
    forall k | k in extended && k in s.cumulative
      ensures next.delta[k] == diff(s.cumulative[k], extended[k])
    {
      if k != key {
        assert k in batch;
      }
    }
    forall k | k in extended && k !in s.cumulative
      ensures next.delta[k] == extended[k]
    {
      if k != key {
        assert k in batch;
      }
    }
    assert BatchEntries(diff, s, extended, next);
  }

  /** Visiting one more attribute set is one more loop iteration. */
  lemma RecordAllSnoc<K, A>(diff: (A, A) -> A, s: Maps<K, A>, keys: seq<K>, key: K, batch: map<K, A>)
    requires forall i :: 0 <= i < |keys| ==> keys[i] in batch
    requires key in batch
    ensures RecordAll(diff, s, keys + [key], batch) == RecordOne(diff, RecordAll(diff, s, keys, batch), key, batch[key])
  {
  }

  /** Restricting the batch to one more of its keys adds that key's entry. */
  lemma RestrictGrows<K, A>(batch: map<K, A>, ks: set<K>, key: K)
    requires key in batch
    ensures Restrict(batch, ks)[key := batch[key]] == Restrict(batch, ks + {key})
  {
  }

  /** The loop, run over distinct attribute sets of the batch, records exactly the
      part of the batch it has visited. */
  lemma {:induction false} RecordAllMeetsSpec<K, A>(diff: (A, A) -> A, s: Maps<K, A>, keys: seq<K>, batch: map<K, A>)
    requires Distinct(keys)
    requires forall i :: 0 <= i < |keys| ==> keys[i] in batch
    ensures Recorded(diff, s, Restrict(batch, set k | k in keys), RecordAll(diff, s, keys, batch))
    decreases |keys|
  {
    if keys == [] {
      assert Restrict(batch, set k | k in keys) == map[];
    } else {
      var init, last := keys[..|keys| - 1], keys[|keys| - 1];
      var visited := set k | k in init;
      assert (set k | k in keys) == visited + {last} by {
        assert keys == init + [last];
      }
      assert last !in visited by {
        forall i | 0 <= i < |init| ensures init[i] != last {
          assert keys[i] == init[i];
        }
      }
      RecordAllMeetsSpec(diff, s, init, batch);
      RecordOneExtends(diff, s, Restrict(batch, visited), RecordAll(diff, s, init, batch), last, batch[last]);
      RestrictGrows(batch, visited, last);
    }
  }

  /** A loop that has visited every attribute set of the batch once has recorded
      the whole batch. */
  lemma RecordAllCoversBatch<K, A>(diff: (A, A) -> A, s: Maps<K, A>, keys: seq<K>, batch: map<K, A>)
    requires Distinct(keys) && (set k | k in keys) == batch.Keys
    ensures forall i :: 0 <= i < |keys| ==> keys[i] in batch
    ensures Recorded(diff, s, batch, RecordAll(diff, s, keys, batch))
  {
    assert forall i :: 0 <= i < |keys| ==> keys[i] in batch;
    RecordAllMeetsSpec(diff, s, keys, batch);
    assert Restrict(batch, batch.Keys) == batch;
  }

  /** Two outcomes that both meet the key-wise specification of one batch are equal. */
  lemma RecordedUnique<K, A>(diff: (A, A) -> A, s: Maps<K, A>, batch: map<K, A>, r1: Maps<K, A>, r2: Maps<K, A>)
    requires Recorded(diff, s, batch, r1) && Recorded(diff, s, batch, r2)
    ensures r1 == r2
  {
  }

  /** The measurements of a batch have distinct attribute sets, so the order in
      which the loop visits them does not change the outcome. */
  lemma RecordOrderIrrelevant<K, A>(diff: (A, A) -> A, s: Maps<K, A>, batch: map<K, A>, keys1: seq<K>, keys2: seq<K>)
    requires Distinct(keys1) && (set k | k in keys1) == batch.Keys
    requires Distinct(keys2) && (set k | k in keys2) == batch.Keys
    ensures RecordAll(diff, s, keys1, batch) == RecordAll(diff, s, keys2, batch)
  {
    RecordAllCoversBatch(diff, s, keys1, batch);
    RecordAllCoversBatch(diff, s, keys2, batch);
    RecordedUnique(diff, s, batch, RecordAll(diff, s, keys1, batch), RecordAll(diff, s, keys2, batch));
  }

  /** Collect's effect on the maps: the delta map is handed over and replaced by an
      empty one; the cumulative map stays. */
  function AfterCollect<K, A>(s: Maps<K, A>): (r: Maps<K, A>)
    ensures DeltaWithinCumulative(r)
  {
    s.(delta := map[])
  }

  /** Two observations of one attribute set with no Collect in between leave only
      the increment between them unreported: the earlier increment is replaced,
      not combined. */
  lemma UnreportedDeltaReplaced<K, A>(diff: (A, A) -> A, s: Maps<K, A>, key: K, first: A, second: A)
    ensures RecordOne(diff, RecordOne(diff, s, key, first), key, second).delta[key] == diff(first, second)
  {
  }
}
