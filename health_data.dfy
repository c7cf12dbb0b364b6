/**
 * The health-metrics hook (src/hooks/useHealthData.ts): the metrics list
 * held as component state and mirrored to the storage slot
 * `serenity_health_data`, with today's record and the last week's records
 * derived from it.
 */
module HealthData {
  import opened Types
  import opened Sequences

  class HealthStore {
    /** The storage slot; none until something is written. */
    var storage: Option<seq<HealthMetrics>>
    /** The `metrics` state. */
    var metrics: seq<HealthMetrics>
    var loading: bool

    /** The hook's first render: empty state, still loading. */
    constructor (stored: Option<seq<HealthMetrics>>)
      ensures storage == stored && metrics == [] && loading
    {
      storage := stored;
      metrics := [];
      loading := true;
    }

    /** The mount effect: the state takes the stored list, or none when nothing is stored. */
    method Load()
      modifies this
      ensures metrics == old(storage).GetOr([])
      ensures old(storage).None? ==> metrics == []
      ensures storage == old(storage) && !loading
    {
      metrics := storage.GetOr([]);
      loading := false;
    }

    /** `addMetrics`: appends the draft, stamped with `id`, to the state and
        writes the new state to storage. */
    method AddMetrics(draft: HealthMetrics, id: string)
      modifies this
      ensures metrics == old(metrics) + [draft.(id := id)]
      ensures storage == Some(metrics)
      ensures loading == old(loading)
    {
      var entry := draft.(id := id);
      var updated := metrics + [entry];
      metrics := updated;
      storage := Some(updated);
    }

    /** `getTodayMetrics`: the first record dated on the current calendar day. */
    function TodayMetrics(now: Timestamp): (r: Option<HealthMetrics>)
      reads this
      ensures r.None? <==> forall i :: 0 <= i < |metrics| ==> DayOf(metrics[i].date) != DayOf(now)
      ensures r.Some? ==> exists k :: 0 <= k < |metrics| && metrics[k] == r.value
                            && DayOf(r.value.date) == DayOf(now)
                            && forall j :: 0 <= j < k ==> DayOf(metrics[j].date) != DayOf(now)
    {
      FindFirst(metrics, (m: HealthMetrics) => DayOf(m.date) == DayOf(now))
    }

    /** `getWeeklyMetrics`: the records dated at or after seven days ago, oldest first. */
    function WeeklyMetrics(now: Timestamp): (r: seq<HealthMetrics>)
      reads this
      ensures |r| <= |metrics|
      ensures SortedBy(r, MetricsDate)
      ensures forall i :: 0 <= i < |r| ==> r[i] in metrics && r[i].date >= now - 7 * MsPerDay
      ensures forall i :: 0 <= i < |metrics| && metrics[i].date >= now - 7 * MsPerDay ==> metrics[i] in r
    {
      SortedWindow(metrics, MetricsDate, now - 7 * MsPerDay)
    }
  }

  /** Loading and then adding leaves the stored list grown by exactly the new record. */
  method LoadThenAdd(store: HealthStore, draft: HealthMetrics, id: string)
    modifies store
    ensures store.storage == Some(old(store.storage).GetOr([]) + [draft.(id := id)])
    ensures store.metrics == store.storage.value
  {
    store.Load();
    store.AddMetrics(draft, id);
  }

  /** A record added before the stored list is loaded replaces that list in storage. */
  method AddBeforeLoad(stored: seq<HealthMetrics>, draft: HealthMetrics, id: string)
    returns (store: HealthStore)
    ensures store.storage == Some([draft.(id := id)])
  {
    store := new HealthStore(Some(stored));
    store.AddMetrics(draft, id);
    assert [] + [draft.(id := id)] == [draft.(id := id)];
  }
}
