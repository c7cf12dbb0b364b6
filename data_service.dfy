/**
 * The mood journal (src/services/dataService.ts): a list of check-ins kept
 * under one storage key and appended to on each save, and the queries the
 * dashboard runs over it - the recent history, its rounded average and the
 * check-in of the current day.
 */
module DataService {
  import opened Types
  import opened Sequences

  /** The storage slot `serenity_mood_data`; it holds nothing until the first save. */
  class MoodStore {
    var slot: Option<seq<MoodEntry>>

    constructor ()
      ensures slot == None
    {
      slot := None;
    }

    /** `getMoodEntries`: the stored list, or no entries when the slot is empty. */
    function Entries(): (r: seq<MoodEntry>)
      reads this
      ensures slot.None? ==> r == []
      ensures slot.Some? ==> r == slot.value
    {
      slot.GetOr([])
    }

    /** `saveMoodEntry`: stamps the draft with `id` (the clock reading as a
        decimal string) and writes the stored list back with it appended. */
    method SaveMoodEntry(draft: MoodEntry, id: string) returns (saved: MoodEntry)
      modifies this
      ensures saved == draft.(id := id)
      ensures slot == Some(old(Entries()) + [saved])
      ensures Entries() == old(Entries()) + [saved]
    {
      var entries := Entries();
      saved := draft.(id := id);
      entries := entries + [saved];
      slot := Some(entries);
    }
  }

  /** The cutoff of `getMoodHistory(days)`: the current time moved back by `days`
      days, which lies exactly `days` calendar days back, at the same time of day. */
  function HistoryCutoff(now: Timestamp, days: int): (r: Timestamp)
    ensures DayOf(r) == DayOf(now) - days
    ensures r % MsPerDay == now % MsPerDay
  {
    DayOfShift(now, days);
    now - days * MsPerDay
  }

  /** `getMoodHistory(days)`: the entries dated at or after the cutoff, oldest first. */
  function MoodHistory(entries: seq<MoodEntry>, now: Timestamp, days: int): (r: seq<MoodEntry>)
    ensures SortedBy(r, OldestFirst)
    ensures forall i :: 0 <= i < |r| ==> r[i] in entries && r[i].date >= HistoryCutoff(now, days)
    ensures forall i :: 0 <= i < |entries| && entries[i].date >= HistoryCutoff(now, days) ==> entries[i] in r
  {
    SortedWindow(entries, OldestFirst, HistoryCutoff(now, days))
  }

  /** The history holds every recent entry as often as it was stored. */
  lemma HistoryCountsRecentEntries(entries: seq<MoodEntry>, now: Timestamp, days: int)
    ensures multiset(MoodHistory(entries, now, days))
         == multiset(AtOrAfter(entries, OldestFirst, HistoryCutoff(now, days)))
  {
    SortedWindowCounts(entries, OldestFirst, HistoryCutoff(now, days));
  }

  /** Entries saved with the same timestamp keep the order they were saved in. */
  lemma HistoryKeepsSaveOrderOnTies(entries: seq<MoodEntry>, now: Timestamp, days: int, t: Timestamp)
    requires t >= HistoryCutoff(now, days)
    ensures WithKey(MoodHistory(entries, now, days), OldestFirst, t) == WithKey(entries, OldestFirst, t)
  {
    SortedWindowStable(entries, OldestFirst, HistoryCutoff(now, days), t);
  }

  /** Taking the history of a history changes nothing. */
  lemma MoodHistoryIdempotent(entries: seq<MoodEntry>, now: Timestamp, days: int)
    ensures MoodHistory(MoodHistory(entries, now, days), now, days) == MoodHistory(entries, now, days)
  {
    SortedWindowIdempotent(entries, OldestFirst, HistoryCutoff(now, days));
  }

  /** `x` is a whole number of tenths. */
  predicate WholeTenths(x: real) {
    (x * 10.0).Floor as real == x * 10.0
  }

  /** `Math.round(x * 10) / 10`: the nearest tenth, halves rounded up. */
  function RoundToTenth(x: real): (r: real)
    ensures x - 0.05 < r <= x + 0.05
    ensures WholeTenths(r)
  {
    (x * 10.0 + 0.5).Floor as real / 10.0
  }

  /** Rounding keeps a figure on the 1-5 scale on it. */
  lemma RoundToTenthOnScale(x: real)
    requires 1.0 <= x <= 5.0
    ensures 1.0 <= RoundToTenth(x) <= 5.0
  {
    var k := (x * 10.0 + 0.5).Floor;
    assert 10 <= k <= 50;
  }

  /** The figure `getAverageMood` reports for a history: 0 when it is empty,
      otherwise its mean mood rounded to the nearest tenth. */
  function AverageOf(h: seq<MoodEntry>): (r: real)
    ensures |h| == 0 ==> r == 0.0
    ensures |h| > 0 ==> Mean(h) - 0.05 < r <= Mean(h) + 0.05 && WholeTenths(r)
  {
    if |h| == 0 then 0.0 else RoundToTenth(Mean(h))
  }

  lemma TenthsIdentity(sum: real, n: real)
    requires n > 0.0
    ensures (sum / n) * 10.0 + 0.5 == (20.0 * sum + n) / (2.0 * n)
  {
    var q := sum / n;
    assert sum == q * n;
    var x, d := q * 10.0 + 0.5, 2.0 * n;
    assert 20.0 * sum + n == x * d;
    assert (x * d) / d == x;
  }

  /** The whole part of (20 * sum + n) / (2 * n) for the n moods of a non-empty list. */
  function HalfUpTenths(h: seq<MoodEntry>): int
    requires |h| > 0
  {
    ((20.0 * MoodSum(h) + |h| as real) / (2.0 * |h| as real)).Floor
  }

  /** In tenths, the figure is the whole part of (20 * sum + n) / (2 * n) for n moods. */
  lemma AverageInTenths(h: seq<MoodEntry>)
    requires |h| > 0
    ensures AverageOf(h) * 10.0 == HalfUpTenths(h) as real
  {
    TenthsIdentity(MoodSum(h), |h| as real);
  }

  /** `getAverageMood(days)`: the figure for the history of the last `days` days,
      0 when it is empty and otherwise its mean mood rounded to the nearest tenth,
      halves up: a whole number of tenths within half a tenth of the mean. */
  function AverageMood(entries: seq<MoodEntry>, now: Timestamp, days: int): (r: real)
    ensures var h := MoodHistory(entries, now, days);
      (|h| == 0 ==> r == 0.0) &&
      (|h| > 0 ==> Mean(h) - 0.05 < r <= Mean(h) + 0.05 && WholeTenths(r))
  {
    AverageOf(MoodHistory(entries, now, days))
  }

  /** In tenths, `getAverageMood` is the whole part of (20 * sum + n) / (2 * n)
      over the n moods of the history. */
  lemma AverageMoodInTenths(entries: seq<MoodEntry>, now: Timestamp, days: int)
    requires |MoodHistory(entries, now, days)| > 0
    ensures AverageMood(entries, now, days) * 10.0 == HalfUpTenths(MoodHistory(entries, now, days)) as real
  {
    var h := MoodHistory(entries, now, days);
    assert AverageMood(entries, now, days) == AverageOf(h);
    AverageInTenths(h);
  }

  /** Every entry of the history comes from the store, so moods on the scale stay on it. */
  lemma HistoryOnScale(entries: seq<MoodEntry>, now: Timestamp, days: int)
    requires MoodsOnScale(entries)
    ensures MoodsOnScale(MoodHistory(entries, now, days))
  {
    var h := MoodHistory(entries, now, days);
    forall i | 0 <= i < |h| ensures 1.0 <= h[i].mood <= 5.0 {
      var j :| 0 <= j < |entries| && entries[j] == h[i];
    }
  }

  /** With moods on the 1-5 scale the average is on the scale exactly when
      there is recent history, and 0 exactly when there is none. */
  lemma AverageMoodOnScale(entries: seq<MoodEntry>, now: Timestamp, days: int)
    requires MoodsOnScale(entries)
    ensures var h := MoodHistory(entries, now, days);
      var r := AverageMood(entries, now, days);
      (|h| > 0 ==> 1.0 <= r <= 5.0) && (r == 0.0 <==> |h| == 0)
  {
    var h := MoodHistory(entries, now, days);
    if |h| > 0 {
      HistoryOnScale(entries, now, days);
      MeanOnScale(h);
      RoundToTenthOnScale(Mean(h));
    }
  }

  /** Averaging the history again gives the same figure. */
  lemma AverageOfHistory(entries: seq<MoodEntry>, now: Timestamp, days: int)
    ensures AverageMood(MoodHistory(entries, now, days), now, days) == AverageMood(entries, now, days)
  {
    MoodHistoryIdempotent(entries, now, days);
  }

  /** `getTodayEntry`: the first stored entry dated on the current calendar day. */
  function TodayEntry(entries: seq<MoodEntry>, now: Timestamp): (r: Option<MoodEntry>)
    ensures r.None? <==> forall i :: 0 <= i < |entries| ==> DayOf(entries[i].date) != DayOf(now)
    ensures r.Some? ==> exists k :: 0 <= k < |entries| && entries[k] == r.value
                          && DayOf(r.value.date) == DayOf(now)
                          && forall j :: 0 <= j < k ==> DayOf(entries[j].date) != DayOf(now)
  {
    FindFirst(entries, (e: MoodEntry) => DayOf(e.date) == DayOf(now))
  }

  /** Once a day has a check-in, later saves do not change the one reported. */
  lemma TodayEntryKeepsFirst(entries: seq<MoodEntry>, e: MoodEntry, now: Timestamp)
    requires TodayEntry(entries, now).Some?
    ensures TodayEntry(entries + [e], now) == TodayEntry(entries, now)
  {
    var s := entries + [e];
    var x := TodayEntry(entries, now).value;
    var k :| 0 <= k < |entries| && entries[k] == x && DayOf(x.date) == DayOf(now)
             && forall j :: 0 <= j < k ==> DayOf(entries[j].date) != DayOf(now);
    assert s[k] == x;
    var r := TodayEntry(s, now);
    assert r.Some?;
    var y := r.value;
    var k' :| 0 <= k' < |s| && s[k'] == y && DayOf(y.date) == DayOf(now)
              && forall j :: 0 <= j < k' ==> DayOf(s[j].date) != DayOf(now);
    if k' != k {
      assert false;
    }
  }

  /** The first save dated on the current day becomes the day's check-in. */
  lemma TodayEntryAfterFirstSave(entries: seq<MoodEntry>, e: MoodEntry, now: Timestamp)
    requires TodayEntry(entries, now).None?
    requires DayOf(e.date) == DayOf(now)
    ensures TodayEntry(entries + [e], now) == Some(e)
  {
    var s := entries + [e];
    assert DayOf(s[|entries|].date) == DayOf(now);
    var r := TodayEntry(s, now);
    assert r.Some?;
    var k :| 0 <= k < |s| && s[k] == r.value && DayOf(r.value.date) == DayOf(now)
             && forall j :: 0 <= j < k ==> DayOf(s[j].date) != DayOf(now);
    if k < |entries| {
      assert DayOf(entries[k].date) != DayOf(now);
    }
  }
}
