/**
 * The derived figures of the dashboard's statistics cards
 * (src/components/dashboard/StatsCards.tsx): the day streak, computed after
 * sorting the caller's array in place newest first, and the trend, computed
 * afterwards on that same array.
 */
module StatsCards {
  import opened Types
  import opened Sequences

  /** Some entry falls on the given calendar day. */
  ghost predicate HasEntryOn(s: seq<MoodEntry>, day: int) {
    exists e :: e in s && DayOf(e.date) == day
  }

  /** The streak loop over entries in the given order: an entry on the cursor
      day counts and moves the cursor back a day, an entry after the cursor day
      is skipped, an entry before it ends the scan. */
  function ScanFrom(s: seq<MoodEntry>, cursor: int): (r: nat)
    ensures r <= |s|
  {
    if s == [] then 0
    else if DayOf(s[0].date) == cursor then 1 + ScanFrom(s[1..], cursor - 1)
    else if DayOf(s[0].date) < cursor then 0
    else ScanFrom(s[1..], cursor)
  }

  /** On entries sorted newest first, every day from the cursor back to the
      day before the scan stopped carries an entry. */
  lemma {:induction false} ScanRunCovered(s: seq<MoodEntry>, cursor: int)
    ensures forall d :: cursor - ScanFrom(s, cursor) < d <= cursor ==> HasEntryOn(s, d)
  {
    if s != [] {
      var head, rest := s[0], s[1..];
      if DayOf(head.date) == cursor {
        ScanRunCovered(rest, cursor - 1);
        assert ScanFrom(s, cursor) == 1 + ScanFrom(rest, cursor - 1);
        forall d | cursor - ScanFrom(s, cursor) < d <= cursor ensures HasEntryOn(s, d) {
          if d == cursor {
            assert head in s;
          } else {
            assert HasEntryOn(rest, d);
            var e :| e in rest && DayOf(e.date) == d;
            assert e in s;
          }
        }
      } else if DayOf(head.date) > cursor {
        ScanRunCovered(rest, cursor);
        assert ScanFrom(s, cursor) == ScanFrom(rest, cursor);
        forall d | cursor - ScanFrom(s, cursor) < d <= cursor ensures HasEntryOn(s, d) {
          assert HasEntryOn(rest, d);
          var e :| e in rest && DayOf(e.date) == d;
          assert e in s;
        }
      }
    }
  }

  /** On entries sorted newest first, the day where the scan stopped carries
      no entry. */
  lemma {:induction false} ScanRunEnds(s: seq<MoodEntry>, cursor: int)
    requires SortedBy(s, NewestFirst)
    ensures !HasEntryOn(s, cursor - ScanFrom(s, cursor))
  {
    if s != [] {
      var head, rest := s[0], s[1..];
      var d := DayOf(head.date);
      if d < cursor {
        forall e | e in s ensures DayOf(e.date) < cursor {
          var k :| 0 <= k < |s| && s[k] == e;
          if k > 0 {
            assert NewestFirst(s[0]) <= NewestFirst(s[k]);
            DayOfMonotone(e.date, head.date);
          }
        }
      } else {
        var c' := if d == cursor then cursor - 1 else cursor;
        ScanRunEnds(rest, c');
        assert cursor - ScanFrom(s, cursor) == c' - ScanFrom(rest, c');
        forall e | e in s ensures DayOf(e.date) != c' - ScanFrom(rest, c') {
          if e != head {
            assert e in rest;
          }
        }
      }
    }
  }

  /** On entries sorted newest first, the scan counts the consecutive days,
      ending at the cursor day, that each carry an entry, and stops at the
      first day without one. */
  lemma ScanCountsRun(s: seq<MoodEntry>, cursor: int)
    requires SortedBy(s, NewestFirst)
    ensures forall d :: cursor - ScanFrom(s, cursor) < d <= cursor ==> HasEntryOn(s, d)
    ensures !HasEntryOn(s, cursor - ScanFrom(s, cursor))
  {
    ScanRunCovered(s, cursor);
    ScanRunEnds(s, cursor);
  }

  /** The days `today, today - 1, ..., today - (r - 1)`. */
  ghost function RunDays(today: int, r: nat): (days: set<int>)
    ensures |days| == r
    ensures forall d :: d in days <==> today - r < d <= today
  {
    if r == 0 then {}
    else
      assert today - (r - 1) !in RunDays(today, r - 1);
      RunDays(today, r - 1) + {today - (r - 1)}
  }

  ghost function DaysOf(s: seq<MoodEntry>): set<int> {
    set e | e in s :: DayOf(e.date)
  }

  /** A streak never exceeds the number of distinct days with an entry. */
  lemma StreakWithinDistinctDays(s: seq<MoodEntry>, today: int)
    ensures ScanFrom(s, today) <= |DaysOf(s)| <= |s|
  {
    var r := ScanFrom(s, today);
    ScanRunCovered(s, today);
    forall d | d in RunDays(today, r) ensures d in DaysOf(s) {
      assert HasEntryOn(s, d);
      var e :| e in s && DayOf(e.date) == d;
    }
    SubsetCardinality(RunDays(today, r), DaysOf(s));
    DaysOfSize(s);
  }

  lemma SubsetCardinality(a: set<int>, b: set<int>)
    requires a <= b
    ensures |a| <= |b|
  {
    assert b == a + (b - a);
  }

  lemma {:induction false} DaysOfSize(s: seq<MoodEntry>)
    ensures |DaysOf(s)| <= |s|
  {
    if s != [] {
      var rest := s[1..];
      DaysOfSize(rest);
      assert s == [s[0]] + rest;
      assert DaysOf(s) == DaysOf(rest) + {DayOf(s[0].date)};
    }
  }

  /** Entries that are permutations of each other cover the same days. */
  lemma SameDays(a: seq<MoodEntry>, b: seq<MoodEntry>, day: int)
    requires multiset(a) == multiset(b)
    ensures HasEntryOn(a, day) <==> HasEntryOn(b, day)
  {
    if HasEntryOn(a, day) {
      var e :| e in a && DayOf(e.date) == day;
      assert e in multiset(b);
    }
    if HasEntryOn(b, day) {
      var e :| e in b && DayOf(e.date) == day;
      assert e in multiset(a);
    }
  }

  /** `calculateStreak`: sorts the caller's array in place, newest first, then
      walks it backwards from today's date. The streak is the number of
      consecutive days ending today that carry an entry. */
  method CalculateStreak(entries: array<MoodEntry>, now: Timestamp) returns (streak: nat)
    modifies entries
    ensures entries[..] == if entries.Length == 0 then old(entries[..])
                           else StableSort(old(entries[..]), NewestFirst)
    ensures streak == ScanFrom(entries[..], DayOf(now))
    ensures forall d :: DayOf(now) - streak < d <= DayOf(now) ==> HasEntryOn(old(entries[..]), d)
    ensures !HasEntryOn(old(entries[..]), DayOf(now) - streak)
  {
    if entries.Length == 0 {
      return 0;
    }
    ghost var input := entries[..];
    SortInPlace(entries, NewestFirst);
    ghost var sorted := entries[..];
    streak := 0;
    var cursor := DayOf(now);
    var i := 0;
    while i < entries.Length
      invariant 0 <= i <= entries.Length
      invariant entries[..] == sorted
      invariant cursor == DayOf(now) - streak
      invariant streak + ScanFrom(sorted[i..], cursor) == ScanFrom(sorted, DayOf(now))
    {
      assert sorted[i..][1..] == sorted[i + 1..];
      var entryDay := DayOf(entries[i].date);
      if entryDay == cursor {
        streak := streak + 1;
        cursor := cursor - 1;
      } else if entryDay < cursor {
        break;
      }
      i := i + 1;
    }
    assert sorted[..] == sorted[0..];
    StableSortSorted(input, NewestFirst);
    StableSortPermutes(input, NewestFirst);
    ScanCountsRun(sorted, DayOf(now));
    forall d | DayOf(now) - streak <= d <= DayOf(now)
      ensures HasEntryOn(input, d) <==> HasEntryOn(sorted, d)
    {
      SameDays(input, sorted, d);
    }
  }

  /** No streak without an entry today. */
  lemma StreakNeedsToday(s: seq<MoodEntry>, today: int)
    requires SortedBy(s, NewestFirst)
    ensures ScanFrom(s, today) > 0 <==> HasEntryOn(s, today)
  {
    ScanCountsRun(s, today);
  }

  /** `calculateTrend`: the mean mood of the last three positions minus the
      mean of the up to three positions before them; 0 when either group is empty. */
  function Trend(s: seq<MoodEntry>): (r: real)
    ensures |s| < 4 ==> r == 0.0
    ensures |s| >= 4 ==>
      var older := s[if |s| >= 6 then |s| - 6 else 0..|s| - 3];
      |older| > 0 && r == Mean(s[|s| - 3..]) - Mean(older)
  {
    if |s| < 2 then 0.0
    else
      var recent := Slice(s, -3, |s|);
      var older := Slice(s, -6, -3);
      assert |s| >= 4 ==> recent == s[|s| - 3..] && older == s[if |s| >= 6 then |s| - 6 else 0..|s| - 3];
      assert |s| < 4 ==> older == [];
      if |recent| == 0 || |older| == 0 then 0.0
      else Mean(recent) - Mean(older)
  }

  /** With moods on the 1-5 scale, the trend lies in [-4, 4]. */
  lemma TrendBounded(s: seq<MoodEntry>)
    requires MoodsOnScale(s)
    ensures -4.0 <= Trend(s) <= 4.0
  {
    if |s| >= 4 {
      var older := s[if |s| >= 6 then |s| - 6 else 0..|s| - 3];
      MeanOnScale(s[|s| - 3..]);
      MeanOnScale(older);
    }
  }

  /** Positions before the last six never affect the trend. */
  lemma TrendIgnoresEarlierEntries(prefix: seq<MoodEntry>, s: seq<MoodEntry>)
    requires |s| >= 6
    ensures Trend(prefix + s) == Trend(s)
  {
    var t := prefix + s;
    assert t[|t| - 3..] == s[|s| - 3..];
    assert t[|t| - 6..|t| - 3] == s[|s| - 6..|s| - 3];
  }

  /** The three figures `StatsCards` renders besides the average: the count of
      entries, the streak, and the trend computed on the array the streak just
      sorted newest first. */
  method StatsCardsFigures(entries: array<MoodEntry>, now: Timestamp)
    returns (total: nat, streak: nat, trend: real)
    modifies entries
    ensures total == entries.Length
    ensures entries[..] == if entries.Length == 0 then old(entries[..])
                           else StableSort(old(entries[..]), NewestFirst)
    ensures streak == ScanFrom(entries[..], DayOf(now))
    ensures forall d :: DayOf(now) - streak < d <= DayOf(now) ==> HasEntryOn(old(entries[..]), d)
    ensures !HasEntryOn(old(entries[..]), DayOf(now) - streak)
    ensures trend == Trend(StableSort(old(entries[..]), NewestFirst))
  {
    total := entries.Length;
    streak := CalculateStreak(entries, now);
    trend := Trend(entries[..]);
  }

  /** The figures with the trend taken before the streak reorders the array:
      on input oldest first, as the dashboard passes it, the trend compares
      the latest three check-ins with the three before them. */
  method CorrectedStatsCardsFigures(entries: array<MoodEntry>, now: Timestamp)
    returns (total: nat, streak: nat, trend: real)
    modifies entries
    ensures total == entries.Length
    ensures entries[..] == if entries.Length == 0 then old(entries[..])
                           else StableSort(old(entries[..]), NewestFirst)
    ensures streak == ScanFrom(entries[..], DayOf(now))
    ensures forall d :: DayOf(now) - streak < d <= DayOf(now) ==> HasEntryOn(old(entries[..]), d)
    ensures !HasEntryOn(old(entries[..]), DayOf(now) - streak)
    ensures trend == Trend(old(entries[..]))
    ensures SortedBy(old(entries[..]), OldestFirst) ==> trend == IntendedTrend(old(entries[..]))
  {
    total := entries.Length;
    trend := Trend(entries[..]);
    if SortedBy(entries[..], OldestFirst) {
      IntendedTrendOfSorted(entries[..]);
    }
    streak := CalculateStreak(entries, now);
  }

  /** As rendered: after the in-place sort the last three positions, which
      the trend treats as "recent", hold the oldest entries. */
  lemma RenderedTrendRecentAreOldest(s: seq<MoodEntry>)
    ensures var t := StableSort(s, NewestFirst);
      forall i, j :: 0 <= j < |t| - 3 <= i < |t| ==> t[i].date <= t[j].date
  {
    StableSortSorted(s, NewestFirst);
  }

  /** A mood entry on the given day with the given mood and no other data. */
  function Sample(day: int, mood: real): MoodEntry {
    MoodEntry("", day * MsPerDay, mood, "", None, None, None, None, None)
  }

  /** Six days of check-ins with moods 2, 3, 4, 5, 4, 3, oldest first, as the
      dashboard receives them. */
  const RisingWeek: seq<MoodEntry> :=
    [Sample(0, 2.0), Sample(1, 3.0), Sample(2, 4.0), Sample(3, 5.0), Sample(4, 4.0), Sample(5, 3.0)]

  /** The rendered trend of the rising week is -1.0: its sign is inverted. */
  lemma RenderedTrendInverted()
    ensures Trend(StableSort(RisingWeek, NewestFirst)) == -1.0
  {
    var s := RisingWeek;
    assert forall i, j :: 0 <= i < j < |s| ==> NewestFirst(s[i]) > NewestFirst(s[j]);
    StableSortOfStrictlyDecreasing(s, NewestFirst);
    var t := Reverse(s);
    assert t[3..] == [s[2], s[1], s[0]];
    assert t[0..3] == [s[5], s[4], s[3]];
    MeanOfThree(t[3..]);
    MeanOfThree(t[0..3]);
  }

  /** The mean of three moods does not depend on their order. */
  lemma MeanOfReversedThree(x: seq<MoodEntry>, y: seq<MoodEntry>)
    requires |x| == 3 && |y| == 3
    requires y[0] == x[2] && y[1] == x[1] && y[2] == x[0]
    ensures Mean(y) == Mean(x)
  {
    MeanOfThree(x);
    MeanOfThree(y);
  }

  lemma TrendOfSix(t: seq<MoodEntry>)
    requires |t| == 6
    ensures Trend(t) == Mean(t[3..]) - Mean(t[0..3])
  {
  }

  /** Reversing six entries swaps the two groups the trend compares. */
  lemma TrendOfReversedSix(s: seq<MoodEntry>)
    requires |s| == 6
    ensures Trend(Reverse(s)) == Mean(s[0..3]) - Mean(s[3..])
  {
    var t := Reverse(s);
    TrendOfSix(t);
    MeanOfReversedThree(s[0..3], t[3..]);
    MeanOfReversedThree(s[3..], t[0..3]);
  }

  /** For any six check-ins on distinct times, received oldest first as the
      history query returns them, the rendered trend is the negation of the
      intended one. */
  lemma RenderedTrendNegatesIntended(s: seq<MoodEntry>)
    requires |s| == 6
    requires forall i, j :: 0 <= i < j < |s| ==> s[i].date < s[j].date
    ensures Trend(StableSort(s, NewestFirst)) == -IntendedTrend(s)
  {
    assert forall i, j :: 0 <= i < j < |s| ==> NewestFirst(s[i]) > NewestFirst(s[j]);
    StableSortOfStrictlyDecreasing(s, NewestFirst);
    TrendOfReversedSix(s);
    assert SortedBy(s, OldestFirst);
    IntendedTrendOfSorted(s);
  }

  /** The trend as evidently intended: computed on the entries oldest first,
      so that "recent" means the latest three check-ins. */
  function IntendedTrend(s: seq<MoodEntry>): (r: real)
    ensures |s| < 4 ==> r == 0.0
  {
    Trend(StableSort(s, OldestFirst))
  }

  /** In the intended trend the "recent" group holds the latest entries. */
  lemma IntendedTrendRecentAreLatest(s: seq<MoodEntry>)
    ensures var t := StableSort(s, OldestFirst);
      forall i, j :: 0 <= j < |t| - 3 <= i < |t| ==> t[j].date <= t[i].date
  {
    StableSortSorted(s, OldestFirst);
  }

  /** On input already oldest first, the intended trend is the plain trend. */
  lemma IntendedTrendOfSorted(s: seq<MoodEntry>)
    requires SortedBy(s, OldestFirst)
    ensures IntendedTrend(s) == Trend(s)
  {
    StableSortOfSorted(s, OldestFirst);
  }

  /** The intended trend of the rising week is +1.0. */
  lemma IntendedTrendRising()
    ensures IntendedTrend(RisingWeek) == 1.0
  {
    var s := RisingWeek;
    assert SortedBy(s, OldestFirst);
    IntendedTrendOfSorted(s);
    MeanOfThree(s[3..]);
    MeanOfThree(s[0..3]);
  }
}
