/**
 * The records shared by the wellness client (src/types/index.ts), with the
 * host environment's clock reduced to integer timestamps.
 */
module Types {

  datatype Option<+T> = None | Some(value: T) {
    function GetOr(default: T): T {
      match this
      case Some(v) => v
      case None => default
    }
  }

  /** Milliseconds since the epoch, as `new Date(s).getTime()` yields them. */
  type Timestamp = int

  const MsPerDay: int := 86_400_000

  /** The fixed offset of local time from UTC; daylight-saving changes are not modelled. */
  const LocalOffsetMs: int := 0

  /** The local calendar day a timestamp falls on (what `toDateString` and
      `setHours(0, 0, 0, 0)` both reduce a date to). */
  function DayOf(t: Timestamp): int {
    (t + LocalOffsetMs) / MsPerDay
  }

  lemma DayOfMonotone(t1: Timestamp, t2: Timestamp)
    requires t1 <= t2
    ensures DayOf(t1) <= DayOf(t2)
  {
  }

  /** Moving a timestamp back by whole days moves its calendar day back by as many. */
  lemma DayOfShift(t: Timestamp, k: int)
    ensures DayOf(t - k * MsPerDay) == DayOf(t) - k
  {
    var u := t + LocalOffsetMs;
    var q, r := u / MsPerDay, u % MsPerDay;
    assert u == q * MsPerDay + r && 0 <= r < MsPerDay;
    assert u - k * MsPerDay == (q - k) * MsPerDay + r;
  }

  datatype UserRole = Student | Teacher | Employee | BusinessOwner

  datatype Sentiment = Positive | Negative | Neutral

  /** A mood check-in; `mood` is a number on the 1-5 scale. */
  datatype MoodEntry = MoodEntry(
    id: string,
    date: Timestamp,
    mood: real,
    emoji: string,
    description: Option<string>,
    sentiment: Option<Sentiment>,
    emotions: Option<seq<string>>,
    aiInsights: Option<string>,
    recommendedActions: Option<seq<string>>)

  /** Sort key of the comparator `(a, b) => date(a) - date(b)`: oldest first. */
  function OldestFirst(e: MoodEntry): int { e.date }

  /** Sort key of the comparator `(a, b) => date(b) - date(a)`: newest first. */
  function NewestFirst(e: MoodEntry): int { -e.date }

  datatype Category = Breathing | Movement | Mindfulness | Creative | Social | Games

  datatype SelfCareActivity = SelfCareActivity(
    id: string,
    title: string,
    description: string,
    category: Category,
    duration: string,
    icon: string,
    moodTarget: seq<int>,
    userTypes: seq<UserRole>)

  datatype BloodPressure = BloodPressure(systolic: real, diastolic: real)

  datatype MetricsSource = Manual | AppleHealth | GoogleFit | Fitbit | Garmin

  datatype HealthMetrics = HealthMetrics(
    id: string,
    date: Timestamp,
    steps: Option<real>,
    heartRate: Option<real>,
    bloodPressure: Option<BloodPressure>,
    oxygenSaturation: Option<real>,
    sleepHours: Option<real>,
    activeMinutes: Option<real>,
    source: MetricsSource)

  function MetricsDate(m: HealthMetrics): int { m.date }

  datatype Theme = Light | Dark

  datatype WatchType = Apple | Google | FitbitWatch | GarminWatch

  datatype Preferences = Preferences(
    theme: Theme,
    notifications: bool,
    reminderTime: string,
    smartWatchConnected: bool,
    smartWatchType: Option<WatchType>)

  datatype UserProfile = UserProfile(
    id: string,
    name: string,
    role: UserRole,
    onboardingCompleted: bool,
    preferences: Preferences,
    createdAt: string)

  /** The sum of the moods, as `reduce((sum, e) => sum + e.mood, 0)`. */
  function MoodSum(s: seq<MoodEntry>): real {
    if s == [] then 0.0 else MoodSum(s[..|s| - 1]) + s[|s| - 1].mood
  }

  function Mean(s: seq<MoodEntry>): real
    requires |s| > 0
  {
    MoodSum(s) / |s| as real
  }

  ghost predicate MoodsOnScale(s: seq<MoodEntry>) {
    forall i :: 0 <= i < |s| ==> 1.0 <= s[i].mood <= 5.0
  }

  lemma {:induction false} MoodSumBounds(s: seq<MoodEntry>)
    requires MoodsOnScale(s)
    ensures |s| as real <= MoodSum(s) <= 5.0 * |s| as real
  {
    if s != [] {
      MoodSumBounds(s[..|s| - 1]);
    }
  }

  /** The mean of moods on the 1-5 scale is on the scale. */
  lemma MeanOnScale(s: seq<MoodEntry>)
    requires |s| > 0 && MoodsOnScale(s)
    ensures 1.0 <= Mean(s) <= 5.0
  {
    MoodSumBounds(s);
    QuotientBounds(MoodSum(s), |s| as real);
  }

  lemma QuotientBounds(sum: real, n: real)
    requires n > 0.0 && n <= sum <= 5.0 * n
    ensures 1.0 <= sum / n <= 5.0
  {
    var m := sum / n;
    assert m * n == sum;
    assert (m - 1.0) * n == sum - n;
    assert (5.0 - m) * n == 5.0 * n - sum;
  }

  lemma MeanOfThree(s: seq<MoodEntry>)
    requires |s| == 3
    ensures Mean(s) == (s[0].mood + s[1].mood + s[2].mood) / 3.0
  {
    var p2, p1 := s[..2], s[..1];
    assert p2[..1] == p1 && p1[..0] == [];
    assert MoodSum(p1) == s[0].mood;
    assert MoodSum(p2) == s[0].mood + s[1].mood;
    assert MoodSum(s) == s[0].mood + s[1].mood + s[2].mood;
  }
}
