/**
 * Rule-based personalisation (src/services/personalizationService.ts):
 * greetings, activity lists, insights and recommendations chosen by the
 * user's role and the mood on the 1-5 scale.
 */
module Personalization {
  import opened Types
  import opened Sequences
  import opened Constants

  const StudentGreeting: (string, string) :=
    ("Hi ", "! Ready to tackle your studies with a clear mind?")
  const TeacherGreeting: (string, string) :=
    ("Welcome back, ", "! Let's take care of your wellbeing so you can support your students.")
  const EmployeeGreeting: (string, string) :=
    ("Hello ", "! Time to check in and maintain that work-life balance.")
  const BusinessOwnerGreeting: (string, string) :=
    ("Good to see you, ", "! Leading others starts with taking care of yourself.")

  /** The text before and after the name in each role's greeting. */
  function GreetingFrame(role: UserRole): (string, string) {
    match role
    case Student => StudentGreeting
    case Teacher => TeacherGreeting
    case Employee => EmployeeGreeting
    case BusinessOwner => BusinessOwnerGreeting
  }

  /** `getPersonalizedGreeting`: every role has a greeting, and it holds the name verbatim. */
  function Greeting(name: string, role: UserRole): (r: string)
    ensures var prefix := GreetingFrame(role).0;
      |prefix| >= 3 && |r| >= |prefix| + |name| && r[..|prefix|] == prefix
      && r[|prefix|..|prefix| + |name|] == name
  {
    var (prefix, suffix) := GreetingFrame(role);
    assert (prefix + name + suffix)[..|prefix|] == prefix;
    assert (prefix + name + suffix)[|prefix|..|prefix| + |name|] == name;
    prefix + name + suffix
  }

  /** The name occurs in the greeting. */
  lemma GreetingContainsName(name: string, role: UserRole)
    ensures Contains(Greeting(name, role), name)
  {
    var i := |GreetingFrame(role).0|;
    assert OccursAt(Greeting(name, role), name, i);
  }

  /** The first two characters of a greeting come from its role's frame. */
  lemma GreetingOpening(name: string, role: UserRole)
    ensures Greeting(name, role)[0] == GreetingFrame(role).0[0]
    ensures Greeting(name, role)[1] == GreetingFrame(role).0[1]
  {
    var g, p := Greeting(name, role), GreetingFrame(role).0;
    assert g[..|p|][0] == p[0] && g[..|p|][1] == p[1];
  }

  /** A greeting tells the role apart: different roles never greet alike. */
  lemma GreetingsDistinguishRoles(name: string, r1: UserRole, r2: UserRole)
    requires r1 != r2
    ensures Greeting(name, r1) != Greeting(name, r2)
  {
    GreetingOpening(name, r1);
    GreetingOpening(name, r2);
    var p1, p2 := GreetingFrame(r1).0, GreetingFrame(r2).0;
    assert p1[0] != p2[0] || p1[1] != p2[1];
  }

  /** For a given role the greeting determines the name. */
  lemma GreetingDeterminesName(n1: string, n2: string, role: UserRole)
    requires Greeting(n1, role) == Greeting(n2, role)
    ensures n1 == n2
  {
    var g := Greeting(n1, role);
    var p := GreetingFrame(role).0;
    assert |g| == |p| + |n1| + |GreetingFrame(role).1| == |p| + |n2| + |GreetingFrame(role).1|;
    assert n1 == g[|p|..|p| + |n1|] == n2;
  }

  const StudentActivities: seq<SelfCareActivity> := [
    SelfCareActivity("study-break", "Study Break Breathing",
      "Quick breathing exercise between study sessions",
      Breathing, "3 min", "BookOpen", [1, 2, 3, 4, 5], [Student]),
    SelfCareActivity("exam-anxiety", "Exam Anxiety Relief",
      "Calm your nerves before tests with guided meditation",
      Mindfulness, "8 min", "Brain", [1, 2, 3], [Student])
  ]

  const TeacherActivities: seq<SelfCareActivity> := [
    SelfCareActivity("classroom-reset", "Classroom Reset",
      "Quick mindfulness exercise between classes",
      Mindfulness, "5 min", "RefreshCw", [2, 3, 4], [Teacher]),
    SelfCareActivity("teacher-burnout", "Educator Self-Care",
      "Combat teaching burnout with restorative activities",
      Mindfulness, "15 min", "Heart", [1, 2, 3], [Teacher])
  ]

  const EmployeeActivities: seq<SelfCareActivity> := [
    SelfCareActivity("desk-stretch", "Desk Stretches",
      "Release tension from sitting at your desk",
      Movement, "5 min", "Monitor", [2, 3, 4], [Employee]),
    SelfCareActivity("meeting-prep", "Pre-Meeting Calm",
      "Center yourself before important meetings",
      Breathing, "3 min", "Users", [1, 2, 3], [Employee])
  ]

  const BusinessOwnerActivities: seq<SelfCareActivity> := [
    SelfCareActivity("decision-clarity", "Decision Clarity",
      "Clear your mind for better business decisions",
      Mindfulness, "10 min", "Target", [2, 3, 4], [BusinessOwner]),
    SelfCareActivity("leadership-stress", "Leadership Stress Relief",
      "Manage the pressures of leading a team",
      Breathing, "8 min", "Crown", [1, 2, 3], [BusinessOwner])
  ]

  /** The two activities each role is offered before the catalog. */
  function RoleActivities(role: UserRole): (r: seq<SelfCareActivity>)
    ensures |r| == 2
  {
    match role
    case Student => StudentActivities
    case Teacher => TeacherActivities
    case Employee => EmployeeActivities
    case BusinessOwner => BusinessOwnerActivities
  }

  /** Each role is offered exactly two activities of its own, meant for that role alone. */
  lemma RoleActivitiesAreTheRoles(role: UserRole)
    ensures |RoleActivities(role)| == 2
    ensures forall i :: 0 <= i < 2 ==> RoleActivities(role)[i].userTypes == [role]
    ensures forall i :: 0 <= i < 2 ==> MoodTargetWellFormed(RoleActivities(role)[i])
  {
  }

  /** The optional mood counts only when present and non-zero (`!mood` is false). */
  predicate MoodGiven(mood: Option<real>) {
    mood.Some? && mood.value != 0.0
  }

  /** `moodTarget.includes(mood)`. */
  predicate Targets(a: SelfCareActivity, mood: real) {
    exists k :: 0 <= k < |a.moodTarget| && a.moodTarget[k] as real == mood
  }

  /** The catalog filter: keep an activity when no mood is given or it targets the mood. */
  predicate KeepFor(mood: Option<real>, a: SelfCareActivity) {
    !MoodGiven(mood) || Targets(a, mood.value)
  }

  /** The catalog filter as a test. */
  function KeptFor(mood: Option<real>): SelfCareActivity -> bool {
    a => KeepFor(mood, a)
  }

  /** The catalog part of the list: the catalog activities kept for the mood, in catalog order. */
  function BaseActivities(mood: Option<real>): (r: seq<SelfCareActivity>)
    ensures forall i :: 0 <= i < |r| ==> r[i] in SelfCareActivities && KeepFor(mood, r[i])
    ensures forall i :: 0 <= i < |SelfCareActivities| && KeepFor(mood, SelfCareActivities[i])
              ==> SelfCareActivities[i] in r
  {
    Filter(SelfCareActivities, KeptFor(mood))
  }

  /** The catalog part is the catalog's kept sub-sequence, in catalog order, each
      kept activity as often as the catalog lists it. */
  lemma BaseActivitiesFollowCatalog(mood: Option<real>)
    ensures var r, idx := BaseActivities(mood), Positions(SelfCareActivities, KeptFor(mood));
      |r| == |idx| && forall k :: 0 <= k < |r| ==> r[k] == SelfCareActivities[idx[k]]
    ensures forall a :: a in SelfCareActivities ==>
      multiset(BaseActivities(mood))[a] == if KeepFor(mood, a) then multiset(SelfCareActivities)[a] else 0
  {
    FilterAtPositions(SelfCareActivities, KeptFor(mood));
    FilterCounts(SelfCareActivities, KeptFor(mood));
  }

  /** `getPersonalizedActivities`: the role's activities followed by the catalog part. */
  function Activities(role: UserRole, mood: Option<real>): (r: seq<SelfCareActivity>)
    ensures |r| >= 2 && r[..2] == RoleActivities(role)
    ensures forall i :: 2 <= i < |r| ==> r[i] in SelfCareActivities && KeepFor(mood, r[i])
    ensures forall i :: 0 <= i < |SelfCareActivities| && KeepFor(mood, SelfCareActivities[i])
              ==> SelfCareActivities[i] in r[2..]
  {
    RoleActivities(role) + BaseActivities(mood)
  }

  /** After the role's two activities come exactly the catalog's kept activities,
      in catalog order. */
  lemma ActivitiesFollowCatalog(role: UserRole, mood: Option<real>)
    ensures var r, idx := Activities(role, mood), Positions(SelfCareActivities, KeptFor(mood));
      |r| == 2 + |idx| && forall k :: 0 <= k < |idx| ==> r[2 + k] == SelfCareActivities[idx[k]]
  {
    BaseActivitiesFollowCatalog(mood);
  }

  /** Without a mood (absent or 0) the whole catalog follows the role's two activities. */
  lemma ActivitiesWithoutMood(role: UserRole, mood: Option<real>)
    requires !MoodGiven(mood)
    ensures Activities(role, mood) == RoleActivities(role) + SelfCareActivities
    ensures |Activities(role, mood)| == 14
  {
    FilterAll(SelfCareActivities, KeptFor(mood));
  }

  /** The role's activities are never filtered by mood, whatever mood is given. */
  lemma RoleActivitiesIgnoreMood(role: UserRole, m1: Option<real>, m2: Option<real>)
    ensures Activities(role, m1)[..2] == Activities(role, m2)[..2]
  {
  }

  /** The catalog part is never filtered by role. */
  lemma BaseActivitiesIgnoreRole(r1: UserRole, r2: UserRole, mood: Option<real>)
    ensures Activities(r1, mood)[2..] == Activities(r2, mood)[2..]
  {
    assert Activities(r1, mood)[2..] == BaseActivities(mood);
    assert Activities(r2, mood)[2..] == BaseActivities(mood);
  }

  /** A student at mood 1 is offered the zen garden, an activity the catalog does not list for students. */
  lemma StudentsGetOtherRolesActivities()
    ensures SelfCareActivities[8] in Activities(Student, Some(1.0))
    ensures Student !in SelfCareActivities[8].userTypes
  {
    assert Targets(SelfCareActivities[8], 1.0) by {
      assert SelfCareActivities[8].moodTarget[0] as real == 1.0;
    }
    var r := Activities(Student, Some(1.0));
    assert SelfCareActivities[8] in r[2..];
  }

  /** Every whole mood on the scale keeps part of the catalog. */
  lemma BaseActivitiesNonEmpty(m: int)
    requires 1 <= m <= 5
    ensures |BaseActivities(Some(m as real))| > 0
  {
    EveryMoodTargeted(m);
    var i :| 0 <= i < |SelfCareActivities| && m in SelfCareActivities[i].moodTarget;
    var k :| 0 <= k < |SelfCareActivities[i].moodTarget| && SelfCareActivities[i].moodTarget[k] == m;
    assert Targets(SelfCareActivities[i], m as real);
    assert SelfCareActivities[i] in BaseActivities(Some(m as real));
  }

  const StudentInsights: seq<string> := [
      "Remember to take breaks between study sessions",
      "Your mental health is just as important as your grades",
      "Consider talking to a counselor if stress becomes overwhelming"]

  const TeacherInsights: seq<string> := [
      "You can't pour from an empty cup - take care of yourself first",
      "Your wellbeing directly impacts your students' learning experience",
      "Consider setting boundaries between work and personal time"]

  const EmployeeInsights: seq<string> := [
      "Work-life balance is crucial for long-term success",
      "Don't hesitate to use your mental health days",
      "Regular check-ins with yourself prevent burnout"]

  const BusinessOwnerInsights: seq<string> := [
      "Leading by example includes prioritizing mental health",
      "Your team's wellbeing reflects your own leadership style",
      "Strategic thinking improves when you're mentally refreshed"]

  /** The three insights of each role. */
  function RoleInsights(role: UserRole): (r: seq<string>)
    ensures |r| == 3
  {
    match role
    case Student => StudentInsights
    case Teacher => TeacherInsights
    case Employee => EmployeeInsights
    case BusinessOwner => BusinessOwnerInsights
  }

  const LowMoodInsights: seq<string> := [
    "It's okay to have difficult days - they don't define you",
    "Consider reaching out to someone you trust"]

  const HighMoodInsights: seq<string> := [
    "Great to see you in good spirits!",
    "Share your positive energy with others around you"]

  /** `getPersonalizedInsights`: the role's three insights, then two lines for a low or a high mood. */
  function Insights(role: UserRole, entry: MoodEntry): (r: seq<string>)
    ensures |r| == (if entry.mood <= 2.0 || entry.mood >= 4.0 then 5 else 3)
    ensures r[..3] == RoleInsights(role)
    ensures entry.mood <= 2.0 ==> r[3..] == LowMoodInsights
    ensures entry.mood >= 4.0 ==> r[3..] == HighMoodInsights
  {
    var base := RoleInsights(role);
    if entry.mood <= 2.0 then base + LowMoodInsights
    else if entry.mood >= 4.0 then base + HighMoodInsights
    else base
  }

  datatype MoodLevel = Low | Medium | High

  /** The level a mood falls in: low up to 2, high from 4, medium between. */
  function LevelOf(mood: real): (l: MoodLevel)
    ensures l == Low <==> mood <= 2.0
    ensures l == High <==> mood >= 4.0
    ensures l == Medium <==> 2.0 < mood < 4.0
  {
    if mood <= 2.0 then Low else if mood >= 4.0 then High else Medium
  }

  const StudentLow: seq<string> := [
      "Take a 10-minute walk between study sessions",
      "Try the Pomodoro technique to manage study stress",
      "Connect with classmates or study groups for support"]

  const StudentMedium: seq<string> := [
      "Review your study schedule and adjust if needed",
      "Practice active recall techniques for better retention",
      "Reward yourself for completing study goals"]

  const StudentHigh: seq<string> := [
      "Share study tips with classmates who might be struggling",
      "Use this positive energy to tackle challenging subjects",
      "Consider helping others through tutoring or study groups"]

  const TeacherLow: seq<string> := [
      "Take a few minutes between classes to reset",
      "Remember why you became an educator",
      "Reach out to fellow teachers for support"]

  const TeacherMedium: seq<string> := [
      "Plan engaging activities that energize both you and students",
      "Set small, achievable goals for the day",
      "Practice gratitude for positive student interactions"]

  const TeacherHigh: seq<string> := [
      "Channel this energy into creative lesson planning",
      "Mentor a new teacher or share your enthusiasm",
      "Celebrate your impact on students' lives"]

  const EmployeeLow: seq<string> := [
      "Take regular breaks throughout your workday",
      "Communicate with your manager about workload concerns",
      "Use your lunch break for activities that recharge you"]

  const EmployeeMedium: seq<string> := [
      "Focus on one task at a time to avoid overwhelm",
      "Set boundaries between work and personal time",
      "Celebrate small wins throughout the day"]

  const EmployeeHigh: seq<string> := [
      "Use this momentum to tackle challenging projects",
      "Offer help to colleagues who might be struggling",
      "Share your positive attitude with your team"]

  const BusinessOwnerLow: seq<string> := [
      "Delegate tasks to reduce your immediate stress",
      "Review your priorities and focus on what truly matters",
      "Consider taking a strategic break to gain perspective"]

  const BusinessOwnerMedium: seq<string> := [
      "Focus on one major decision or project at a time",
      "Schedule regular check-ins with your team",
      "Invest time in systems that will reduce future stress"]

  const BusinessOwnerHigh: seq<string> := [
      "Use this clarity to make important strategic decisions",
      "Inspire your team with your positive leadership",
      "Consider expanding or taking on new challenges"]

  /** The table of recommendations by role and level. */
  function RecommendationTable(role: UserRole, level: MoodLevel): (r: seq<string>)
    ensures |r| == 3
  {
    match (role, level)
    case (Student, Low) => StudentLow
    case (Student, Medium) => StudentMedium
    case (Student, High) => StudentHigh
    case (Teacher, Low) => TeacherLow
    case (Teacher, Medium) => TeacherMedium
    case (Teacher, High) => TeacherHigh
    case (Employee, Low) => EmployeeLow
    case (Employee, Medium) => EmployeeMedium
    case (Employee, High) => EmployeeHigh
    case (BusinessOwner, Low) => BusinessOwnerLow
    case (BusinessOwner, Medium) => BusinessOwnerMedium
    case (BusinessOwner, High) => BusinessOwnerHigh
  }

  /** `getPersonalizedRecommendations`: three recommendations for the role at the mood's level. */
  function Recommendations(role: UserRole, mood: real): (r: seq<string>)
    ensures |r| == 3
  {
    RecommendationTable(role, LevelOf(mood))
  }

  /** The recommendations reveal the mood level: moods of different levels never get the same list. */
  lemma RecommendationsDetermineLevel(role: UserRole, m1: real, m2: real)
    requires Recommendations(role, m1) == Recommendations(role, m2)
    ensures LevelOf(m1) == LevelOf(m2)
  {
  }

  /** Insights and recommendations split moods at the same thresholds: the
      extra insight lines appear exactly when the level is not medium. */
  lemma InsightsShareLevelThresholds(role: UserRole, entry: MoodEntry)
    ensures |Insights(role, entry)| == 5 <==> LevelOf(entry.mood) != Medium
    ensures |Insights(role, entry)| == 3 <==> LevelOf(entry.mood) == Medium
  {
  }
}
