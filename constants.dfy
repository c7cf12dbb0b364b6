/**
 * The constant tables of the client: the mood scale with its emojis, the
 * emotion labels and the self-care activity catalog (src/utils/constants.ts).
 */
module Constants {
  import opened Types

  datatype MoodEmoji = MoodEmoji(value: int, emoji: string, moodLabel: string)

  const MoodEmojis: seq<MoodEmoji> := [
    MoodEmoji(1, "\U{1F622}", "Very Sad"),
    MoodEmoji(2, "\U{1F614}", "Sad"),
    MoodEmoji(3, "\U{1F610}", "Neutral"),
    MoodEmoji(4, "\U{1F60A}", "Happy"),
    MoodEmoji(5, "\U{1F604}", "Very Happy")
  ]

  const EmotionLabels: seq<string> := [
    "Anxious", "Calm", "Stressed", "Excited", "Tired", "Energetic",
    "Lonely", "Connected", "Frustrated", "Content", "Overwhelmed", "Focused"
  ]

  const AllRoles: seq<UserRole> := [Student, Teacher, Employee, BusinessOwner]

  const SelfCareActivities: seq<SelfCareActivity> := [
    SelfCareActivity("1", "Deep Breathing Exercise",
      "Take 5 minutes to practice deep breathing and center yourself",
      Breathing, "5 min", "Wind", [1, 2, 3], AllRoles),
    SelfCareActivity("2", "Gentle Stretching",
      "Release tension with simple stretches",
      Movement, "10 min", "Activity", [2, 3, 4], AllRoles),
    SelfCareActivity("3", "Gratitude Journaling",
      "Write down three things you're grateful for today",
      Mindfulness, "10 min", "BookOpen", [1, 2, 3, 4], AllRoles),
    SelfCareActivity("4", "Creative Drawing",
      "Express yourself through art or doodling",
      Creative, "15 min", "Palette", [3, 4, 5], AllRoles),
    SelfCareActivity("5", "Call a Friend",
      "Reach out to someone you care about",
      Social, "20 min", "Phone", [1, 2, 3], AllRoles),
    SelfCareActivity("6", "Mindful Walking",
      "Take a peaceful walk and observe your surroundings",
      Movement, "15 min", "MapPin", [2, 3, 4, 5], AllRoles),
    SelfCareActivity("7", "Block Stacking Challenge",
      "Stack virtual blocks to build towers and clear your mind",
      Games, "10 min", "Square", [1, 2, 3, 4], [Student, Employee]),
    SelfCareActivity("8", "Color Matching Game",
      "Match colors in this relaxing puzzle game to reduce stress",
      Games, "8 min", "Palette", [2, 3, 4], [Student, Teacher, Employee]),
    SelfCareActivity("9", "Zen Garden Builder",
      "Create peaceful patterns in a virtual zen garden",
      Games, "12 min", "Flower2", [1, 2, 3], [Teacher, Employee, BusinessOwner]),
    SelfCareActivity("10", "Bubble Pop Meditation",
      "Pop bubbles at your own pace for a calming experience",
      Games, "5 min", "Circle", [1, 2, 3, 4, 5], AllRoles),
    SelfCareActivity("11", "Memory Card Game",
      "Improve focus while relaxing with this gentle memory game",
      Games, "10 min", "Brain", [2, 3, 4], [Student, Teacher, Employee]),
    SelfCareActivity("12", "Simple Jigsaw Puzzle",
      "Piece together beautiful nature scenes to unwind",
      Games, "15 min", "Puzzle", [3, 4, 5], [Teacher, Employee, BusinessOwner])
  ]

  /** The decimal spelling of 1..12, the catalog's ids in order. */
  const CatalogIds: seq<string> := ["1", "2", "3", "4", "5", "6", "7", "8", "9", "10", "11", "12"]

  /** The mood scale lists each value 1..5 once, in ascending order. */
  lemma MoodEmojisCoverScale()
    ensures |MoodEmojis| == 5
    ensures forall i :: 0 <= i < |MoodEmojis| ==> MoodEmojis[i].value == i + 1
  {
  }

  /** The catalog holds twelve activities whose ids are "1".."12", all distinct. */
  lemma CatalogIdsDistinct()
    ensures |SelfCareActivities| == 12
    ensures forall i :: 0 <= i < 12 ==> SelfCareActivities[i].id == CatalogIds[i]
    ensures forall i, j :: 0 <= i < j < 12 ==> SelfCareActivities[i].id != SelfCareActivities[j].id
  {
    forall i, j | 0 <= i < j < 12
      ensures CatalogIds[i] != CatalogIds[j]
    {
      if |CatalogIds[i]| == |CatalogIds[j]| {
        assert CatalogIds[i][|CatalogIds[i]| - 1] != CatalogIds[j][|CatalogIds[j]| - 1];
      }
    }
  }

  ghost predicate MoodTargetWellFormed(a: SelfCareActivity) {
    |a.moodTarget| > 0 && forall k :: 0 <= k < |a.moodTarget| ==> 1 <= a.moodTarget[k] <= 5
  }

  /** Every activity targets a non-empty set of moods on the 1-5 scale. */
  lemma CatalogMoodTargetsWellFormed()
    ensures forall i :: 0 <= i < |SelfCareActivities| ==> MoodTargetWellFormed(SelfCareActivities[i])
  {
  }

  /** Every activity names at least one role and no role twice. */
  lemma CatalogUserTypesWellFormed()
    ensures forall i :: 0 <= i < |SelfCareActivities| ==>
      var u := SelfCareActivities[i].userTypes;
      |u| > 0 && forall p, q :: 0 <= p < q < |u| ==> u[p] != u[q]
  {
  }

  /** Every mood on the scale is the target of some catalog activity. */
  lemma EveryMoodTargeted(m: int)
    requires 1 <= m <= 5
    ensures exists i :: 0 <= i < |SelfCareActivities| && m in SelfCareActivities[i].moodTarget
  {
    assert m in SelfCareActivities[9].moodTarget;
  }
}
