# SereneMind core, modelled in Dafny

SereneMind is a browser wellness app. Users record a daily mood check-in on a
1-5 scale. They get greetings, activities, insights and recommendations
chosen by their role (student, teacher, employee, business owner) and mood.
They can talk to an AI companion backed by a remote language model, which
falls back to canned replies when the model cannot be reached. The dashboard
shows a 7-day history with its rounded average, a day streak and a trend.
Health metrics are kept alongside.

This project models the app's logic:

- `types.dfy` (`Types`): the records of `src/types/index.ts` as datatypes.
  It also holds the calendar-day map `DayOf` and mood sums and means.
- `sequences.dfy` (`Sequences`): the array operations the code relies on.
  - `sort` is modelled as a stable insertion sort, specified functionally by
    `StableSort` and implemented in place on an `array` by `SortInPlace`.
  - `filter`, `find`, `slice` with negative indices, and substring search.
- `data_service.dfy` (`DataService`): the mood journal. The storage slot is
  a class field. History, average and today's entry are queries over it.
- `stats_cards.dfy` (`StatsCards`): the streak and trend figures of the
  dashboard cards. The streak method sorts the caller's array in place, as
  the source does.
- `personalization.dfy` (`Personalization`): role- and mood-based
  greetings, activities, insights and recommendations.
- `constants.dfy` (`Constants`): the mood scale and the self-care catalog.
- `gemini.dfy` (`Gemini`): the language-model client. It models:
  - its readiness flag;
  - the 32-bit string hash that picks a canned companion reply;
  - the keyword sentiment analysis and the mood-bucket recommendations;
  - how a model answer, or its absence, becomes the result.
- `ai_service.dfy` (`AiService`): the facade over the client, plus the fixed
  mood insight.
- `user_service.dfy` (`UserService`): the single stored user profile, and
  the field-wise merge used to update it.
- `health_data.dfy` (`HealthData`): the health-metrics hook. It holds the
  state list, the storage mirror and the today and weekly queries.

Modelling choices:

- Timestamps are integer milliseconds. A calendar day is
  `(t + LocalOffsetMs) / MsPerDay`, with a fixed local offset.
- Moods and means are exact reals.
- `Math.round(x * 10) / 10` is `floor(10x + 1/2) / 10`.
- JavaScript's `sort` is stable (ECMAScript 2019 onwards). It is specified by
  a stable insertion sort; the key for newest-first is `-date`.
- Clock readings (`Date.now()` ids, ISO creation dates, the current time)
  and remote answers are parameters. A remote call is `Remote<T>`: either
  `Failed` or `Answered(value)`. A JSON object or array that could not be
  found in the answer is `None`.

## Model

| member | source | states |
|---|---|---|
| Types.DayOfShift | src/services/dataService.ts:25-26 | Moving a time back by k whole days moves its calendar day back by k. |
| Types.DayOfMonotone | src/components/dashboard/StatsCards.tsx:90-96 | A later time never falls on an earlier calendar day. |
| Types.MoodSumBounds | src/services/dataService.ts:37 | The sum of n moods on the 1-5 scale lies between n and 5n. |
| Types.MeanOnScale | src/components/dashboard/StatsCards.tsx:112-113 | The mean of moods on the scale is on the scale. |
| Types.MeanOfThree | src/components/dashboard/StatsCards.tsx:112-113 | The mean of three entries is their mood sum over three. |
| Sequences.InsertPermutes | src/components/dashboard/StatsCards.tsx:82-83 | Inserting one element adds exactly that element to the multiset. |
| Sequences.StableSort | src/services/dataService.ts:30 | The stable sort keeps the length of its input; its meaning is stated by `StableSortPermutes`, `StableSortSorted` and `StableSortIsStable`. |
| Sequences.StableSortPermutes | src/components/dashboard/StatsCards.tsx:82-83 | Sorting is a permutation of its input. |
| Sequences.InsertSorted | src/services/dataService.ts:30 | Inserting into a sorted sequence keeps it sorted. |
| Sequences.StableSortSorted | src/services/dataService.ts:30 | The sort result is ordered by the key. |
| Sequences.StableSortOfSorted | src/services/dataService.ts:30 | Sorting an already ordered sequence changes nothing. |
| Sequences.WithKeyAppend | src/services/dataService.ts:30 | The elements with a given key in `a + b` are those of `a` followed by those of `b`. |
| Sequences.WithKeyInsert | src/services/dataService.ts:30 | Insertion places the new element after every element with an equal key. |
| Sequences.StableSortIsStable | src/services/dataService.ts:30 | Elements with equal keys keep their input order (sort stability). |
| Sequences.InsertBeforeLarger | src/components/dashboard/StatsCards.tsx:82-83 | An element whose key is below every key of a sorted sequence goes to its front. |
| Sequences.StableSortOfStrictlyDecreasing | src/components/dashboard/StatsCards.tsx:82-83 | Sorting a sequence with strictly decreasing keys reverses it. |
| Sequences.SortInPlace | src/components/dashboard/StatsCards.tsx:82-83 | The in-place array sort leaves the array equal to the stable sort of its old contents. |
| Sequences.InsertLast | src/components/dashboard/StatsCards.tsx:82-83 | One insertion pass turns the sorted prefix plus `a[i]` into the functional insertion; later cells are untouched. |
| Sequences.PermutationMembers | src/components/dashboard/StatsCards.tsx:82-83 | Sequences with the same multiset have the same members, both ways. |
| Sequences.Filter | src/services/personalizationService.ts:108-110 | The result is no longer than the input, holds only elements that pass the test, and holds every input element that passes it. |
| Sequences.FilterCounts | src/services/personalizationService.ts:108-110 | Each passing element is kept exactly as often as the input holds it, each failing one not at all. |
| Sequences.Positions | src/services/personalizationService.ts:108-110 | The passing positions of the input: in range, ascending, and all of them. |
| Sequences.FilterAtPositions | src/services/personalizationService.ts:108-110 | The filter is the input's sub-sequence at the passing positions, in input order. |
| Sequences.FilterAppend | src/services/personalizationService.ts:108-110 | Filtering a concatenation is the concatenation of the filtered parts. |
| Sequences.FilterSingleton | src/services/personalizationService.ts:108-110 | A one-element sequence is kept exactly when its element passes. |
| Sequences.FilterKeepsWithKey | src/services/personalizationService.ts:108-110 | When every element with key `k` passes, the filter keeps all of them in input order. |
| Sequences.FilterAll | src/services/personalizationService.ts:108-110 | Filtering with a test every element passes returns the input unchanged. |
| Sequences.AtOrAfter | src/services/dataService.ts:28-29 | The date filter holds only elements at or after the cutoff and all of them, and is the input's sub-sequence at the positions of those elements, in input order. |
| Sequences.AtOrAfterCounts | src/services/dataService.ts:28-29 | The date filter keeps each element at or after the cutoff exactly as often as the input holds it. |
| Sequences.AtOrAfterKeepsWithKey | src/services/dataService.ts:28-29 | The date filter keeps the order of elements with equal keys. |
| Sequences.AtOrAfterAll | src/services/dataService.ts:28-29 | When every element is at or after the cutoff, the filter keeps them all. |
| Sequences.SortedWindow | src/services/dataService.ts:28-30 | Filter-then-sort: ordered by key, holds only elements at or after the cutoff, and holds every such element. |
| Sequences.SortedWindowCounts | src/services/dataService.ts:28-30 | Filter-then-sort keeps each recent element as many times as it occurs. |
| Sequences.SortedWindowStable | src/services/dataService.ts:28-30 | Filter-then-sort keeps the input order of elements with equal keys. |
| Sequences.SortedWindowIdempotent | src/services/dataService.ts:28-30 | Applying filter-then-sort twice gives the same result as once. |
| Sequences.SliceBound | src/components/dashboard/StatsCards.tsx:107-108 | A `slice` bound counts from the end when negative; past the end it becomes the length, and before the start (negative beyond the length) it becomes 0. |
| Sequences.Slice | src/components/dashboard/StatsCards.tsx:107-108 | The slice is the window between the two resolved bounds, or empty when they cross. |
| Sequences.FindFirst | src/services/dataService.ts:45-47 | `find`: none exactly when no element passes; otherwise the first element that passes. |
| Constants.MoodEmojisCoverScale | src/utils/constants.ts:3-9 | The mood scale lists the values 1 to 5 in order. |
| Constants.CatalogIdsDistinct | src/utils/constants.ts:16-137 | The catalog has twelve activities with ids "1" to "12", all distinct. |
| Constants.CatalogMoodTargetsWellFormed | src/utils/constants.ts:16-137 | Every activity targets a non-empty list of moods on the 1-5 scale. |
| Constants.CatalogUserTypesWellFormed | src/utils/constants.ts:16-137 | Every activity names at least one role and no role twice. |
| Constants.EveryMoodTargeted | src/utils/constants.ts:16-137 | Every mood 1-5 is targeted by some catalog activity. |
| DataService.MoodStore.Entries | src/services/dataService.ts:6-9 | An empty slot reads as no entries; otherwise the stored list. |
| DataService.MoodStore.SaveMoodEntry | src/services/dataService.ts:11-21 | Returns the draft stamped with the id, and the stored list becomes the old list with that entry appended. |
| DataService.HistoryCutoff | src/services/dataService.ts:25-26 | The history cutoff is exactly `days` calendar days back, at the same time of day. |
| DataService.MoodHistory | src/services/dataService.ts:23-31 | The history is ordered oldest first, holds only stored entries at or after the cutoff, and holds every such entry. |
| DataService.HistoryCountsRecentEntries | src/services/dataService.ts:28-30 | The history holds every recent entry as many times as it is stored. |
| DataService.HistoryKeepsSaveOrderOnTies | src/services/dataService.ts:30 | Entries with the same timestamp appear in the order they were saved. |
| DataService.MoodHistoryIdempotent | src/services/dataService.ts:23-31 | Taking the history of a history changes nothing. |
| DataService.RoundToTenth | src/services/dataService.ts:38 | The result is a whole number of tenths, within 0.05 of the input (halves round up). |
| DataService.RoundToTenthOnScale | src/services/dataService.ts:38 | Rounding keeps a value on the 1-5 scale on it. |
| DataService.AverageOf | src/services/dataService.ts:35-38 | 0 for an empty history; otherwise a whole number of tenths within 0.05 of the mean mood. |
| DataService.TenthsIdentity | src/services/dataService.ts:38 | Ten times the mean plus one half equals (20·sum + n) / (2n). |
| DataService.AverageInTenths | src/services/dataService.ts:37-38 | The average in tenths is the whole part of (20·sum + n) / (2n). |
| DataService.HistoryOnScale | src/services/dataService.ts:28-30 | The history of moods on the scale stays on the scale. |
| DataService.AverageMood | src/services/dataService.ts:33-39 | `getAverageMood` is 0 when the history is empty, and otherwise a whole number of tenths within half a tenth of the history's mean mood, which is the mean rounded to one decimal with halves up. |
| DataService.AverageMoodInTenths | src/services/dataService.ts:35-38 | With recent history, `getAverageMood` in tenths is the whole part of (20·sum + n) / (2n) over the history's n moods. |
| DataService.AverageMoodOnScale | src/services/dataService.ts:33-39 | With moods on the scale, `getAverageMood` is 1-5 when there is recent history, and 0 exactly when there is none. |
| DataService.AverageOfHistory | src/services/dataService.ts:33-39 | Averaging the history again gives the same figure. |
| DataService.TodayEntry | src/services/dataService.ts:41-48 | None exactly when no entry is dated today; otherwise the first stored entry dated today. |
| DataService.TodayEntryKeepsFirst | src/services/dataService.ts:45-47 | Once today has an entry, later saves do not change the one reported. |
| DataService.TodayEntryAfterFirstSave | src/services/dataService.ts:45-47 | The first save dated today becomes today's entry. |
| StatsCards.ScanFrom | src/components/dashboard/StatsCards.tsx:89-99 | The streak scan never counts more entries than it is given. |
| StatsCards.ScanRunCovered | src/components/dashboard/StatsCards.tsx:89-99 | Every day from today back to the last day counted has an entry. |
| StatsCards.ScanRunEnds | src/components/dashboard/StatsCards.tsx:89-99 | On newest-first input, the day where the scan stops has no entry. |
| StatsCards.ScanCountsRun | src/components/dashboard/StatsCards.tsx:89-99 | The streak is the length of the run of consecutive days with an entry ending today. |
| StatsCards.RunDays | src/components/dashboard/StatsCards.tsx:93-95 | The counted days form a set of exactly `streak` consecutive days. |
| StatsCards.StreakWithinDistinctDays | src/components/dashboard/StatsCards.tsx:89-99 | Whatever the order of the entries, the streak never exceeds the number of distinct entry days, which never exceeds the number of entries. |
| StatsCards.SubsetCardinality | src/components/dashboard/StatsCards.tsx:93-95 | A subset is no larger than its superset. |
| StatsCards.DaysOfSize | src/components/dashboard/StatsCards.tsx:89-99 | There are no more distinct entry days than entries. |
| StatsCards.SameDays | src/components/dashboard/StatsCards.tsx:82-83 | Reordering the entries does not change which days have one. |
| StatsCards.CalculateStreak | src/components/dashboard/StatsCards.tsx:79-102 | Sorts the caller's array in place, newest first (empty arrays untouched). The streak is the run of consecutive days ending today that have an entry, and the day before the run has none. |
| StatsCards.StreakNeedsToday | src/components/dashboard/StatsCards.tsx:93-99 | The streak is positive exactly when today has an entry. |
| StatsCards.Trend | src/components/dashboard/StatsCards.tsx:104-116 | 0 for fewer than four entries; otherwise the mean of the last three minus the mean of the up to three before them. |
| StatsCards.TrendBounded | src/components/dashboard/StatsCards.tsx:112-115 | With moods on the scale the trend lies in [-4, 4]. |
| StatsCards.TrendIgnoresEarlierEntries | src/components/dashboard/StatsCards.tsx:107-108 | Entries before the last six never affect the trend. |
| StatsCards.StatsCardsFigures | src/components/dashboard/StatsCards.tsx:11-14 | Count; the array left sorted newest first (unchanged when empty); a streak of consecutive days with entries ending today, the day before it having none; and the trend taken on the array after the streak sorted it newest first. |
| StatsCards.CorrectedStatsCardsFigures | src/components/dashboard/StatsCards.tsx:11-14 | Corrected order: count, new array contents and streak as in `StatsCardsFigures`, but the trend is taken on the array as received, which on oldest-first input is the intended trend. |
| StatsCards.RenderedTrendRecentAreOldest | src/components/dashboard/StatsCards.tsx:13-14 | As rendered, the three "recent" positions hold the oldest entries. |
| StatsCards.RenderedTrendInverted | src/components/dashboard/StatsCards.tsx:13-14 | A rising week (moods 2,3,4 then 5,4,3) renders a trend of -1.0. |
| StatsCards.MeanOfReversedThree | src/components/dashboard/StatsCards.tsx:112-113 | The mean of three entries does not depend on their order. |
| StatsCards.TrendOfSix | src/components/dashboard/StatsCards.tsx:107-115 | With six entries the trend compares the last three with the first three. |
| StatsCards.TrendOfReversedSix | src/components/dashboard/StatsCards.tsx:107-115 | Reversing six entries swaps the groups the trend compares. |
| StatsCards.RenderedTrendNegatesIntended | src/components/dashboard/StatsCards.tsx:13-14 | For six entries at distinct times, oldest first, the rendered trend is the negation of the intended one. |
| StatsCards.IntendedTrend | src/components/dashboard/StatsCards.tsx:104-116 | The intended trend (on the entries oldest first) is 0 for fewer than four entries. |
| StatsCards.IntendedTrendRecentAreLatest | src/components/dashboard/StatsCards.tsx:107 | In the intended trend the "recent" group holds the latest entries. |
| StatsCards.IntendedTrendOfSorted | src/components/dashboard/StatsCards.tsx:104-116 | On oldest-first input the intended trend is the plain trend. |
| StatsCards.IntendedTrendRising | src/components/dashboard/StatsCards.tsx:104-116 | The intended trend of the rising week is +1.0. |
| Personalization.Greeting | src/services/personalizationService.ts:5-14 | Every role's greeting opens with that role's words followed by the name, verbatim. |
| Personalization.GreetingContainsName | src/services/personalizationService.ts:5-14 | The name occurs in the greeting. |
| Personalization.GreetingOpening | src/services/personalizationService.ts:6-11 | A greeting's first two characters are those of its role's opening. |
| Personalization.GreetingsDistinguishRoles | src/services/personalizationService.ts:6-11 | Different roles never give the same greeting. |
| Personalization.GreetingDeterminesName | src/services/personalizationService.ts:5-14 | For one role, the greeting determines the name. |
| Personalization.RoleActivities | src/services/personalizationService.ts:17-106 | Every role has exactly two activities of its own. |
| Personalization.RoleActivitiesAreTheRoles | src/services/personalizationService.ts:17-106 | Both of a role's activities are meant for that role alone and target moods on the scale. |
| Personalization.BaseActivities | src/services/personalizationService.ts:108-110 | Only catalog activities kept for the mood, and all of them. |
| Personalization.BaseActivitiesFollowCatalog | src/services/personalizationService.ts:108-110 | The catalog part is the catalog's kept sub-sequence in catalog order, each kept activity as often as the catalog lists it. |
| Personalization.Activities | src/services/personalizationService.ts:16-115 | The role's two activities first, then only catalog activities kept for the mood, and all of them. |
| Personalization.ActivitiesFollowCatalog | src/services/personalizationService.ts:108-114 | After the role's two activities come the catalog's kept activities at their catalog positions, in catalog order. |
| Personalization.ActivitiesWithoutMood | src/services/personalizationService.ts:108-114 | With no mood, or mood 0, the whole catalog follows: fourteen activities. |
| Personalization.RoleActivitiesIgnoreMood | src/services/personalizationService.ts:112-114 | The role's activities are never filtered by mood. |
| Personalization.BaseActivitiesIgnoreRole | src/services/personalizationService.ts:108-114 | The catalog part is never filtered by role. |
| Personalization.StudentsGetOtherRolesActivities | src/services/personalizationService.ts:108-110 | The catalog filter ignores `userTypes`: a student at mood 1 is offered an activity not listed for students. |
| Personalization.BaseActivitiesNonEmpty | src/services/personalizationService.ts:108-110 | Every whole mood 1-5 keeps part of the catalog. |
| Personalization.RoleInsights | src/services/personalizationService.ts:118-141 | Every role has three insights. |
| Personalization.Insights | src/services/personalizationService.ts:117-158 | The role's three insights, then the two low-mood lines up to 2 or the two high-mood lines from 4, and nothing more in between. |
| Personalization.LevelOf | src/services/personalizationService.ts:232 | Low exactly up to 2, high exactly from 4, medium exactly in between. |
| Personalization.RecommendationTable | src/services/personalizationService.ts:161-230 | Every role and level has three recommendations. |
| Personalization.Recommendations | src/services/personalizationService.ts:160-234 | Three recommendations for every role and mood. |
| Personalization.RecommendationsDetermineLevel | src/services/personalizationService.ts:160-234 | For one role, equal recommendation lists mean equal mood levels. |
| Personalization.InsightsShareLevelThresholds | src/services/personalizationService.ts:143-157 | The extra insight lines appear exactly when the recommendation level is not medium. |
| Gemini.ToInt32 | src/services/geminiService.ts:47 | The signed 32-bit value congruent to the input modulo 2^32. |
| Gemini.ToInt32Shift | src/services/geminiService.ts:46-47 | Adding a multiple of 2^32 does not change the wrapped value. |
| Gemini.ToInt32Offset | src/services/geminiService.ts:46-47 | The wrapped value differs from its input by a multiple of 2^32. |
| Gemini.HashStep | src/services/geminiService.ts:46-47 | The shift-subtract-add-wrap step is the wrapped `31h + c`. |
| Gemini.WrapThenStep | src/services/geminiService.ts:44-48 | Wrapping before or after a polynomial step gives the same 32-bit value. |
| Gemini.JavaHashIsWrappedPolynomial | src/services/geminiService.ts:43-48 | The hash is the base-31 polynomial of the code units, wrapped once at the end. |
| Gemini.MessageHash | src/services/geminiService.ts:43-48 | The loop computes the reference string hash. |
| Gemini.Abs | src/services/geminiService.ts:50 | The absolute value is the input or its negation, and never negative. |
| Gemini.TemplateIndex | src/services/geminiService.ts:50 | The reply index is below five and congruent to the absolute hash modulo 5. |
| Gemini.TemplateIndexOfMinimum | src/services/geminiService.ts:50 | The most negative hash still selects a reply (index 3). |
| Gemini.CompanionTemplate | src/services/geminiService.ts:34-40 | Without a name (or with an empty one) the reply is the canned text with nothing spliced in; with a name see `NameInReply`. |
| Gemini.NameInReply | src/services/geminiService.ts:34-40 | A non-empty name occurs verbatim in every canned reply. |
| Gemini.TemplateWithoutName | src/services/geminiService.ts:34-40 | An empty name counts as no name: nothing is spliced in. |
| Gemini.FallbackCompanionResponse | src/services/geminiService.ts:33-52 | Returns the canned reply that the message hash selects. |
| Gemini.EmptyMessageGetsFirstReply | src/services/geminiService.ts:43-51 | An empty message hashes to 0 and gets the first reply. |
| Gemini.SingleUnitHash | src/services/geminiService.ts:43-51 | A one-unit message hashes to its code unit and selects reply `c mod 5`. |
| Gemini.ToLower | src/services/geminiService.ts:207 | Lower-casing keeps the length and maps exactly the ASCII capitals. |
| Gemini.ToUpper | src/services/geminiService.ts:207 | Upper-casing keeps the length and maps exactly the ASCII small letters. |
| Gemini.KeywordSentiment | src/services/geminiService.ts:206-227 | Positive words win with "Happy", "Content"; negative exactly when no positive but some negative word, with "Sad", "Stressed"; calm words alone give positive with "Calm"; neutral exactly when no keyword at all, and then the only emotion is "Neutral"; confidence is 0.75. |
| Gemini.FallbackSentimentAnalysis | src/services/geminiService.ts:206-227 | The imperative analysis gives the keyword result. |
| Gemini.ToLowerOfToUpper | src/services/geminiService.ts:207 | Lower-casing forgets the case a text was typed in. |
| Gemini.KeywordSentimentIgnoresCase | src/services/geminiService.ts:206-220 | The analysis does not depend on letter case. |
| Gemini.FallbackRecommendations | src/services/geminiService.ts:229-249 | Three suggestions: the low list exactly up to 2, the neutral list exactly at 3, the good list exactly otherwise. |
| Gemini.CompanionOutcome | src/services/geminiService.ts:54-117 | The hashed fallback when not ready or the call fails; otherwise the model's text, or the default text when that is empty. |
| Gemini.SentimentOutcome | src/services/geminiService.ts:119-161 | The keyword analysis when not ready, on failure, or with no JSON object; otherwise the parsed fields with defaults, where a missing or zero confidence becomes 0.5. |
| Gemini.RecommendationsOutcome | src/services/geminiService.ts:163-204 | The mood buckets when not ready, on failure, or with no array; otherwise the model's array. |
| Gemini.CompanionNeverSilent | src/services/geminiService.ts:54-117 | The companion never answers with an empty text. |
| Gemini.NotReadyIgnoresReplies | src/services/geminiService.ts:60-62 | Without a usable model, none of the three answers depends on the remote result. |
| Gemini.GeminiService.constructor | src/services/geminiService.ts:9-31 | The service is initialized, and holds a model, exactly when the API key is non-empty and the SDK accepts it. |
| Gemini.GeminiService.GenerateCompanionResponse | src/services/geminiService.ts:54-117 | The method answers the companion outcome for the service's readiness. |
| Gemini.GeminiService.AnalyzeSentiment | src/services/geminiService.ts:119-161 | The method answers the sentiment outcome for the service's readiness. |
| Gemini.GeminiService.GenerateRecommendations | src/services/geminiService.ts:163-204 | The method answers the recommendations outcome for the service's readiness. |
| AiService.GetInsight | src/services/aiService.ts:26-42 | The difficult-day text exactly up to 2, the balance text exactly at 3, the positive text exactly otherwise. |
| AiService.InsightBetweenTwoAndThree | src/services/aiService.ts:31-36 | A mood of 2.5 gets the positive text. |
| AiService.InsightMatchesFallbackBuckets | src/services/aiService.ts:31-36 | The insight and the fallback recommendations split moods into the same three buckets. |
| AiService.AnalyzeSentiment | src/services/aiService.ts:5-11 | Answers exactly what the client answers. |
| AiService.GenerateRecommendations | src/services/aiService.ts:13-15 | Answers exactly what the client answers. |
| AiService.GenerateCompanionResponse | src/services/aiService.ts:17-24 | Answers exactly what the client answers. |
| UserService.Merge | src/services/userService.ts:34 | Every supplied field overrides the stored one; every absent field is kept. |
| UserService.MergeNothing | src/services/userService.ts:34 | An empty update leaves the profile as it was. |
| UserService.MergeIdempotent | src/services/userService.ts:34 | Applying the same update twice is the same as once. |
| UserService.MergeComposes | src/services/userService.ts:34 | Two updates in a row are one combined update in which the later one wins. |
| UserService.UserStore.Profile | src/services/userService.ts:25-28 | None exactly when the slot is empty; otherwise the stored profile. |
| UserService.UserStore.IsOnboardingComplete | src/services/userService.ts:43-46 | True exactly when a profile is stored and it says onboarding is done. |
| UserService.UserStore.CreateUserProfile | src/services/userService.ts:6-23 | The profile has the given name, role, id and date, is completed, and has the default preferences. It is stored, and onboarding then reads as complete. |
| UserService.UserStore.UpdateUserProfile | src/services/userService.ts:30-37 | With nothing stored, answers none and changes nothing; otherwise stores and answers the merged profile. |
| UserService.UserStore.ClearUserProfile | src/services/userService.ts:39-41 | Afterwards no profile is stored and onboarding reads as incomplete. |
| HealthData.HealthStore.constructor | src/hooks/useHealthData.ts:7-8 | The state starts empty and loading. |
| HealthData.HealthStore.Load | src/hooks/useHealthData.ts:10-18 | The state takes the stored list, or none when nothing is stored, and loading ends. |
| HealthData.HealthStore.AddMetrics | src/hooks/useHealthData.ts:20-29 | Appends the stamped record to the state and writes the new state to storage. |
| HealthData.HealthStore.TodayMetrics | src/hooks/useHealthData.ts:31-36 | None exactly when no record is dated today; otherwise the first record dated today. |
| HealthData.HealthStore.WeeklyMetrics | src/hooks/useHealthData.ts:38-45 | Oldest first; only records from the last seven days, and all of them. |
| HealthData.LoadThenAdd | src/hooks/useHealthData.ts:10-29 | Loading then adding grows the stored list by exactly the new record. |
| HealthData.AddBeforeLoad | src/hooks/useHealthData.ts:20-29 | A record added before the mount effect has loaded replaces the stored list in storage. |

## Left out

- Browser storage and JSON (de)serialisation: each storage slot is a field holding the value itself. Malformed stored JSON, which would throw, is not modelled.
- The language-model network calls, their prompts, and the regular-expression extraction of JSON from the answer. How a call ended is a `Remote<T>` parameter; whether a JSON object or array was found is an `Option`.
- `Gemini.SentimentOutcome`: does not model a parsed `sentiment` string outside the three allowed values.
- `Gemini.RecommendationsOutcome`: does not model `Array.isArray` on non-array JSON, or array elements that are not strings. A found array is taken to be a sequence of strings.
- `Gemini.GeminiService.constructor`: the SDK's acceptance of the API key is a parameter. The console messages are left out.
- The `todayEntry` and `userRole` arguments of the companion and recommendation calls: they only shape prompts.
- `getInsight`'s prompt is built but never used. Its `catch` branch cannot be reached, because nothing in the `try` block throws.
- Clock readings: `Date.now()` ids, ISO creation dates and "now" are parameters. Id uniqueness is not modelled.
- Time zones: a calendar day is a fixed-offset division of the timestamp. `setHours(0,0,0,0)`, `toDateString()` and `setDate(getDate() - n)` are modelled as whole-day arithmetic, so daylight-saving shifts are not captured.
- Dates are stored as ISO strings and parsed with `new Date`. The model keeps the parsed millisecond value, so invalid date strings (NaN) are not captured.
- Floating point: moods, means, the rounding and the trend use exact reals. Binary rounding error and NaN are not modelled.
- `toLowerCase` is modelled on ASCII letters only. Messages are sequences of UTF-16 code units, as `charCodeAt` returns them.
- `Personalization.Activities`: a role outside the four, which would hit the `|| []` fallback, cannot occur in the model. The same holds for the insight and recommendation tables.
- `UserService.Merge`: a key present in the update with the value `undefined` is treated as absent, although a JavaScript spread would copy it.
- The React rendering, charts, theming, onboarding screens and the health-device connectors are not part of this model.

## Findings

| source | as written | input that shows it | evidently intended | confidence | as-written member | corrected member |
|---|---|---|---|---|---|---|
| src/components/dashboard/StatsCards.tsx:13-14 | `calculateStreak` sorts the `entries` array in place, newest first (lines 82-83). `calculateTrend` then runs on that same array, so its "recent" slice (`slice(-3)`) holds the three oldest entries. The dashboard passes the 7-day history, oldest first (src/components/dashboard/Dashboard.tsx:103, src/hooks/useMoodData.ts:26). | Six daily check-ins, oldest first, with moods 2, 3, 4, 5, 4, 3: the card shows a trend of -1.0. For any six check-ins at distinct times the sign is inverted. | The trend compares the latest three check-ins with the three before them: +1.0 for this week. | not executed | StatsCards.RenderedTrendInverted | StatsCards.IntendedTrendRising |
