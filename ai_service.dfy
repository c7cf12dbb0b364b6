/**
 * The facade the screens call (src/services/aiService.ts): a fixed insight
 * chosen by the mood, and three calls passed straight to the language-model
 * client.
 */
module AiService {
  import opened Types
  import opened Gemini

  const DifficultDayInsight: string :=
    "It's okay to have difficult days. Remember that feelings are temporary and you have the strength to get through this."
  const BalanceInsight: string :=
    "You're doing well maintaining balance. Small positive actions can help shift your mood in a good direction."
  const GoodMoodInsight: string :=
    "It's wonderful that you're feeling good! Consider what contributed to this positive mood to recreate it in the future."

  /** `getInsight`: the difficult-day text up to mood 2, the balance text at
      exactly 3, and the positive text for every other mood. */
  function GetInsight(entry: MoodEntry): (r: string)
    ensures r == DifficultDayInsight <==> entry.mood <= 2.0
    ensures r == BalanceInsight <==> entry.mood == 3.0
    ensures r == GoodMoodInsight <==> entry.mood > 2.0 && entry.mood != 3.0
  {
    assert |DifficultDayInsight| == 117 && |BalanceInsight| == 107 && |GoodMoodInsight| == 118;
    if entry.mood <= 2.0 then DifficultDayInsight
    else if entry.mood == 3.0 then BalanceInsight
    else GoodMoodInsight
  }

  /** A mood between 2 and 3 that is not whole gets the positive text. */
  lemma InsightBetweenTwoAndThree()
    ensures GetInsight(MoodEntry("", 0, 2.5, "", None, None, None, None, None)) == GoodMoodInsight
  {
  }

  /** The insight and the fallback recommendations split moods into the same three buckets. */
  lemma InsightMatchesFallbackBuckets(entry: MoodEntry)
    ensures GetInsight(entry) == DifficultDayInsight <==> FallbackRecommendations(entry.mood) == LowMoodRecommendations
    ensures GetInsight(entry) == BalanceInsight <==> FallbackRecommendations(entry.mood) == NeutralMoodRecommendations
    ensures GetInsight(entry) == GoodMoodInsight <==> FallbackRecommendations(entry.mood) == GoodMoodRecommendations
  {
  }

  /** `analyzeSentiment`: exactly what the client answers. */
  method AnalyzeSentiment(client: GeminiService, text: string, reply: Remote<Option<ParsedSentiment>>)
    returns (r: SentimentResult)
    ensures r == SentimentOutcome(client.Ready(), text, reply)
  {
    r := client.AnalyzeSentiment(text, reply);
  }

  /** `generateRecommendations`: exactly what the client answers. */
  method GenerateRecommendations(client: GeminiService, entry: MoodEntry, reply: Remote<Option<seq<string>>>)
    returns (r: seq<string>)
    ensures r == RecommendationsOutcome(client.Ready(), entry, reply)
  {
    r := client.GenerateRecommendations(entry, reply);
  }

  /** `generateCompanionResponse`: exactly what the client answers. */
  method GenerateCompanionResponse(client: GeminiService, msg: seq<CodeUnit>, userName: Option<string>,
                                   reply: Remote<string>)
    returns (r: string)
    ensures r == CompanionOutcome(client.Ready(), msg, userName, reply)
  {
    r := client.GenerateCompanionResponse(msg, userName, reply);
  }
}
