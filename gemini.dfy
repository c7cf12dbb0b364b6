/**
 * The language-model client (src/services/geminiService.ts), reduced to what
 * it decides locally: whether the model is usable, and the canned replies it
 * falls back to - a companion reply picked by a 32-bit string hash, a
 * keyword sentiment analysis and mood-bucket recommendations. Each network
 * round trip is a parameter saying how it ended.
 */
module Gemini {
  import opened Types
  import opened Sequences

  /** How a call to the remote model ended: it failed, or it answered with a value. */
  datatype Remote<T> = Failed | Answered(value: T)

  // ----- the 32-bit string hash -----

  /** A JavaScript 32-bit signed integer. */
  type Int32 = x: int | -0x8000_0000 <= x < 0x8000_0000

  /** A UTF-16 code unit, as `charCodeAt` returns it. */
  type CodeUnit = c: int | 0 <= c < 0x1_0000

  /** `ToInt32`: the signed 32-bit integer congruent to `x` modulo 2^32. */
  function ToInt32(x: int): (r: Int32)
    ensures (x - r) % 0x1_0000_0000 == 0
  {
    var m := x % 0x1_0000_0000;
    assert x == (x / 0x1_0000_0000) * 0x1_0000_0000 + m;
    if m >= 0x8000_0000 then m - 0x1_0000_0000 else m
  }

  /** Adding a multiple of 2^32 does not change the wrapped value. */
  lemma ToInt32Shift(a: int, k: int)
    ensures ToInt32(a + k * 0x1_0000_0000) == ToInt32(a)
  {
    var q, m := a / 0x1_0000_0000, a % 0x1_0000_0000;
    assert a == q * 0x1_0000_0000 + m && 0 <= m < 0x1_0000_0000;
    assert a + k * 0x1_0000_0000 == (q + k) * 0x1_0000_0000 + m;
  }

  /** The wrapped value differs from its argument by a multiple of 2^32. */
  lemma ToInt32Offset(x: int) returns (k: int)
    ensures x == ToInt32(x) + k * 0x1_0000_0000
  {
    k := (x - ToInt32(x)) / 0x1_0000_0000;
  }

  /** One step of the loop: `hash = ((hash << 5) - hash) + char`, then `hash & hash`;
      the shift-and-subtract step is the wrapped `31 * h + c`. */
  function HashStep(h: Int32, c: CodeUnit): (r: Int32)
    ensures r == ToInt32(31 * h + c)
  {
    ShiftSubtractWraps(h, c);
    ToInt32(ToInt32(h * 32) - h + c)
  }

  /** Wrapping `32 * h` before subtracting and adding changes nothing after the final wrap. */
  lemma ShiftSubtractWraps(h: Int32, c: CodeUnit)
    ensures ToInt32(ToInt32(h * 32) - h + c) == ToInt32(31 * h + c)
  {
    var k := ToInt32Offset(h * 32);
    assert ToInt32(h * 32) - h + c == (31 * h + c) + (-k) * 0x1_0000_0000;
    ToInt32Shift(31 * h + c, -k);
  }

  /** Java's `String.hashCode`, the reference the loop is meant to compute. */
  function JavaHash(s: seq<CodeUnit>): Int32 {
    if s == [] then 0 else ToInt32(31 * JavaHash(s[..|s| - 1]) + s[|s| - 1])
  }

  /** The polynomial the hash reduces: sum of `s[i] * 31^(n-1-i)`, without wrap-around. */
  function HashPolynomial(s: seq<CodeUnit>): int {
    if s == [] then 0 else 31 * HashPolynomial(s[..|s| - 1]) + s[|s| - 1]
  }

  /** Wrapping before or after a step of the polynomial gives the same 32-bit value. */
  lemma WrapThenStep(p: int, c: CodeUnit)
    ensures ToInt32(31 * ToInt32(p) + c) == ToInt32(31 * p + c)
  {
    var k := ToInt32Offset(p);
    assert 31 * p + c == (31 * ToInt32(p) + c) + (31 * k) * 0x1_0000_0000;
    ToInt32Shift(31 * ToInt32(p) + c, 31 * k);
  }

  /** The hash is the polynomial wrapped once at the end. */
  lemma {:induction false} JavaHashIsWrappedPolynomial(s: seq<CodeUnit>)
    ensures JavaHash(s) == ToInt32(HashPolynomial(s))
  {
    if s != [] {
      var init := s[..|s| - 1];
      JavaHashIsWrappedPolynomial(init);
      WrapThenStep(HashPolynomial(init), s[|s| - 1]);
    }
  }

  /** The hash loop of `getFallbackCompanionResponse`. */
  method MessageHash(msg: seq<CodeUnit>) returns (hash: Int32)
    ensures hash == JavaHash(msg)
  {
    hash := 0;
    for i := 0 to |msg|
      invariant hash == JavaHash(msg[..i])
    {
      assert msg[..i + 1][..i] == msg[..i];
      hash := HashStep(hash, msg[i]);
    }
    assert msg[..|msg|] == msg;
  }

  /** `Math.abs`; the result may leave 32-bit range. */
  function Abs(x: int): (r: nat)
    ensures r == x || r == -x
  {
    if x < 0 then -x else x
  }

  /** `Math.abs(hash) % responses.length` with five responses. */
  function TemplateIndex(hash: Int32): (r: nat)
    ensures r < 5
    ensures (Abs(hash) - r) % 5 == 0
  {
    Abs(hash) % 5
  }

  /** The most negative hash, whose absolute value leaves 32-bit range, still selects a template. */
  lemma TemplateIndexOfMinimum()
    ensures TemplateIndex(-0x8000_0000) == 3
  {
  }

  // ----- the canned companion replies -----

  const Reply0: (string, string) := ("I hear you",
    ". While I'm having some technical difficulties right now, I want you to know that your feelings are valid and I'm here for you. \U{1F49C}")
  const Reply1: (string, string) := ("Thank you for sharing that with me",
    ". I'm experiencing some connection issues, but I want you to know that what you're going through matters. Take a deep breath - you're not alone. \U{2728}")
  const Reply2: (string, string) := ("I appreciate you opening up",
    ". Even though I'm having trouble accessing my full capabilities right now, I want to remind you that it's okay to feel whatever you're feeling. Be gentle with yourself today. \U{1F31F}")
  const Reply3: string :=
    "I'm listening, even if I can't respond with my usual insight right now. Your thoughts and feelings are important. Remember to take care of yourself, and don't hesitate to reach out to someone you trust if you need support. \U{1F499}"
  const Reply4: (string, string) := ("I'm having some technical challenges at the moment",
    ", but I want you to know that sharing your thoughts takes courage. Whatever you're going through, remember that difficult feelings are temporary and you have the strength to get through this. \U{1F308}")

  /** The name counts only when given and non-empty (it is truthy). */
  predicate HasName(userName: Option<string>) {
    userName.Some? && userName.value != ""
  }

  /** The text before and after the name in reply `index` (not 3, which opens with the name). */
  function ReplyFrame(index: nat): (string, string)
    requires index < 5 && index != 3
  {
    if index == 0 then Reply0 else if index == 1 then Reply1 else if index == 2 then Reply2 else Reply4
  }

  /** `, name` after the opening words, when there is a name. */
  function NameAfter(userName: Option<string>): string {
    if HasName(userName) then ", " + userName.value else ""
  }

  /** `name, ` at the head of reply 3, when there is a name. */
  function NameBefore(userName: Option<string>): string {
    if HasName(userName) then userName.value + ", " else ""
  }

  /** Reply `index`, with the name spliced in when there is one. */
  function CompanionTemplate(index: nat, userName: Option<string>): (r: string)
    requires index < 5
    ensures !HasName(userName) ==>
      r == if index == 3 then Reply3 else ReplyFrame(index).0 + ReplyFrame(index).1
  {
    if index == 3 then NameBefore(userName) + Reply3
    else ReplyFrame(index).0 + NameAfter(userName) + ReplyFrame(index).1
  }

  /** A non-empty name appears verbatim in every reply. */
  lemma NameInReply(index: nat, userName: Option<string>)
    requires index < 5 && HasName(userName)
    ensures Contains(CompanionTemplate(index, userName), userName.value)
  {
    var name := userName.value;
    var r := CompanionTemplate(index, userName);
    if index == 3 {
      assert r == name + ", " + Reply3;
      assert r[..|name|] == name;
      assert OccursAt(r, name, 0);
    } else {
      var (head, tail) := ReplyFrame(index);
      assert r == head + (", " + name) + tail;
      assert r[|head| + 2..|head| + 2 + |name|] == name;
      assert OccursAt(r, name, |head| + 2);
    }
  }

  /** With no name, or an empty one, nothing is spliced in. */
  lemma TemplateWithoutName(index: nat)
    requires index < 5
    ensures CompanionTemplate(index, Some("")) == CompanionTemplate(index, None)
    ensures index == 3 ==> CompanionTemplate(index, None) == Reply3
    ensures index == 0 ==> CompanionTemplate(index, None) == Reply0.0 + Reply0.1
  {
  }

  /** The fallback reply the hash of the message selects. */
  function FallbackCompanionText(msg: seq<CodeUnit>, userName: Option<string>): string {
    CompanionTemplate(TemplateIndex(JavaHash(msg)), userName)
  }

  /** `getFallbackCompanionResponse`: hash the message, then pick that reply. */
  method FallbackCompanionResponse(msg: seq<CodeUnit>, userName: Option<string>) returns (reply: string)
    ensures reply == FallbackCompanionText(msg, userName)
  {
    var hash := MessageHash(msg);
    var index := Abs(hash) % 5;
    reply := CompanionTemplate(index, userName);
  }

  /** An empty message hashes to 0 and so gets the first reply. */
  lemma EmptyMessageGetsFirstReply(userName: Option<string>)
    ensures JavaHash([]) == 0 && TemplateIndex(JavaHash([])) == 0
    ensures FallbackCompanionText([], userName) == CompanionTemplate(0, userName)
  {
  }

  /** A one-unit message hashes to its code unit. */
  lemma SingleUnitHash(c: CodeUnit)
    ensures JavaHash([c]) == c
    ensures FallbackCompanionText([c], None) == CompanionTemplate(c % 5, None)
  {
    assert [c][..0] == [];
  }

  // ----- keyword sentiment -----

  /** `toLowerCase` on the ASCII letters. */
  function ToLower(s: string): (r: string)
    ensures |r| == |s|
    ensures forall i :: 0 <= i < |s| ==>
      r[i] == (if 'A' <= s[i] <= 'Z' then (s[i] as int + 32) as char else s[i])
  {
    if s == [] then []
    else
      var c := s[0];
      [if 'A' <= c <= 'Z' then (c as int + 32) as char else c] + ToLower(s[1..])
  }

  /** `toUpperCase` on the ASCII letters. */
  function ToUpper(s: string): (r: string)
    ensures |r| == |s|
    ensures forall i :: 0 <= i < |s| ==>
      r[i] == (if 'a' <= s[i] <= 'z' then (s[i] as int - 32) as char else s[i])
  {
    if s == [] then []
    else
      var c := s[0];
      [if 'a' <= c <= 'z' then (c as int - 32) as char else c] + ToUpper(s[1..])
  }

  const PositiveWords: seq<string> := ["happy", "good", "great", "excited"]
  const NegativeWords: seq<string> := ["sad", "bad", "stressed", "anxious"]
  const CalmWords: seq<string> := ["calm", "peaceful"]

  /** Some keyword of `keys` occurs in `words`. */
  predicate MentionsAny(words: string, keys: seq<string>) {
    exists k :: 0 <= k < |keys| && Contains(words, keys[k])
  }

  datatype SentimentResult = SentimentResult(sentiment: Sentiment, emotions: seq<string>, confidence: real)

  /** The keyword analysis: positive words win over negative ones, which win
      over calm ones; emotions are never empty and confidence is fixed. */
  function KeywordSentiment(text: string): (r: SentimentResult)
    ensures |r.emotions| > 0 && r.confidence == 0.75
    ensures MentionsAny(ToLower(text), PositiveWords) ==> r.sentiment == Positive && r.emotions == ["Happy", "Content"]
    ensures r.sentiment == Negative <==>
      !MentionsAny(ToLower(text), PositiveWords) && MentionsAny(ToLower(text), NegativeWords)
    ensures r.sentiment == Negative ==> r.emotions == ["Sad", "Stressed"]
    ensures (!MentionsAny(ToLower(text), PositiveWords) && !MentionsAny(ToLower(text), NegativeWords)
             && MentionsAny(ToLower(text), CalmWords)) ==> r.sentiment == Positive && r.emotions == ["Calm"]
    ensures r.sentiment == Neutral <==>
      !MentionsAny(ToLower(text), PositiveWords) && !MentionsAny(ToLower(text), NegativeWords)
      && !MentionsAny(ToLower(text), CalmWords)
    ensures r.sentiment == Neutral <==> r.emotions == ["Neutral"]
  {
    var words := ToLower(text);
    if MentionsAny(words, PositiveWords) then SentimentResult(Positive, ["Happy", "Content"], 0.75)
    else if MentionsAny(words, NegativeWords) then SentimentResult(Negative, ["Sad", "Stressed"], 0.75)
    else if MentionsAny(words, CalmWords) then SentimentResult(Positive, ["Calm"], 0.75)
    else SentimentResult(Neutral, ["Neutral"], 0.75)
  }

  /** `fallbackSentimentAnalysis`: sets the sentiment and pushes emotions as keywords are found. */
  method FallbackSentimentAnalysis(text: string) returns (r: SentimentResult)
    ensures r == KeywordSentiment(text)
  {
    var words := ToLower(text);
    var sentiment := Neutral;
    var emotions: seq<string> := [];
    if MentionsAny(words, PositiveWords) {
      sentiment := Positive;
      emotions := emotions + ["Happy", "Content"];
    } else if MentionsAny(words, NegativeWords) {
      sentiment := Negative;
      emotions := emotions + ["Sad", "Stressed"];
    } else if MentionsAny(words, CalmWords) {
      sentiment := Positive;
      emotions := emotions + ["Calm"];
    }
    r := SentimentResult(sentiment, if |emotions| > 0 then emotions else ["Neutral"], 0.75);
  }

  /** Lower-casing forgets the case a text was typed in. */
  lemma ToLowerOfToUpper(t: string)
    ensures ToLower(ToUpper(t)) == ToLower(t)
  {
    var u := ToUpper(t);
    assert forall i :: 0 <= i < |t| ==> ToLower(u)[i] == ToLower(t)[i];
  }

  /** The analysis does not depend on case. */
  lemma KeywordSentimentIgnoresCase(t: string)
    ensures KeywordSentiment(ToUpper(t)) == KeywordSentiment(t)
  {
    ToLowerOfToUpper(t);
  }

  // ----- mood-bucket recommendations -----

  const LowMoodRecommendations: seq<string> := [
    "Try some deep breathing exercises for 5 minutes",
    "Consider reaching out to a friend or family member",
    "Take a warm bath or listen to calming music"]
  const NeutralMoodRecommendations: seq<string> := [
    "Go for a short walk outside",
    "Practice gratitude by writing down 3 positive things",
    "Do some light stretching or gentle movement"]
  const GoodMoodRecommendations: seq<string> := [
    "Share your positive energy with others",
    "Try something creative or learn something new",
    "Reflect on what made you feel good today"]

  /** `fallbackRecommendations`: three suggestions for a low mood (up to 2),
      a mood of exactly 3, or any other mood. */
  function FallbackRecommendations(mood: real): (r: seq<string>)
    ensures |r| == 3
    ensures r == LowMoodRecommendations <==> mood <= 2.0
    ensures r == NeutralMoodRecommendations <==> mood == 3.0
    ensures r == GoodMoodRecommendations <==> mood > 2.0 && mood != 3.0
  {
    assert LowMoodRecommendations[0] != NeutralMoodRecommendations[0];
    assert LowMoodRecommendations[0] != GoodMoodRecommendations[0];
    assert NeutralMoodRecommendations[0] != GoodMoodRecommendations[0];
    if mood <= 2.0 then LowMoodRecommendations
    else if mood == 3.0 then NeutralMoodRecommendations
    else GoodMoodRecommendations
  }

  // ----- the service object -----

  /** The fields of a JSON object the model answered with, each possibly missing. */
  datatype ParsedSentiment = ParsedSentiment(
    sentiment: Option<Sentiment>, emotions: Option<seq<string>>, confidence: Option<real>)

  const DefaultCompanionReply: string :=
    "I'm here for you. Sometimes I need a moment to find the right words, but I'm listening. \U{1F49C}"

  /** What `generateCompanionResponse` answers: the model's text (or a
      default when it is empty) when the service is ready and the call
      succeeds, the hashed fallback otherwise. */
  function CompanionOutcome(ready: bool, msg: seq<CodeUnit>, userName: Option<string>, reply: Remote<string>)
    : (r: string)
    ensures !ready || reply.Failed? ==> r == FallbackCompanionText(msg, userName)
    ensures ready && reply.Answered? && reply.value != "" ==> r == reply.value
    ensures ready && reply.Answered? && reply.value == "" ==> r == DefaultCompanionReply
  {
    if !ready then FallbackCompanionText(msg, userName)
    else match reply
      case Failed => FallbackCompanionText(msg, userName)
      case Answered(text) => if text != "" then text else DefaultCompanionReply
  }

  /** What `analyzeSentiment` answers: the parsed fields with their defaults
      (a missing or zero confidence becomes 0.5), or the keyword analysis when
      the service is not ready, the call fails or no JSON object was found. */
  function SentimentOutcome(ready: bool, text: string, reply: Remote<Option<ParsedSentiment>>)
    : (r: SentimentResult)
    ensures !ready || reply.Failed? || reply.value.None? ==> r == KeywordSentiment(text)
    ensures ready && reply.Answered? && reply.value.Some? ==>
      var p := reply.value.value;
      r.sentiment == p.sentiment.GetOr(Neutral)
      && r.emotions == p.emotions.GetOr(["neutral"])
      && (p.confidence.Some? && p.confidence.value != 0.0 ==> r.confidence == p.confidence.value)
      && (p.confidence.None? || p.confidence.value == 0.0 ==> r.confidence == 0.5)
  {
    if !ready then KeywordSentiment(text)
    else match reply
      case Failed => KeywordSentiment(text)
      case Answered(None) => KeywordSentiment(text)
      case Answered(Some(p)) =>
        var confidence := if p.confidence.Some? && p.confidence.value != 0.0 then p.confidence.value else 0.5;
        SentimentResult(p.sentiment.GetOr(Neutral), p.emotions.GetOr(["neutral"]), confidence)
  }

  /** What `generateRecommendations` answers: the array the model gave, or
      the mood-bucket fallback when the service is not ready, the call fails
      or no array was found. */
  function RecommendationsOutcome(ready: bool, entry: MoodEntry, reply: Remote<Option<seq<string>>>)
    : (r: seq<string>)
    ensures !ready || reply.Failed? || reply.value.None? ==> r == FallbackRecommendations(entry.mood)
    ensures ready && reply.Answered? && reply.value.Some? ==> r == reply.value.value
  {
    if !ready then FallbackRecommendations(entry.mood)
    else match reply
      case Failed => FallbackRecommendations(entry.mood)
      case Answered(parsed) => parsed.GetOr(FallbackRecommendations(entry.mood))
  }

  /** Whichever way the call ends, the companion never answers with an empty text. */
  lemma CompanionNeverSilent(ready: bool, msg: seq<CodeUnit>, userName: Option<string>, reply: Remote<string>)
    ensures CompanionOutcome(ready, msg, userName, reply) != ""
  {
    var index := TemplateIndex(JavaHash(msg));
    if index == 3 {
      assert |CompanionTemplate(index, userName)| >= |Reply3|;
    } else {
      assert |CompanionTemplate(index, userName)| >= |ReplyFrame(index).0|;
    }
  }

  /** Without a usable model the answers depend only on the local fallbacks. */
  lemma NotReadyIgnoresReplies(msg: seq<CodeUnit>, name: Option<string>, r1: Remote<string>, r2: Remote<string>,
                               text: string, s1: Remote<Option<ParsedSentiment>>, s2: Remote<Option<ParsedSentiment>>,
                               entry: MoodEntry, a1: Remote<Option<seq<string>>>, a2: Remote<Option<seq<string>>>)
    ensures CompanionOutcome(false, msg, name, r1) == CompanionOutcome(false, msg, name, r2)
    ensures SentimentOutcome(false, text, s1) == SentimentOutcome(false, text, s2)
    ensures RecommendationsOutcome(false, entry, a1) == RecommendationsOutcome(false, entry, a2)
  {
  }

  class GeminiService {
    var isInitialized: bool
    var hasModel: bool

    /** `initialize`: with no API key, or when the SDK refuses it, the service stays uninitialised. */
    constructor (apiKey: string, sdkAccepts: bool)
      ensures isInitialized == hasModel == (apiKey != "" && sdkAccepts)
    {
      if apiKey == "" {
        isInitialized := false;
        hasModel := false;
      } else if sdkAccepts {
        isInitialized := true;
        hasModel := true;
      } else {
        isInitialized := false;
        hasModel := false;
      }
    }

    /** The service asks the model only when initialised and holding a model. */
    predicate Ready()
      reads this
    {
      isInitialized && hasModel
    }

    /** `generateCompanionResponse`: falls back to the hashed reply unless the model answered. */
    method GenerateCompanionResponse(msg: seq<CodeUnit>, userName: Option<string>, reply: Remote<string>)
      returns (r: string)
      ensures r == CompanionOutcome(Ready(), msg, userName, reply)
    {
      if !isInitialized || !hasModel {
        r := FallbackCompanionResponse(msg, userName);
        return;
      }
      match reply
      case Failed =>
        r := FallbackCompanionResponse(msg, userName);
      case Answered(text) =>
        r := if text != "" then text else DefaultCompanionReply;
    }

    /** `analyzeSentiment`: falls back to the keyword analysis unless the model answered with an object. */
    method AnalyzeSentiment(text: string, reply: Remote<Option<ParsedSentiment>>) returns (r: SentimentResult)
      ensures r == SentimentOutcome(Ready(), text, reply)
    {
      if !isInitialized || !hasModel {
        r := FallbackSentimentAnalysis(text);
        return;
      }
      match reply
      case Failed =>
        r := FallbackSentimentAnalysis(text);
      case Answered(parsed) =>
        match parsed
        case None =>
          r := FallbackSentimentAnalysis(text);
        case Some(p) =>
          var confidence := if p.confidence.Some? && p.confidence.value != 0.0 then p.confidence.value else 0.5;
          r := SentimentResult(p.sentiment.GetOr(Neutral), p.emotions.GetOr(["neutral"]), confidence);
    }

    /** `generateRecommendations`: falls back to the mood buckets unless the model answered with an array. */
    method GenerateRecommendations(entry: MoodEntry, reply: Remote<Option<seq<string>>>) returns (r: seq<string>)
      ensures r == RecommendationsOutcome(Ready(), entry, reply)
    {
      if !isInitialized || !hasModel {
        return FallbackRecommendations(entry.mood);
      }
      match reply
      case Failed =>
        r := FallbackRecommendations(entry.mood);
      case Answered(parsed) =>
        r := parsed.GetOr(FallbackRecommendations(entry.mood));
    }
  }
}
