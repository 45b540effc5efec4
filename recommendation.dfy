/**
 * The three-source recommendation engine: a contrarian gate on the raw Reddit
 * compound score, then a weighted combination of the Reddit, news and technical
 * recommendations, thresholded into one of five categories with a confidence,
 * price targets and an ordered explanation.
 */
module Recommendation {
  import opened Wrappers
  import opened Strings
  import Technical

  const STRONG_BUY: string := "strong_buy"
  const BUY: string := "buy"
  const HOLD: string := "hold"
  const SELL: string := "sell"
  const STRONG_SELL: string := "strong_sell"
  const CONTRARIAN_ALERT: string := "CONTRARIAN_ALERT"

  const EUPHORIA_MESSAGE: string := "CONTRARIAN ALERT: Market sentiment is unsustainably bullish. Historically, this precedes a pullback. Consider a cautious stance."
  const FEAR_MESSAGE: string := "CONTRARIAN ALERT: Maximum fear detected. Potential local bottom. Historically, this is an accumulation zone."

  const NOT_ENOUGH_DATA: string := "Not enough data for divergence check."
  const BEARISH_DIVERGENCE: string := "BEARISH DIVERGENCE: Price is hitting new highs, but Reddit sentiment remains low. This could signal underlying weakness."
  const NO_DIVERGENCE: string := "No significant divergence detected."

  const ALL_AGREE: string := "Social sentiment, news sentiment, and technical analysis are all in agreement."
  const SOME_DISAGREE: string := "There is some disagreement between signals, requiring a weighted approach."

  /** Number of closing prices the divergence check looks back over. */
  const DIVERGENCE_WINDOW: nat := 30

  /** The weights `__init__` validates and stores; they are never changed afterwards. */
  datatype Engine = Engine(redditWeight: real, newsWeight: real, technicalWeight: real)

  /** The fields of a sentiment analysis the engine reads. */
  datatype SourceSentiment = SourceSentiment(
    overallSentiment: string, recommendation: string, confidence: real, averageCompound: real)

  /** `targets`: empty for an alert, entry/targets/stop for buy and sell, a range for hold. */
  datatype Targets =
    | NoTargets
    | Directional(entry: real, target1: real, target2: real, stopLoss: real)
    | Range(entry: real, support: real, resistance: real)

  datatype SourceSignal = SourceSignal(recommendation: string, confidence: real, score: real, weight: real)

  /** `signals`: empty for an alert, one entry per source otherwise. */
  datatype Signals =
    | NoSignals
    | Signals(
        reddit: SourceSignal, news: SourceSignal, technical: SourceSignal,
        redditDetails: SourceSentiment, newsDetails: SourceSentiment,
        technicalDetails: Technical.TechnicalAnalysis)

  /** What `generate_recommendation` returns (the timestamp is not modelled). */
  datatype Advice =
    | ContrarianAlert(
        recommendation: string, confidence: real, reasoning: string, alertType: string,
        currentPrice: real, targets: Targets, signals: Signals)
    | Combined(
        recommendation: string, confidence: real, combinedScore: real, signals: Signals,
        currentPrice: real, targets: Targets, reasoning: string)

  /** A category and its confidence, as `_score_to_recommendation` returns them. */
  datatype Decision = Decision(recommendation: string, confidence: real)

  function Abs(x: real): real {
    if x < 0.0 then -x else x
  }

  function Min(x: real, y: real): real {
    if x <= y then x else y
  }

  predicate InUnit(x: real) {
    0.0 <= x <= 1.0
  }

  /** The invariant `__init__` establishes: each weight in [0, 1], their sum within 0.01 of 1. */
  predicate ValidWeights(e: Engine) {
    && InUnit(e.redditWeight) && InUnit(e.newsWeight) && InUnit(e.technicalWeight)
    && Abs(e.redditWeight + e.newsWeight + e.technicalWeight - 1.0) <= 0.01
  }

  /** `RecommendationEngine.__init__`: the weights are checked, range first, then their sum. */
  function NewEngine(redditWeight: real := 0.4, newsWeight: real := 0.3, technicalWeight: real := 0.3): (r: Result<Engine>)
    ensures r.Ok? <==> ValidWeights(Engine(redditWeight, newsWeight, technicalWeight))
    ensures r.Ok? ==> r.value == Engine(redditWeight, newsWeight, technicalWeight)
    ensures !(InUnit(redditWeight) && InUnit(newsWeight) && InUnit(technicalWeight)) ==>
      r == Err(ValueError("Weights must be between 0 and 1"))
    ensures (InUnit(redditWeight) && InUnit(newsWeight) && InUnit(technicalWeight)
             && Abs(redditWeight + newsWeight + technicalWeight - 1.0) > 0.01) ==>
      r == Err(ValueError("Weights must sum to 1.0"))
  {
    if !(InUnit(redditWeight) && InUnit(newsWeight) && InUnit(technicalWeight)) then
      Err(ValueError("Weights must be between 0 and 1"))
    else if Abs(redditWeight + newsWeight + technicalWeight - 1.0) > 0.01 then
      Err(ValueError("Weights must sum to 1.0"))
    else
      Ok(Engine(redditWeight, newsWeight, technicalWeight))
  }

  /** The default weights 0.4 / 0.3 / 0.3 are accepted; equal halves of 1.5 are not. */
  lemma DefaultWeightsAccepted()
    ensures NewEngine() == Ok(Engine(0.4, 0.3, 0.3))
    ensures NewEngine(0.5, 0.5, 0.5) == Err(ValueError("Weights must sum to 1.0"))
  {
  }

  // ---------------------------------------------------------------- divergence

  /** The largest element of a non-empty sequence. */
  function MaxOf(xs: seq<real>): (m: real)
    requires |xs| > 0
    ensures m in xs
    ensures forall i :: 0 <= i < |xs| ==> xs[i] <= m
  {
    if |xs| == 1 then xs[0]
    else
      var rest := MaxOf(xs[1..]);
      if xs[0] >= rest then xs[0] else rest
  }

  /** The last close is at least every close of the last 30. */
  predicate AtRecentHigh(closes: seq<real>)
    requires |closes| >= DIVERGENCE_WINDOW
  {
    forall j :: |closes| - DIVERGENCE_WINDOW <= j < |closes| ==> closes[j] <= closes[|closes| - 1]
  }

  /**
   * `_check_divergence`. `closes` is the 'Close' column, or None when the
   * historical data has no such column.
   */
  function CheckDivergence(closes: Option<seq<real>>, redditScore: real): (r: string)
    ensures r in {NOT_ENOUGH_DATA, BEARISH_DIVERGENCE, NO_DIVERGENCE}
    ensures r == NOT_ENOUGH_DATA <==> closes.None? || |closes.value| < DIVERGENCE_WINDOW
    ensures r == BEARISH_DIVERGENCE <==>
      closes.Some? && |closes.value| >= DIVERGENCE_WINDOW && AtRecentHigh(closes.value) && redditScore < 0.5
  {
    if closes.None? || |closes.value| < DIVERGENCE_WINDOW then NOT_ENOUGH_DATA
    else
      var recent := closes.value[|closes.value| - DIVERGENCE_WINDOW..];
      var maxPrice := MaxOf(recent);
      var currentPrice := recent[|recent| - 1];
      assert AtRecentHigh(closes.value) <==> currentPrice >= maxPrice by {
        if currentPrice >= maxPrice {
          forall j | |closes.value| - DIVERGENCE_WINDOW <= j < |closes.value|
            ensures closes.value[j] <= closes.value[|closes.value| - 1]
          {
            assert closes.value[j] == recent[j - (|closes.value| - DIVERGENCE_WINDOW)];
          }
        }
      }
      if currentPrice >= maxPrice && redditScore < 0.5 then BEARISH_DIVERGENCE
      else NO_DIVERGENCE
  }

  // ------------------------------------------------------ scores and categories

  /** `_recommendation_to_score`: buy is 1, sell is -1, hold and anything else 0, case-insensitively. */
  function RecommendationToScore(recommendation: string): (v: real)
    ensures v == 1.0 <==> Lower(recommendation) == "buy"
    ensures v == -1.0 <==> Lower(recommendation) == "sell"
    ensures v == 0.0 <==> Lower(recommendation) != "buy" && Lower(recommendation) != "sell"
  {
    var key := Lower(recommendation);
    if key == "buy" then 1.0 else if key == "sell" then -1.0 else 0.0
  }

  /** A source's score: its label's value scaled by its confidence, within [-1, 1] for a confidence in [0, 1]. */
  function SourceScore(recommendation: string, confidence: real): (s: real)
    ensures InUnit(confidence) ==> Abs(s) <= 1.0
    ensures RecommendationToScore(recommendation) == 0.0 ==> s == 0.0
  {
    RecommendationToScore(recommendation) * confidence
  }

  /** The weighted sum of the three confidence-scaled source scores. */
  function CombinedScore(e: Engine, technical: Technical.Overall, news: SourceSentiment, reddit: SourceSentiment): (s: real)
    ensures var x := SourceScore(technical.recommendation, technical.confidence);
      (SourceScore(news.recommendation, news.confidence) == x && SourceScore(reddit.recommendation, reddit.confidence) == x) ==>
        s == x * (e.redditWeight + e.newsWeight + e.technicalWeight)
  {
    SourceScore(reddit.recommendation, reddit.confidence) * e.redditWeight
    + SourceScore(news.recommendation, news.confidence) * e.newsWeight
    + SourceScore(technical.recommendation, technical.confidence) * e.technicalWeight
  }

  /** A score in [-1, 1] under a non-negative weight contributes at most the weight. */
  lemma WeightedBound(score: real, weight: real)
    requires Abs(score) <= 1.0 && weight >= 0.0
    ensures Abs(score * weight) <= weight
  {
  }

  /** The triangle inequality for three terms, each bounded separately. */
  lemma AbsSumBound(a: real, b: real, c: real, x: real, y: real, z: real)
    requires Abs(a) <= x && Abs(b) <= y && Abs(c) <= z
    ensures Abs(a + b + c) <= x + y + z
  {
  }

  /** With non-negative weights and confidences in [0, 1], the combined score is at most the weight sum. */
  lemma {:induction false} CombinedScoreWithinWeights(e: Engine, technical: Technical.Overall, news: SourceSentiment, reddit: SourceSentiment)
    requires e.redditWeight >= 0.0 && e.newsWeight >= 0.0 && e.technicalWeight >= 0.0
    requires InUnit(technical.confidence) && InUnit(news.confidence) && InUnit(reddit.confidence)
    ensures Abs(CombinedScore(e, technical, news, reddit)) <= e.redditWeight + e.newsWeight + e.technicalWeight
  {
    var sr := SourceScore(reddit.recommendation, reddit.confidence);
    var sn := SourceScore(news.recommendation, news.confidence);
    var st := SourceScore(technical.recommendation, technical.confidence);
    WeightedBound(sr, e.redditWeight);
    WeightedBound(sn, e.newsWeight);
    WeightedBound(st, e.technicalWeight);
    assert CombinedScore(e, technical, news, reddit) == sr * e.redditWeight + sn * e.newsWeight + st * e.technicalWeight;
    AbsSumBound(sr * e.redditWeight, sn * e.newsWeight, st * e.technicalWeight, e.redditWeight, e.newsWeight, e.technicalWeight);
  }

  /** Accepted weights sum to at most 1.01. */
  lemma WeightSumBound(e: Engine)
    requires ValidWeights(e)
    ensures e.redditWeight + e.newsWeight + e.technicalWeight <= 1.01
  {
  }

  /** With accepted weights and confidences in [0, 1], the combined score is at most 1.01 in magnitude. */
  lemma {:induction false} CombinedScoreBound(e: Engine, technical: Technical.Overall, news: SourceSentiment, reddit: SourceSentiment)
    requires ValidWeights(e)
    requires InUnit(technical.confidence) && InUnit(news.confidence) && InUnit(reddit.confidence)
    ensures Abs(CombinedScore(e, technical, news, reddit)) <= e.redditWeight + e.newsWeight + e.technicalWeight <= 1.01
  {
    WeightSumBound(e);
    CombinedScoreWithinWeights(e, technical, news, reddit);
  }

  /** Three full-confidence buys under the default weights give a combined score of 1, a strong buy. */
  lemma UnanimousBuyIsStrongBuy(technical: Technical.Overall, news: SourceSentiment, reddit: SourceSentiment)
    requires technical.recommendation == news.recommendation == reddit.recommendation == BUY
    requires technical.confidence == news.confidence == reddit.confidence == 1.0
    ensures CombinedScore(Engine(0.4, 0.3, 0.3), technical, news, reddit) == 1.0
    ensures ScoreToRecommendation(1.0) == Decision(STRONG_BUY, 1.0)
  {
    LowerOfLabels();
  }

  /** The lower-case labels are their own lower case. */
  lemma LowerOfLabels()
    ensures Lower("buy") == "buy" && Lower("sell") == "sell" && Lower("hold") == "hold"
  {
    assert Lower("buy") == [LowerChar('b')] + Lower("uy");
    assert Lower("uy") == [LowerChar('u')] + Lower("y");
    assert Lower("sell") == [LowerChar('s')] + Lower("ell");
    assert Lower("ell") == [LowerChar('e')] + Lower("ll");
    assert Lower("ll") == [LowerChar('l')] + Lower("l");
    assert Lower("hold") == [LowerChar('h')] + Lower("old");
    assert Lower("old") == [LowerChar('o')] + Lower("ld");
    assert Lower("ld") == [LowerChar('l')] + Lower("d");
  }

  /**
   * `_score_to_recommendation`: inclusive thresholds at +-0.7 and +-0.3. Strong
   * categories report min(|s|, 1), buy and sell |s|, and hold 1 - |s|.
   */
  function ScoreToRecommendation(score: real): (d: Decision)
    ensures d.recommendation == STRONG_BUY <==> score >= 0.7
    ensures d.recommendation == BUY <==> 0.3 <= score < 0.7
    ensures d.recommendation == HOLD <==> -0.3 < score < 0.3
    ensures d.recommendation == SELL <==> -0.7 < score <= -0.3
    ensures d.recommendation == STRONG_SELL <==> score <= -0.7
    ensures d.recommendation in {STRONG_BUY, STRONG_SELL} ==> d.confidence == Min(Abs(score), 1.0)
    ensures d.recommendation in {BUY, SELL} ==> d.confidence == Abs(score)
    ensures d.recommendation == HOLD ==> d.confidence == 1.0 - Abs(score) && 0.7 < d.confidence <= 1.0
    ensures d.recommendation != HOLD ==> d.confidence >= 0.3
    ensures InUnit(d.confidence)
  {
    var absScore := Abs(score);
    if score >= 0.7 then Decision(STRONG_BUY, Min(absScore, 1.0))
    else if score >= 0.3 then Decision(BUY, absScore)
    else if score <= -0.7 then Decision(STRONG_SELL, Min(absScore, 1.0))
    else if score <= -0.3 then Decision(SELL, absScore)
    else Decision(HOLD, 1.0 - absScore)
  }

  /** The category on the other side of zero. */
  function Mirror(category: string): string {
    if category == STRONG_BUY then STRONG_SELL
    else if category == BUY then SELL
    else if category == SELL then BUY
    else if category == STRONG_SELL then STRONG_BUY
    else category
  }

  /** Negating the score mirrors the category and keeps the confidence. */
  lemma ScoreToRecommendationMirrors(score: real)
    ensures ScoreToRecommendation(-score).recommendation == Mirror(ScoreToRecommendation(score).recommendation)
    ensures ScoreToRecommendation(-score).confidence == ScoreToRecommendation(score).confidence
  {
  }

  // --------------------------------------------------------------- targets

  /**
   * `_calculate_targets`: the branch is picked by substring, so "buy" also
   * selects strong_buy and "sell" strong_sell; anything else gets the hold range.
   */
  function CalculateTargets(price: real, recommendation: string, confidence: real): (t: Targets)
    ensures Contains(recommendation, "buy") ==>
      t == Directional(price, price * (1.0 + 0.05 * confidence), price * (1.0 + 0.10 * confidence), price * (1.0 - 0.03 * confidence))
    ensures !Contains(recommendation, "buy") && Contains(recommendation, "sell") ==>
      t == Directional(price, price * (1.0 - 0.05 * confidence), price * (1.0 - 0.10 * confidence), price * (1.0 + 0.03 * confidence))
    ensures !Contains(recommendation, "buy") && !Contains(recommendation, "sell") ==>
      t == Range(price, price * 0.95, price * 1.05)
  {
    if Contains(recommendation, "buy") then
      Directional(price, price * (1.0 + 0.05 * confidence), price * (1.0 + 0.10 * confidence), price * (1.0 - 0.03 * confidence))
    else if Contains(recommendation, "sell") then
      Directional(price, price * (1.0 - 0.05 * confidence), price * (1.0 - 0.10 * confidence), price * (1.0 + 0.03 * confidence))
    else
      Range(price, price * 0.95, price * 1.05)
  }

  /** A pattern whose first character does not occur in a string does not occur in it. */
  lemma {:induction false} NotContainsFirstChar(s: string, pat: string)
    requires |pat| > 0 && pat[0] !in s
    ensures !Contains(s, pat)
  {
    if |s| > 0 {
      assert s[0] != pat[0];
      assert pat[0] !in s[1..] by {
        forall k | 0 <= k < |s| - 1 ensures s[1..][k] != pat[0] { assert s[1..][k] == s[k + 1]; }
      }
      NotContainsFirstChar(s[1..], pat);
    }
  }

  /** A string contains what it ends with. */
  lemma {:induction false} ContainsSuffix(s: string, pat: string)
    requires EndsWith(s, pat)
    ensures Contains(s, pat)
  {
    if |s| > |pat| {
      assert s[1..][|s| - 1 - |pat|..] == s[|s| - |pat|..];
      ContainsSuffix(s[1..], pat);
    } else {
      assert s[..|pat|] == s;
    }
  }

  /** strong_buy and buy take the buy branch of the target calculation. */
  lemma BuyFamily()
    ensures Contains(STRONG_BUY, "buy") && Contains(BUY, "buy")
  {
    ContainsSuffix(STRONG_BUY, "buy");
    ContainsSuffix(BUY, "buy");
  }

  /** sell and strong_sell take the sell branch. */
  lemma SellFamily()
    ensures !Contains(SELL, "buy") && Contains(SELL, "sell")
    ensures !Contains(STRONG_SELL, "buy") && Contains(STRONG_SELL, "sell")
  {
    ContainsSuffix(SELL, "sell");
    ContainsSuffix(STRONG_SELL, "sell");
    NotContainsFirstChar(SELL, "buy");
    NotContainsFirstChar(STRONG_SELL, "buy");
  }

  /** hold takes neither, so it gets the support/resistance range. */
  lemma HoldFamily()
    ensures !Contains(HOLD, "buy") && !Contains(HOLD, "sell")
  {
    NotContainsFirstChar(HOLD, "buy");
    NotContainsFirstChar(HOLD, "sell");
  }

  /** Buy levels: the stop below the entry, the first target above it, the second above that. */
  lemma UpLevelsOrdered(price: real, c: real)
    requires price > 0.0 && InUnit(c)
    ensures price * (1.0 - 0.03 * c) <= price <= price * (1.0 + 0.05 * c) <= price * (1.0 + 0.10 * c)
  {
  }

  /** Sell levels mirror the buy levels around the entry. */
  lemma DownLevelsOrdered(price: real, c: real)
    requires price > 0.0 && InUnit(c)
    ensures price * (1.0 - 0.10 * c) <= price * (1.0 - 0.05 * c) <= price <= price * (1.0 + 0.03 * c)
  {
  }

  /**
   * With a positive price and a confidence in [0, 1] the buy levels rise from the
   * stop through the entry to the targets, the sell levels mirror them, and the
   * hold range brackets the entry.
   */
  lemma TargetsOrdered(price: real, recommendation: string, confidence: real)
    requires price > 0.0 && InUnit(confidence)
    ensures match CalculateTargets(price, recommendation, confidence)
      case Directional(entry, t1, t2, stop) =>
        if Contains(recommendation, "buy") then stop <= entry <= t1 <= t2
        else t2 <= t1 <= entry <= stop
      case Range(entry, support, resistance) => support < entry < resistance
      case NoTargets => false
  {
    UpLevelsOrdered(price, confidence);
    DownLevelsOrdered(price, confidence);
  }

  // --------------------------------------------------------------- reasoning

  /** The closing note: agreement exactly when all three recommendations are equal. */
  function AgreementNote(technical: string, news: string, reddit: string): (note: string)
    ensures note == ALL_AGREE <==> technical == news && news == reddit
    ensures note == SOME_DISAGREE <==> !(technical == news && news == reddit)
  {
    if technical == news && news == reddit then ALL_AGREE else SOME_DISAGREE
  }

  /**
   * The five reasons in their fixed order. `fmt` stands for the two-decimal
   * number formatting of `_generate_reasoning`.
   */
  function ReasonParts(technical: Technical.TechnicalAnalysis, news: SourceSentiment, reddit: SourceSentiment,
                       divergence: string, fmt: real -> string): (parts: seq<string>)
    ensures |parts| == 5 && parts[0] == divergence
    ensures forall i :: 1 <= i < 5 ==> parts[i] != ""
    ensures parts[4] == AgreementNote(technical.overall.recommendation, news.recommendation, reddit.recommendation)
  {
    [divergence,
     "Reddit sentiment is " + reddit.overallSentiment + " (score: " + fmt(reddit.averageCompound) + ").",
     "News sentiment is " + news.overallSentiment + " (score: " + fmt(news.averageCompound) + ").",
     "Technical analysis suggests a " + technical.overall.recommendation + " state.",
     AgreementNote(technical.overall.recommendation, news.recommendation, reddit.recommendation)]
  }

  /**
   * `_generate_reasoning`: the non-empty reasons joined by ". " with a final ".".
   * `generate_recommendation` passes the final recommendation in, but it is not used.
   */
  method GenerateReasoning(technical: Technical.TechnicalAnalysis, news: SourceSentiment, reddit: SourceSentiment,
                           divergence: string, finalRecommendation: string, fmt: real -> string) returns (text: string)
    ensures text == Join(NonEmpty(ReasonParts(technical, news, reddit, divergence, fmt)), ". ") + "."
    ensures divergence != "" ==> StartsWith(text, divergence + ". ")
    ensures EndsWith(text, ". " + AgreementNote(technical.overall.recommendation, news.recommendation, reddit.recommendation) + ".")
  {
    var reasons := [divergence];
    reasons := reasons + ["Reddit sentiment is " + reddit.overallSentiment + " (score: " + fmt(reddit.averageCompound) + ")."];
    reasons := reasons + ["News sentiment is " + news.overallSentiment + " (score: " + fmt(news.averageCompound) + ")."];
    reasons := reasons + ["Technical analysis suggests a " + technical.overall.recommendation + " state."];
    if technical.overall.recommendation == news.recommendation && news.recommendation == reddit.recommendation {
      reasons := reasons + [ALL_AGREE];
    } else {
      reasons := reasons + [SOME_DISAGREE];
    }
    assert reasons == ReasonParts(technical, news, reddit, divergence, fmt);
    text := Join(NonEmpty(reasons), ". ") + ".";
    JoinedReasons(reasons);
  }

  /** The joined text of five reasons starts with the first (when present) and ends with the last. */
  lemma {:induction false} JoinedReasons(reasons: seq<string>)
    requires |reasons| == 5
    requires forall i :: 1 <= i < 5 ==> reasons[i] != ""
    ensures reasons[0] != "" ==> StartsWith(Join(NonEmpty(reasons), ". ") + ".", reasons[0] + ". ")
    ensures EndsWith(Join(NonEmpty(reasons), ". ") + ".", ". " + reasons[4] + ".")
  {
    var kept := NonEmpty(reasons);
    NonEmptyKeepsTail(reasons, reasons[0]);
    JoinEndsWithLast(kept, ". ");
    if reasons[0] != "" {
      assert kept[0] == reasons[0];
      assert Join(kept, ". ") == kept[0] + ". " + Join(kept[1..], ". ");
    }
  }

  /** Filtering five reasons whose last four are non-empty keeps those four, after the first when it is non-empty. */
  lemma NonEmptyKeepsTail(reasons: seq<string>, first: string)
    requires |reasons| == 5 && reasons[0] == first
    requires forall i :: 1 <= i < 5 ==> reasons[i] != ""
    ensures NonEmpty(reasons) == (if first == "" then [] else [first]) + reasons[1..]
  {
    NonEmptyKeepsAll(reasons[1..]);
    assert [first] + reasons[1..] == reasons;
  }

  // --------------------------------------------------------------- the engine

  /** Reddit's raw compound score above 0.85 or below 0.15 triggers the contrarian gate. */
  predicate Gated(reddit: SourceSentiment) {
    reddit.averageCompound > 0.85 || reddit.averageCompound < 0.15
  }

  /** `_create_contrarian_alert`: full confidence, no targets, no signals. */
  function ContrarianAlertFor(message: string, alertType: string, price: real): (a: Advice)
    ensures a.ContrarianAlert? && a.recommendation == CONTRARIAN_ALERT && a.confidence == 1.0
    ensures a.targets == NoTargets && a.signals == NoSignals
    ensures a.reasoning == message && a.alertType == alertType && a.currentPrice == price
  {
    ContrarianAlert(CONTRARIAN_ALERT, 1.0, message, alertType, price, NoTargets, NoSignals)
  }

  /**
   * The `signals` entry: per source its recommendation, confidence, confidence-scaled
   * score and weight, with the analysis it came from.
   */
  function SignalsFor(e: Engine, technical: Technical.TechnicalAnalysis, news: SourceSentiment, reddit: SourceSentiment): (s: Signals)
    ensures s.Signals?
    ensures s.reddit.score * e.redditWeight + s.news.score * e.newsWeight + s.technical.score * e.technicalWeight
            == CombinedScore(e, technical.overall, news, reddit)
    ensures s.reddit.weight == e.redditWeight && s.news.weight == e.newsWeight && s.technical.weight == e.technicalWeight
    ensures s.reddit.recommendation == reddit.recommendation && s.reddit.confidence == reddit.confidence
    ensures s.news.recommendation == news.recommendation && s.news.confidence == news.confidence
    ensures s.technical.recommendation == technical.overall.recommendation
    ensures s.technical.confidence == technical.overall.confidence
    ensures s.reddit.score == SourceScore(reddit.recommendation, reddit.confidence)
    ensures s.news.score == SourceScore(news.recommendation, news.confidence)
    ensures s.technical.score == SourceScore(technical.overall.recommendation, technical.overall.confidence)
    ensures s.redditDetails == reddit && s.newsDetails == news && s.technicalDetails == technical
  {
    Signals(
      SourceSignal(reddit.recommendation, reddit.confidence, SourceScore(reddit.recommendation, reddit.confidence), e.redditWeight),
      SourceSignal(news.recommendation, news.confidence, SourceScore(news.recommendation, news.confidence), e.newsWeight),
      SourceSignal(technical.overall.recommendation, technical.overall.confidence,
                   SourceScore(technical.overall.recommendation, technical.overall.confidence), e.technicalWeight),
      reddit, news, technical)
  }

  /**
   * The weighted path of `generate_recommendation`, taken when the contrarian
   * gate does not fire: divergence check, blended score, category, reasoning
   * and targets.
   */
  method Blend(
    e: Engine, technical: Technical.TechnicalAnalysis, news: SourceSentiment, reddit: SourceSentiment,
    closes: Option<seq<real>>, price: real, fmt: real -> string) returns (r: Advice)
    ensures r.Combined?
    ensures r.combinedScore == CombinedScore(e, technical.overall, news, reddit)
    ensures Decision(r.recommendation, r.confidence) == ScoreToRecommendation(r.combinedScore)
    ensures r.targets == CalculateTargets(price, r.recommendation, r.confidence)
    ensures r.currentPrice == price
    ensures r.signals == SignalsFor(e, technical, news, reddit)
    ensures r.reasoning == Join(NonEmpty(ReasonParts(technical, news, reddit, CheckDivergence(closes, reddit.averageCompound), fmt)), ". ") + "."
    ensures StartsWith(r.reasoning, CheckDivergence(closes, reddit.averageCompound) + ". ")
    ensures (ValidWeights(e) && InUnit(technical.overall.confidence) && InUnit(news.confidence) && InUnit(reddit.confidence)) ==>
      Abs(r.combinedScore) <= 1.01 && InUnit(r.confidence)
  {
    var divergence := CheckDivergence(closes, reddit.averageCompound);

    var techScore := SourceScore(technical.overall.recommendation, technical.overall.confidence);
    var newsScore := SourceScore(news.recommendation, news.confidence);
    var redditScore := SourceScore(reddit.recommendation, reddit.confidence);
    var combined := CombinedScore(e, technical.overall, news, reddit);

    var decision := ScoreToRecommendation(combined);
    var reasoning := GenerateReasoning(technical, news, reddit, divergence, decision.recommendation, fmt);
    var targets := CalculateTargets(price, decision.recommendation, decision.confidence);
    var signals := Signals(
      SourceSignal(reddit.recommendation, reddit.confidence, redditScore, e.redditWeight),
      SourceSignal(news.recommendation, news.confidence, newsScore, e.newsWeight),
      SourceSignal(technical.overall.recommendation, technical.overall.confidence, techScore, e.technicalWeight),
      reddit, news, technical);
    assert signals == SignalsFor(e, technical, news, reddit);
    r := Combined(decision.recommendation, decision.confidence, combined, signals, price, targets, reasoning);
    if ValidWeights(e) && InUnit(technical.overall.confidence) && InUnit(news.confidence) && InUnit(reddit.confidence) {
      CombinedScoreBound(e, technical.overall, news, reddit);
    }
  }

  /**
   * `generate_recommendation`. `closes` is the 'Close' column of the historical
   * data (None when absent); `fmt` formats scores in the reasoning text.
   */
  method GenerateRecommendation(
    e: Engine, technical: Technical.TechnicalAnalysis, news: SourceSentiment, reddit: SourceSentiment,
    closes: Option<seq<real>>, price: real, fmt: real -> string) returns (r: Advice)
    ensures reddit.averageCompound > 0.85 ==> r == ContrarianAlertFor(EUPHORIA_MESSAGE, "Extreme Euphoria", price)
    ensures reddit.averageCompound < 0.15 ==> r == ContrarianAlertFor(FEAR_MESSAGE, "Extreme Fear", price)
    ensures r.ContrarianAlert? <==> Gated(reddit)
    ensures !Gated(reddit) ==>
      && r.combinedScore == CombinedScore(e, technical.overall, news, reddit)
      && Decision(r.recommendation, r.confidence) == ScoreToRecommendation(r.combinedScore)
      && r.targets == CalculateTargets(price, r.recommendation, r.confidence)
      && r.currentPrice == price
      && r.signals == SignalsFor(e, technical, news, reddit)
      && r.reasoning == Join(NonEmpty(ReasonParts(technical, news, reddit, CheckDivergence(closes, reddit.averageCompound), fmt)), ". ") + "."
      && StartsWith(r.reasoning, CheckDivergence(closes, reddit.averageCompound) + ". ")
    ensures (!Gated(reddit) && ValidWeights(e)
             && InUnit(technical.overall.confidence) && InUnit(news.confidence) && InUnit(reddit.confidence)) ==>
      Abs(r.combinedScore) <= 1.01 && InUnit(r.confidence)
  {
    if reddit.averageCompound > 0.85 {
      return ContrarianAlertFor(EUPHORIA_MESSAGE, "Extreme Euphoria", price);
    }
    if reddit.averageCompound < 0.15 {
      return ContrarianAlertFor(FEAR_MESSAGE, "Extreme Fear", price);
    }
    r := Blend(e, technical, news, reddit, closes, price, fmt);
  }
}
