/**
 * The sentiment analyzer around the VADER scorer. The scorer itself is foreign
 * code: it enters as the function `polarity`, which this model never looks into.
 */
module Sentiment {
  import opened Strings
  import News

  /** VADER's polarity scores for one text. */
  datatype Scores = Scores(neg: real, neu: real, pos: real, compound: real)

  /** What `analyze_article` returns for one article. */
  datatype ArticleAnalysis = ArticleAnalysis(
    text: string, scores: Scores, classification: string, compound: real,
    title: string, source: string, url: string, publishedDate: string)

  /**
   * What `analyze_articles` returns. An empty list gives `NoArticles`, which has
   * neither a recommendation nor a confidence.
   */
  datatype Aggregate =
    | NoArticles(
        overallSentiment: string, averageCompound: real, articleCount: nat,
        positiveCount: nat, negativeCount: nat, neutralCount: nat, articles: seq<ArticleAnalysis>)
    | Summary(
        overallSentiment: string, recommendation: string, confidence: real, averageCompound: real,
        articleCount: nat, positiveCount: nat, negativeCount: nat, neutralCount: nat,
        positiveRatio: real, negativeRatio: real, neutralRatio: real, articles: seq<ArticleAnalysis>)

  const PREVIEW_LENGTH: nat := 200

  /** `_analyze_vader`: a blank text scores as fully neutral without consulting the scorer. */
  function AnalyzeVader(text: string, polarity: string -> Scores): (r: Scores)
    ensures IsBlank(text) ==> r == Scores(0.0, 1.0, 0.0, 0.0)
    ensures !IsBlank(text) ==> r == polarity(text)
  {
    if IsBlank(text) then Scores(0.0, 1.0, 0.0, 0.0) else polarity(text)
  }

  /** The shared compound thresholds: at or beyond +-0.05 a text is positive or negative. */
  function Classify(compound: real): (c: string)
    ensures c == "positive" <==> compound >= 0.05
    ensures c == "negative" <==> compound <= -0.05
    ensures c == "neutral" <==> -0.05 < compound < 0.05
  {
    if compound >= 0.05 then "positive"
    else if compound <= -0.05 then "negative"
    else "neutral"
  }

  /** The recommendation that goes with an overall classification. */
  function RecommendationFor(classification: string): (r: string)
    ensures r == "buy" <==> classification == "positive"
    ensures r == "sell" <==> classification == "negative"
    ensures r == "hold" <==> classification !in {"positive", "negative"}
  {
    if classification == "positive" then "buy"
    else if classification == "negative" then "sell"
    else "hold"
  }

  /** The reported text: at most 200 characters of it, with "..." when cut. */
  function Preview(text: string): (r: string)
    ensures |r| <= PREVIEW_LENGTH + 3
    ensures |text| <= PREVIEW_LENGTH ==> r == text
    ensures |text| > PREVIEW_LENGTH ==> r == text[..PREVIEW_LENGTH] + "..."
  {
    if |text| > PREVIEW_LENGTH then text[..PREVIEW_LENGTH] + "..." else text
  }

  /** The text scored for an article: title and description, never the content. */
  function ArticleText(a: News.Article): (text: string)
    ensures a.title == "" && a.description == "" ==> text == ""
    ensures a.title != "" && a.description == "" ==> text == a.title
    ensures a.title == "" && a.description != "" ==> text == a.description
    ensures a.title != "" && a.description != "" ==> text == a.title + " " + a.description
  {
    Join(News.Headline(a), " ")
  }

  /** `analyze_article`. */
  function AnalyzeArticle(a: News.Article, polarity: string -> Scores): (r: ArticleAnalysis)
    ensures r.text == Preview(ArticleText(a))
    ensures r.scores == AnalyzeVader(ArticleText(a), polarity) && r.compound == r.scores.compound
    ensures r.classification == Classify(r.compound)
    ensures r.title == a.title && r.source == a.source && r.url == a.url && r.publishedDate == a.publishedDate
  {
    var text := ArticleText(a);
    var scores := AnalyzeVader(text, polarity);
    ArticleAnalysis(Preview(text), scores, Classify(scores.compound), scores.compound,
                    a.title, a.source, a.url, a.publishedDate)
  }

  /** Every article analysed, in order. */
  function AnalyzeAll(articles: seq<News.Article>, polarity: string -> Scores): (r: seq<ArticleAnalysis>)
    ensures |r| == |articles|
    ensures forall i :: 0 <= i < |r| ==> r[i] == AnalyzeArticle(articles[i], polarity)
  {
    if articles == [] then []
    else
      var init := articles[..|articles| - 1];
      var analyzed := AnalyzeAll(init, polarity);
      assert forall i :: 0 <= i < |init| ==> init[i] == articles[i];
      analyzed + [AnalyzeArticle(articles[|articles| - 1], polarity)]
  }

  function Compounds(analyzed: seq<ArticleAnalysis>): (r: seq<real>)
    ensures |r| == |analyzed|
    ensures forall i :: 0 <= i < |r| ==> r[i] == analyzed[i].compound
  {
    if analyzed == [] then [] else Compounds(analyzed[..|analyzed| - 1]) + [analyzed[|analyzed| - 1].compound]
  }

  function Sum(xs: seq<real>): real {
    if xs == [] then 0.0 else xs[0] + Sum(xs[1..])
  }

  /** `statistics.mean`. */
  function Mean(xs: seq<real>): real
    requires |xs| > 0
  {
    Sum(xs) / |xs| as real
  }

  /** How many analysed articles carry the given classification. */
  function CountClass(analyzed: seq<ArticleAnalysis>, classification: string): (n: nat)
    ensures n <= |analyzed|
  {
    if analyzed == [] then 0
    else (if analyzed[0].classification == classification then 1 else 0) + CountClass(analyzed[1..], classification)
  }

  function Max3(a: nat, b: nat, c: nat): nat {
    if a >= b && a >= c then a else if b >= c then b else c
  }

  /**
   * The aggregation formulas of `analyze_articles`, applied to the analysed
   * articles and the compound scores collected alongside them.
   */
  function Summarize(analyzed: seq<ArticleAnalysis>, compoundScores: seq<real>): (r: Aggregate)
    requires |analyzed| > 0 && |compoundScores| > 0
    ensures r.Summary? && r.articles == analyzed && r.articleCount == |analyzed|
    ensures r.averageCompound == Mean(compoundScores)
    ensures r.positiveCount == CountClass(analyzed, "positive")
    ensures r.negativeCount == CountClass(analyzed, "negative")
    ensures r.neutralCount == CountClass(analyzed, "neutral")
    ensures r.overallSentiment == Classify(r.averageCompound)
    ensures r.recommendation == RecommendationFor(r.overallSentiment)
    ensures r.confidence == Confidence(Max3(r.positiveCount, r.negativeCount, r.neutralCount), |analyzed|, r.averageCompound)
    ensures r.positiveRatio == Share(r.positiveCount, |analyzed|)
    ensures r.negativeRatio == Share(r.negativeCount, |analyzed|)
    ensures r.neutralRatio == Share(r.neutralCount, |analyzed|)
  {
    var n := |analyzed|;
    var avg := Mean(compoundScores);
    var pos := CountClass(analyzed, "positive");
    var neg := CountClass(analyzed, "negative");
    var neu := CountClass(analyzed, "neutral");
    var overall := Classify(avg);
    Summary(overall, RecommendationFor(overall), Confidence(Max3(pos, neg, neu), n, avg), avg,
            n, pos, neg, neu, Share(pos, n), Share(neg, n), Share(neu, n),
            analyzed)
  }

  /** A count's share of `n` articles. */
  function Share(count: nat, n: nat): (share: real)
    requires n > 0
    ensures share * n as real == count as real
  {
    count as real / n as real
  }

  /** Half the majority share plus half the strength (absolute value) of the mean compound. */
  function Confidence(majority: nat, n: nat, avg: real): real
    requires n > 0
  {
    var strength := if avg < 0.0 then -avg else avg;
    Share(majority, n) * 0.5 + strength * 0.5
  }

  /** Every analysed article carries the classification of its own compound. */
  predicate Classified(analyzed: seq<ArticleAnalysis>) {
    forall i :: 0 <= i < |analyzed| ==> analyzed[i].classification == Classify(analyzed[i].compound)
  }

  lemma AnalyzeAllClassified(articles: seq<News.Article>, polarity: string -> Scores)
    ensures Classified(AnalyzeAll(articles, polarity))
  {
  }

  /** Each article gets exactly one of the three classifications. */
  lemma {:induction false} CountsPartition(analyzed: seq<ArticleAnalysis>)
    requires Classified(analyzed)
    ensures CountClass(analyzed, "positive") + CountClass(analyzed, "negative") + CountClass(analyzed, "neutral") == |analyzed|
  {
    if analyzed != [] {
      assert Classified(analyzed[1..]) by {
        forall i | 0 <= i < |analyzed| - 1
          ensures analyzed[1..][i].classification == Classify(analyzed[1..][i].compound)
        {
          assert analyzed[1..][i] == analyzed[i + 1];
        }
      }
      CountsPartition(analyzed[1..]);
    }
  }

  /** A sum of n values in [-1, 1] lies in [-n, n]. */
  lemma {:induction false} SumBounds(xs: seq<real>)
    requires forall i :: 0 <= i < |xs| ==> -1.0 <= xs[i] <= 1.0
    ensures -(|xs| as real) <= Sum(xs) <= |xs| as real
  {
    if xs != [] {
      SumBounds(xs[1..]);
    }
  }

  /** The mean of values in [-1, 1] lies in [-1, 1]. */
  lemma MeanBounds(xs: seq<real>)
    requires |xs| > 0
    requires forall i :: 0 <= i < |xs| ==> -1.0 <= xs[i] <= 1.0
    ensures -1.0 <= Mean(xs) <= 1.0
  {
    SumBounds(xs);
    var n := |xs| as real;
    assert Mean(xs) * n == Sum(xs);
  }

  /** The counts of a summary add up to the number of articles. */
  lemma SummarizeCounts(analyzed: seq<ArticleAnalysis>)
    requires |analyzed| > 0 && Classified(analyzed)
    ensures var r := Summarize(analyzed, Compounds(analyzed));
      r.positiveCount + r.negativeCount + r.neutralCount == r.articleCount == |analyzed|
  {
    CountsPartition(analyzed);
  }

  /** The overall classification and the recommendation follow the mean compound. */
  lemma SummarizeClassification(analyzed: seq<ArticleAnalysis>)
    requires |analyzed| > 0
    ensures var r := Summarize(analyzed, Compounds(analyzed));
      && (r.overallSentiment == "positive" <==> r.averageCompound >= 0.05)
      && (r.overallSentiment == "negative" <==> r.averageCompound <= -0.05)
      && (r.recommendation == "buy" <==> r.averageCompound >= 0.05)
      && (r.recommendation == "sell" <==> r.averageCompound <= -0.05)
      && (r.recommendation == "hold" <==> -0.05 < r.averageCompound < 0.05)
  {
  }

  /** Half the majority share plus half the mean's strength, both at most 1/2. */
  lemma ConfidenceArithmetic(m: nat, n: nat, avg: real)
    requires 0 < n && 3 * m >= n && m <= n
    requires -1.0 <= avg <= 1.0
    ensures 1.0 / 6.0 <= Confidence(m, n, avg) <= 1.0
  {
    RatioBounds(m, n);
  }

  /** A share of at least a third of the whole lies in [1/3, 1]. */
  lemma RatioBounds(m: nat, n: nat)
    requires 0 < n && 3 * m >= n && m <= n
    ensures 1.0 / 3.0 <= m as real / n as real <= 1.0
  {
    var nr := n as real;
    DivMonotone(nr / 3.0, m as real, nr);
    DivMonotone(m as real, nr, nr);
    assert (nr / 3.0) / nr == 1.0 / 3.0;
  }

  /** Division by a positive number keeps the order. */
  lemma DivMonotone(a: real, b: real, c: real)
    requires a <= b && c > 0.0
    ensures a / c <= b / c
  {
  }

  /** With compounds in [-1, 1], the confidence of a summary lies in [1/6, 1]. */
  lemma SummarizeConfidence(analyzed: seq<ArticleAnalysis>)
    requires |analyzed| > 0 && Classified(analyzed)
    requires forall i :: 0 <= i < |analyzed| ==> -1.0 <= analyzed[i].compound <= 1.0
    ensures 1.0 / 6.0 <= Summarize(analyzed, Compounds(analyzed)).confidence <= 1.0
  {
    var xs := Compounds(analyzed);
    var r := Summarize(analyzed, xs);
    CountsPartition(analyzed);
    assert r.positiveCount + r.negativeCount + r.neutralCount == |analyzed|;
    MeanBounds(xs);
    var m := Max3(r.positiveCount, r.negativeCount, r.neutralCount);
    assert 3 * m >= |analyzed| && m <= |analyzed|;
    ConfidenceArithmetic(m, |analyzed|, r.averageCompound);
  }

  /** The summary `analyze_articles` returns for a non-empty list of articles. */
  lemma {:induction false} SummarizeAll(articles: seq<News.Article>, polarity: string -> Scores)
    requires articles != []
    ensures var r := Summarize(AnalyzeAll(articles, polarity), Compounds(AnalyzeAll(articles, polarity)));
      && r.articleCount == |articles|
      && r.positiveCount + r.negativeCount + r.neutralCount == r.articleCount
      && r.averageCompound == Mean(Compounds(AnalyzeAll(articles, polarity)))
    ensures (forall t :: -1.0 <= polarity(t).compound <= 1.0) ==>
      1.0 / 6.0 <= Summarize(AnalyzeAll(articles, polarity), Compounds(AnalyzeAll(articles, polarity))).confidence <= 1.0
  {
    var analyzed := AnalyzeAll(articles, polarity);
    AnalyzeAllClassified(articles, polarity);
    SummarizeCounts(analyzed);
    if forall t :: -1.0 <= polarity(t).compound <= 1.0 {
      forall i | 0 <= i < |analyzed| ensures -1.0 <= analyzed[i].compound <= 1.0 {
        assert analyzed[i] == AnalyzeArticle(articles[i], polarity);
      }
      SummarizeConfidence(analyzed);
    }
  }

  /** Analysing one more article of the prefix appends its analysis. */
  lemma AnalyzeAllStep(articles: seq<News.Article>, i: nat, polarity: string -> Scores)
    requires i < |articles|
    ensures AnalyzeAll(articles[..i + 1], polarity) == AnalyzeAll(articles[..i], polarity) + [AnalyzeArticle(articles[i], polarity)]
  {
    assert articles[..i + 1][..i] == articles[..i];
  }

  /**
   * `analyze_articles`: each article is analysed and its compound collected, in
   * order; the aggregate is then computed from the collected values.
   */
  method AnalyzeArticles(articles: seq<News.Article>, polarity: string -> Scores) returns (r: Aggregate)
    ensures articles == [] ==> r == NoArticles("neutral", 0.0, 0, 0, 0, 0, [])
    ensures articles != [] ==> r == Summarize(AnalyzeAll(articles, polarity), Compounds(AnalyzeAll(articles, polarity)))
    ensures r.articleCount == |articles|
    ensures r.positiveCount + r.negativeCount + r.neutralCount == r.articleCount
    ensures articles != [] ==> r.averageCompound == Mean(Compounds(AnalyzeAll(articles, polarity)))
    ensures articles != [] && (forall t :: -1.0 <= polarity(t).compound <= 1.0) ==>
      1.0 / 6.0 <= r.confidence <= 1.0
  {
    if articles == [] {
      return NoArticles("neutral", 0.0, 0, 0, 0, 0, []);
    }
    var analyzed: seq<ArticleAnalysis> := [];
    var compoundScores: seq<real> := [];
    for i := 0 to |articles|
      invariant analyzed == AnalyzeAll(articles[..i], polarity)
      invariant compoundScores == Compounds(analyzed)
    {
      var result := AnalyzeArticle(articles[i], polarity);
      AnalyzeAllStep(articles, i, polarity);
      analyzed := analyzed + [result];
      compoundScores := compoundScores + [result.compound];
    }
    assert articles[..|articles|] == articles;
    r := Summarize(analyzed, compoundScores);
    SummarizeAll(articles, polarity);
  }
}
