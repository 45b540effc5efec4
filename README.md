# Bitcoin trading advisor: a verified model of the decision core

This project models the decision core of a Bitcoin trading advisor in Dafny and proves properties of that model. The advisor turns three inputs into one trading recommendation with a confidence, price targets and a written explanation. The inputs are technical indicators (RSI and MACD), news sentiment and Reddit sentiment. Two extreme Reddit readings short-circuit the blend with a contrarian alert.

The model covers seven parts:

- **Recommendation engine** (`recommendation.dfy`). It validates the weights. It runs the contrarian gate on the raw Reddit compound score. It checks for a 30-close bearish divergence. It forms the weighted score and maps it to strong_buy / buy / hold / sell / strong_sell with a confidence. It computes targets (the branch is picked by substring, so `strong_buy` takes the buy branch). It composes the reasoning text.
- **Technical classification** (`technical.dfy`). RSI zones, MACD position and crossover, and the two-vote overall signal.
- **Sentiment aggregation** (`sentiment.dfy`). VADER scoring of each article's headline text. The ±0.05 classification. Counts, mean compound, and a confidence that mixes the majority share with the mean's strength. The VADER scorer is a function parameter.
- **Power-law corridor** (`power_law.dfy`). The fair-value curve 10^(-17 + 5.8·log10 days), bands a fixed offset away in log10 space, the zone status, and the mean-reversion narrative. `10**x` and `log10` are function parameters. The lemmas assume only that `10**x` is positive, that both are increasing, and that `10**log10(x) == x` for positive x.
- **TTL cache** (`cache.dfy`). A class whose `entries` map is updated in place by `Get` (which deletes expired entries), `Set` and `Clear`. The clock is an explicit `now` argument.
- **Configuration lookup** (`config.dfy`). The dot-path walk of `get` as a loop proved against a recursive `Walk`. Also the API-key check that rejects placeholders, and `__getitem__`.
- **News fetcher** (`news.dfy`). Provider dispatch, and the assembly of article text with its dedupe and length rules for the content.

`wrappers.dfy` holds `Option`, `Result` and the Python exceptions raised (ValueError, KeyError, AttributeError). `strings.dfy` models the Python string operations the code relies on: ASCII `lower`, `in` on strings, `startswith`/`endswith`, `strip` emptiness, `join`, `split`, and `filter(None, …)`.

Two facts about the program shape the model:

- `src/engine/recommendation.py` blends three sources (technical, news, Reddit) with weights its caller supplies. The five-factor "holistic" weighting (RSI, moving averages, power law, MACD, sentiment) that the backtest and dashboard scripts name in their titles is not in that engine, so it is not modelled.
- A contrarian alert returns an empty target dictionary, modelled as `NoTargets`. Support and resistance at price ±5% come only from the hold branch of `_calculate_targets` (src/engine/recommendation.py:257-262).

## Model

| member | source | states |
|---|---|---|
| Technical.ClassifyRsi | src/analysis/technical.py:111-119 | RSI above 70 is overbought/sell, below 30 oversold/buy, and 30..70 inclusive neutral/hold, each as an if-and-only-if |
| Technical.ClassifyMacd | src/analysis/technical.py:121-138 | buy iff MACD above signal, sell iff below, hold iff equal; a crossover is reported exactly when the histogram changed sign strictly |
| Technical.CountTrue | src/analysis/technical.py:141-148 | the count of true flags is at most their number, 0 exactly when none holds, and the full number exactly when all hold |
| Technical.Vote | src/analysis/technical.py:140-158 | buy and sell counts are the votes cast; the side with more votes wins, a tie holds; confidence is 1.0 exactly when both votes agree on buy or sell, else 0.5 |
| Technical.Analyze | src/analysis/technical.py:101-179 | the RSI reading is the RSI classification, the MACD reading classifies the last histogram point against the one before it (0 for a single point), and the overall signal is the vote of the two; the buy/sell verdict and full confidence are also characterised directly in terms of RSI and MACD |
| Technical.OpposingSignalsHold | src/analysis/technical.py:140-158 | an RSI vote against a MACD vote always yields hold at 0.5 with one vote each |
| Sentiment.AnalyzeVader | src/analysis/sentiment.py:42-58 | blank text scores (0, 1, 0, 0) without calling the scorer; other text gets the scorer's result |
| Sentiment.Classify | src/analysis/sentiment.py:87-94 | positive iff compound >= 0.05, negative iff <= -0.05, neutral strictly between |
| Sentiment.RecommendationFor | src/analysis/sentiment.py:148-157 | buy iff positive, sell iff negative, hold otherwise |
| Sentiment.Preview | src/analysis/sentiment.py:97 | text of at most 200 characters is reported unchanged; longer text is exactly its first 200 characters followed by "..." |
| Sentiment.ArticleText | src/analysis/sentiment.py:70-82 | the scored text is title and description, each only when non-empty, space-joined; content is never included |
| Sentiment.AnalyzeArticle | src/analysis/sentiment.py:60-107 | scores, compound and classification come from the headline text; the article's title, source, url and date are carried over |
| Sentiment.AnalyzeAll | src/analysis/sentiment.py:134-137 | one analysis per article, in input order |
| Sentiment.Compounds | src/analysis/sentiment.py:132-137 | the collected compounds are the analyses' compounds, in order |
| Sentiment.AnalyzeAllClassified | src/analysis/sentiment.py:87-94 | every analysed article carries the classification of its own compound |
| Sentiment.CountsPartition | src/analysis/sentiment.py:144-146 | positive, negative and neutral counts add up to the number of analysed articles |
| Sentiment.MeanBounds | src/analysis/sentiment.py:140 | the mean of compounds in [-1, 1] lies in [-1, 1] |
| Sentiment.Share | src/analysis/sentiment.py:174-176 | a ratio is the count divided by the article count: ratio times the article count gives back the count |
| Sentiment.Summarize | src/analysis/sentiment.py:139-177 | the returned summary lists the analysed articles and their number, the mean compound, each class's count of analysed articles, the overall class and recommendation of that mean, the three ratios, and the confidence from the majority share and the mean's magnitude |
| Sentiment.SummarizeCounts | src/analysis/sentiment.py:144-146 | in a summary the three counts add up to the article count |
| Sentiment.SummarizeClassification | src/analysis/sentiment.py:148-157 | overall sentiment and recommendation follow the mean compound's ±0.05 thresholds |
| Sentiment.SummarizeConfidence | src/analysis/sentiment.py:159-162 | with compounds in [-1, 1] the confidence lies in [1/6, 1] |
| Sentiment.SummarizeAll | src/analysis/sentiment.py:130-162 | for any non-empty article list: count equals list length, counts partition it, average is the mean compound, confidence in [1/6, 1] for a scorer bounded by 1 |
| Sentiment.AnalyzeArticles | src/analysis/sentiment.py:109-178 | an empty list gives the neutral zero summary; otherwise the loop's result is the summary of all articles analysed in order, with the count, partition, mean and confidence properties |
| News.Headline | src/data/news_fetcher.py:179-185 | title then description, each only when non-empty |
| News.ArticleParts | src/data/news_fetcher.py:179-191 | the headline parts come first; content is appended exactly when it is non-empty, not already a part, and longer than 50 characters |
| News.NewsFetcher.constructor | src/data/news_fetcher.py:14-23 | the key is stored and the provider name, "newsapi" unless given, lower-cased |
| News.NewsFetcher.Dispatch | src/data/news_fetcher.py:37-44 | each of the three provider names selects its fetcher; any other name raises ValueError("Unknown provider: …") |
| News.NewsFetcher.GetArticleText | src/data/news_fetcher.py:169-193 | the text built by the conditional appends is the space-join of the qualifying parts |
| News.ArticleTextExtendsHeadline | src/data/news_fetcher.py:187-193 | the fetcher's text is the headline text, followed by " " and the content exactly when the content qualifies |
| Recommendation.NewEngine | src/engine/recommendation.py:12-29 | weights outside [0, 1] raise the range error first; weights whose sum is more than 0.01 from 1 raise the sum error; otherwise the engine holds them |
| Recommendation.DefaultWeightsAccepted | src/engine/recommendation.py:12-25 | the default 0.4/0.3/0.3 engine is accepted; 0.5/0.5/0.5 is rejected by the sum check |
| Recommendation.MaxOf | src/engine/recommendation.py:40 | the maximum is an element and bounds every element |
| Recommendation.CheckDivergence | src/engine/recommendation.py:31-47 | not enough data iff the column is missing or shorter than 30; bearish divergence iff the last close is the high of the last 30 and Reddit is below 0.5 |
| Recommendation.RecommendationToScore | src/engine/recommendation.py:167-182 | 1 iff the lower-cased label is "buy", -1 iff "sell", 0 otherwise |
| Recommendation.SourceScore | src/engine/recommendation.py:97-99 | a label's score scaled by a confidence in [0, 1] stays within [-1, 1]; a hold or unknown label scores 0 |
| Recommendation.CombinedScore | src/engine/recommendation.py:97-106 | when all three sources score the same x, the combined score is x times the weight sum |
| Recommendation.CombinedScoreWithinWeights | src/engine/recommendation.py:102-106 | with non-negative weights and unit confidences, the combined score is at most the weight sum in magnitude |
| Recommendation.WeightSumBound | src/engine/recommendation.py:24-25 | accepted weights sum to at most 1.01 |
| Recommendation.CombinedScoreBound | src/engine/recommendation.py:21-25 | accepted weights and unit confidences keep the combined score within 1.01 in magnitude |
| Recommendation.UnanimousBuyIsStrongBuy | src/engine/recommendation.py:97-109 | three full-confidence buys under the default weights score 1 and map to strong_buy at confidence 1 |
| Recommendation.LowerOfLabels | src/engine/recommendation.py:177-182 | the mapping keys buy, sell and hold are their own lower case |
| Recommendation.ScoreToRecommendation | src/engine/recommendation.py:184-205 | the five categories as exact score intervals with inclusive ±0.7/±0.3 bounds; strong categories report min(abs, 1), buy/sell abs, hold 1 - abs in (0.7, 1]; the confidence is in [0, 1] for every score |
| Recommendation.ScoreToRecommendationMirrors | src/engine/recommendation.py:194-205 | negating the score swaps buy and sell categories and keeps the confidence |
| Recommendation.CalculateTargets | src/engine/recommendation.py:224-262 | a label containing "buy" gets upside levels, else one containing "sell" downside levels, else the ±5% range |
| Recommendation.NotContainsFirstChar | src/engine/recommendation.py:231 | a pattern whose first character is absent from a label is not contained in it |
| Recommendation.ContainsSuffix | src/engine/recommendation.py:231 | a label contains each of its suffixes |
| Recommendation.BuyFamily | src/engine/recommendation.py:231 | strong_buy and buy take the buy branch |
| Recommendation.SellFamily | src/engine/recommendation.py:244 | sell and strong_sell take the sell branch, not the buy branch |
| Recommendation.HoldFamily | src/engine/recommendation.py:257 | hold takes neither branch |
| Recommendation.UpLevelsOrdered | src/engine/recommendation.py:233-235 | stop <= entry <= target 1 <= target 2 for a positive price and unit confidence |
| Recommendation.DownLevelsOrdered | src/engine/recommendation.py:246-248 | target 2 <= target 1 <= entry <= stop for a positive price and unit confidence |
| Recommendation.TargetsOrdered | src/engine/recommendation.py:224-262 | buy levels rise from stop to target 2, sell levels mirror them, and the hold range strictly brackets the entry |
| Recommendation.AgreementNote | src/engine/recommendation.py:217-220 | the agreement note iff all three recommendations are equal, the disagreement note otherwise |
| Recommendation.ReasonParts | src/engine/recommendation.py:209-220 | five reasons, the divergence first and the agreement note last, the last four never empty |
| Recommendation.GenerateReasoning | src/engine/recommendation.py:207-222 | the appended reasons, filtered and joined by ". " with a final "."; the text starts with the divergence and ends with the agreement note |
| Recommendation.JoinedReasons | src/engine/recommendation.py:222 | joining the filtered reasons keeps a non-empty first reason at the front and the last reason at the end |
| Recommendation.NonEmptyKeepsTail | src/engine/recommendation.py:222 | the filter keeps the four always-present reasons, preceded by the divergence only when it is non-empty |
| Recommendation.ContrarianAlertFor | src/engine/recommendation.py:153-164 | an alert has full confidence, the given message and type, no targets and no signals |
| Recommendation.SignalsFor | src/engine/recommendation.py:124-146 | each source reports its own label and confidence, its confidence-scaled score and its weight, with its details; the weighted sum of the three reported scores is the combined score |
| Recommendation.Blend | src/engine/recommendation.py:82-146 | the non-alert path: the weighted score, its category and confidence, targets from that category, the signals of all three sources, and the reasoning as the non-empty reasons joined by ". " with a final "."; within 1.01 for accepted weights and unit confidences |
| Recommendation.GenerateRecommendation | src/engine/recommendation.py:49-151 | above 0.85 the euphoria alert, below 0.15 the fear alert, and an alert exactly then; otherwise the weighted score, its category and targets, the signals of all three sources and the full reasoning text, with the score within 1.01 and a unit confidence for valid inputs |
| PowerLaw.FairValueIncreasing | src/analysis/power_law.py:24-33 | the fair value is positive and strictly increasing in days since genesis |
| PowerLaw.BplValue | src/analysis/power_law.py:24-33 | the fair value 10^(-17 + 5.8 log10 days) is positive |
| PowerLaw.LogOfPow10 | src/analysis/power_law.py:62-68 | log10 undoes 10**y, which the band calculation relies on when it takes log10 of the fair value |
| PowerLaw.FairValueLogLinear | src/analysis/power_law.py:26-33 | log10 of the fair value is exactly -17 + 5.8 log10(days) |
| PowerLaw.Band | src/analysis/power_law.py:62-68 | a band value is positive |
| PowerLaw.BandLogOffset | src/analysis/power_law.py:62-68 | a band lies exactly the offset away from the fair value in log10 space |
| PowerLaw.BandsBracketFair | src/analysis/power_law.py:62-68 | with a positive offset, 0 < support < fair < resistance |
| PowerLaw.Status | src/analysis/power_law.py:78-83 | deep value iff below support, bubble risk iff not below support and above resistance, fair zone iff between |
| PowerLaw.ZonesPartition | src/analysis/power_law.py:78-83 | the deep-value, bubble-risk and fair-zone conditions are pairwise exclusive and together cover every price, for any support and resistance |
| PowerLaw.MeanReversion | src/analysis/power_law.py:85-93 | a narrative iff the log distance to fair value exceeds half the offset; "down" iff the price's log is above fair's, else "up" |
| PowerLaw.NarrativeDirection | src/analysis/power_law.py:88-93 | for positive prices, the narrative says "down" iff the price is above fair value and "up" iff at or below |
| PowerLaw.FairValueLine | src/analysis/power_law.py:57-60 | one curve value per day in the index |
| PowerLaw.BandLine | src/analysis/power_law.py:62-68 | each band point is its fair point moved by the offset in log space |
| PowerLaw.Analyze | src/analysis/power_law.py:13-110 | ValueError iff the index is not a DatetimeIndex; otherwise the market-price series is the closes, the fair line is the curve over the day counts, the bands are that line moved by ∓offset, and the latest close, fair, support and resistance values come with their status and narrative; the offset defaults to 0.6 |
| PowerLaw.AnalyzeCorridor | src/analysis/power_law.py:59-83 | with a positive offset the reported support lies below fair and resistance above it, so the three statuses are the corridor's zones |
| Cache.Lookup | src/utils/cache.py:15-24 | a value is returned iff the key is stored and now is before its expiry, and it is the stored value |
| Cache.AfterGet | src/utils/cache.py:17-24 | a get deletes the key exactly when it is stored and expired, and changes no other entry |
| Cache.AfterSet | src/utils/cache.py:26-29 | a set stores (value, now + ttl) for the key and keeps every other entry |
| Cache.SimpleCache.constructor | src/utils/cache.py:12-13 | a new cache is empty |
| Cache.SimpleCache.Get | src/utils/cache.py:15-24 | returns the live value and leaves the table as AfterGet describes |
| Cache.SimpleCache.Set | src/utils/cache.py:26-29 | the table becomes the old one with the key's entry overwritten; the TTL defaults to 60 seconds |
| Cache.SimpleCache.Clear | src/utils/cache.py:31-33 | the table becomes empty |
| Cache.SetThenGet | src/utils/cache.py:19-20 | after a set with positive TTL, a get at the same instant returns the value and keeps the entry |
| Cache.SetNonPositiveTtlExpires | src/utils/cache.py:19-23 | after a set with TTL <= 0, a get at the same instant misses and deletes the entry |
| Cache.SetKeepsOthers | src/utils/cache.py:26-29 | a set on one key leaves what get sees for every other key unchanged |
| Cache.GetAbsent | src/utils/cache.py:17-24 | a get on an absent key misses and leaves the table unchanged |
| Cache.GetIdempotent | src/utils/cache.py:15-24 | a second get at the same instant answers the same and changes nothing further |
| Cache.ExpiryMonotone | src/utils/cache.py:19 | an entry live at some instant was live with the same value at every earlier instant |
| Cache.CacheModule.GetCache | src/utils/cache.py:36-42 | get_cache returns the one instance created with the module |
| Config.Walk | src/utils/config.py:58-64 | an empty path yields the value; a step needs a dict holding the segment, else the walk fails |
| Config.WalkAppend | src/utils/config.py:58-62 | walking p + q is walking p, then q from where it ends |
| Config.TwoSegments | src/utils/config.py:55 | a dotted path of two dot-free names splits into those two names |
| Strings.JoinSplit | src/utils/config.py:55 | splitting a path on "." and joining the segments with "." gives the path back, so no segment text is lost |
| Config.WalkTwo | src/utils/config.py:58-62 | a two-key walk is two nested dict lookups |
| Config.Config.Get | src/utils/config.py:40-64 | the loop's result is the walk over the dot-separated segments, or the default (None unless given) when a segment is missing or the value is not a dict |
| Config.Config.GetApiKey | src/utils/config.py:66-82 | ValueError iff the key is missing, falsy or starts with "YOUR_"; AttributeError iff it is truthy but not a string; otherwise exactly the stored string |
| Config.Config.GetItem | src/utils/config.py:84-86 | the top-level entry iff present, KeyError otherwise |
| Config.Config.SingleSegment | src/utils/config.py:55-64 | a dot-free path is one top-level lookup, falling back to the default |
| Config.Config.PathComposes | src/utils/config.py:55-64 | the value at "p.q" is q looked up inside the value at p, and missing when p is |
| Config.Config.ApiKeyLocation | src/utils/config.py:76 | for a dot-free service the key is read from the api_keys mapping, None when absent |

## Left out

- Network fetchers (NewsAPI, CryptoControl, CryptoPanic, price and Reddit fetchers): HTTP I/O. Only the provider dispatch and article-text assembly are modelled.
- Timestamps (`datetime.now()`), `time.time()` in the cache, and date strings in the power-law time series: clocks are an explicit `now` argument, and date formatting is not modelled.
- `round(...)` on reported confidences, scores and targets: values are exact reals.
- The median compound in `analyze_articles`: reported only and never used by a decision.
- `format_recommendation`, `get_sentiment_summary` and `__repr__`: presentation text.
- Recommendation.GenerateReasoning: the `:.2f` number formatting is the parameter `fmt`, and the unused final-recommendation argument is accepted and ignored.
- YAML loading (`_load_config`) and the `get_config` singleton: file I/O. The loaded document is the constructor's argument, and its top level is taken to be a mapping.
- The `analyzer_type` check in the sentiment analyzer's constructor and `analyze_text`: only VADER exists. The VADER scorer itself is foreign code and enters as the function `polarity`.
- Pandas RSI and MACD computation (`calculate_rsi`, `calculate_macd`): numeric series code. The latest values and the histogram series are inputs.
- Technical.Analyze: requires a non-empty histogram; on an empty series the source raises IndexError, which is not modelled.
- PowerLaw.Analyze: requires a non-empty index of the same length as the closes; the source raises IndexError on empty data. Time-zone localisation of the genesis date is folded into the given day counts.
- PowerLaw.BplValue: day counts of 0 or less (dates on or before 2009-01-03) are not modelled faithfully. There `np.log10` gives -inf (a fair value of 0.0) or NaN, but the model's `log10` parameter returns a real, so the positivity in the contract holds only in the model. PowerLaw.Analyze inherits this for such dates.
- Floating point: every Python float is an exact real, not only in `round(...)`. At the 0.01 weight-sum tolerance and at the ±0.3/±0.7, 0.85/0.15 and ±0.05 thresholds the source can land on the other side. For example, `RecommendationEngine(0.5, 0.5, 0.01)` raises "Weights must sum to 1.0" because `abs(0.5 + 0.5 + 0.01 - 1.0)` is 0.010000000000000009 in floats (src/engine/recommendation.py:24), while Recommendation.NewEngine(0.5, 0.5, 0.01) accepts it.
- PowerLaw.FairValueIncreasing: `10**x` and `log10` are function parameters; only the positivity of `10**x`, the monotonicity of both and `10**log10(x) == x` are assumed, and floating-point error is not modelled.
- Recommendation.GenerateRecommendation: the analysis dictionaries are typed records, so a missing key (KeyError) is not modelled.
- The five-factor weighted engine that some callers expect: no implementation exists in the repository.
- Recommendation.NewEngine: the engine's weights are never reassigned after construction, so the engine is an immutable value built by a Result-returning constructor rather than a class.
- Strings.Lower: ASCII case folding only; Unicode case folding (`'É'.lower()`) is not modelled. Strings.IsSpace covers every character Python's `str.isspace()` accepts.
