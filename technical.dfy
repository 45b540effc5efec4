/**
 * The decision part of the technical analyzer: the latest RSI and MACD values are
 * classified into signals, and the two signals vote on an overall recommendation.
 * The RSI and MACD series themselves (rolling means, exponential averages) are
 * computed upstream and enter here as numbers.
 */
module Technical {

  const BUY: string := "buy"
  const SELL: string := "sell"
  const HOLD: string := "hold"

  datatype RsiReading = RsiReading(value: real, signal: string, recommendation: string)

  datatype MacdReading = MacdReading(
    macdLine: real, signalLine: real, histogram: real,
    signal: string, recommendation: string)

  datatype Overall = Overall(recommendation: string, confidence: real, buySignals: nat, sellSignals: nat)

  /** The dictionary `analyze` returns: the two sub-signals and their vote. */
  datatype TechnicalAnalysis = TechnicalAnalysis(rsi: RsiReading, macd: MacdReading, overall: Overall)

  /** RSI zones with strict bounds: above 70 overbought, below 30 oversold, 30 and 70 themselves neutral. */
  function ClassifyRsi(rsi: real): (r: RsiReading)
    ensures r.value == rsi
    ensures r.signal == "overbought" <==> rsi > 70.0
    ensures r.signal == "oversold" <==> rsi < 30.0
    ensures r.signal == "neutral" <==> 30.0 <= rsi <= 70.0
    ensures r.recommendation == SELL <==> r.signal == "overbought"
    ensures r.recommendation == BUY <==> r.signal == "oversold"
    ensures r.recommendation == HOLD <==> r.signal == "neutral"
  {
    if rsi > 70.0 then RsiReading(rsi, "overbought", SELL)
    else if rsi < 30.0 then RsiReading(rsi, "oversold", BUY)
    else RsiReading(rsi, "neutral", HOLD)
  }

  /**
   * MACD against its signal line; a crossover is reported when the histogram
   * changed sign strictly between the previous and the current point.
   */
  function ClassifyMacd(macd: real, signal: real, histogram: real, prevHistogram: real): (r: MacdReading)
    ensures r.macdLine == macd && r.signalLine == signal && r.histogram == histogram
    ensures r.recommendation == BUY <==> macd > signal
    ensures r.recommendation == SELL <==> macd < signal
    ensures r.recommendation == HOLD <==> macd == signal
    ensures r.signal == "bullish_crossover" <==> macd > signal && prevHistogram < 0.0 && histogram > 0.0
    ensures r.signal == "bullish" <==> macd > signal && !(prevHistogram < 0.0 && histogram > 0.0)
    ensures r.signal == "bearish_crossover" <==> macd < signal && prevHistogram > 0.0 && histogram < 0.0
    ensures r.signal == "bearish" <==> macd < signal && !(prevHistogram > 0.0 && histogram < 0.0)
    ensures r.signal == "neutral" <==> macd == signal
  {
    if macd > signal then
      if prevHistogram < 0.0 && histogram > 0.0 then MacdReading(macd, signal, histogram, "bullish_crossover", BUY)
      else MacdReading(macd, signal, histogram, "bullish", BUY)
    else if macd < signal then
      if prevHistogram > 0.0 && histogram < 0.0 then MacdReading(macd, signal, histogram, "bearish_crossover", SELL)
      else MacdReading(macd, signal, histogram, "bearish", SELL)
    else MacdReading(macd, signal, histogram, "neutral", HOLD)
  }

  /** `sum([...])` over a list of booleans: how many of them hold. */
  function CountTrue(flags: seq<bool>): (n: nat)
    ensures n <= |flags|
    ensures n == 0 <==> forall i :: 0 <= i < |flags| ==> !flags[i]
    ensures n == |flags| <==> forall i :: 0 <= i < |flags| ==> flags[i]
  {
    if flags == [] then 0 else (if flags[0] then 1 else 0) + CountTrue(flags[1..])
  }

  /** Counting a two-element list of flags. */
  lemma CountTwo(a: bool, b: bool)
    ensures CountTrue([a, b]) == (if a then 1 else 0) + (if b then 1 else 0)
  {
    assert [a, b][1..] == [b];
    assert [b][1..] == [];
  }

  /**
   * The vote of the two sub-recommendations: the side with more votes wins with
   * confidence votes/2; a tie is a hold at confidence 0.5.
   */
  function Vote(rsiRecommendation: string, macdRecommendation: string): (r: Overall)
    ensures r.buySignals + r.sellSignals <= 2
    ensures r.buySignals == (if rsiRecommendation == BUY then 1 else 0) + (if macdRecommendation == BUY then 1 else 0)
    ensures r.sellSignals == (if rsiRecommendation == SELL then 1 else 0) + (if macdRecommendation == SELL then 1 else 0)
    ensures r.recommendation == BUY <==> r.buySignals > r.sellSignals
    ensures r.recommendation == SELL <==> r.sellSignals > r.buySignals
    ensures r.recommendation == HOLD <==> r.buySignals == r.sellSignals
    ensures r.confidence == 0.5 || r.confidence == 1.0
    ensures r.confidence == 1.0 <==> rsiRecommendation == macdRecommendation && rsiRecommendation in {BUY, SELL}
  {
    var buys := CountTrue([rsiRecommendation == BUY, macdRecommendation == BUY]);
    var sells := CountTrue([rsiRecommendation == SELL, macdRecommendation == SELL]);
    CountTwo(rsiRecommendation == BUY, macdRecommendation == BUY);
    CountTwo(rsiRecommendation == SELL, macdRecommendation == SELL);
    if buys > sells then Overall(BUY, buys as real / 2.0, buys, sells)
    else if sells > buys then Overall(SELL, sells as real / 2.0, buys, sells)
    else Overall(HOLD, 0.5, buys, sells)
  }

  /**
   * The classification and voting part of `analyze`, given the latest RSI, MACD
   * and signal-line values and the MACD histogram series (at least one point).
   * The previous histogram value is 0 when the series has a single point.
   */
  function Analyze(rsi: real, macd: real, signal: real, histogram: seq<real>): (r: TechnicalAnalysis)
    requires |histogram| > 0
    ensures r.rsi == ClassifyRsi(rsi)
    ensures r.macd == ClassifyMacd(macd, signal, histogram[|histogram| - 1],
                                   if |histogram| > 1 then histogram[|histogram| - 2] else 0.0)
    ensures r.overall == Vote(r.rsi.recommendation, r.macd.recommendation)
    ensures r.macd.histogram == histogram[|histogram| - 1]
    ensures |histogram| == 1 ==> r.macd.signal in {"bullish", "bearish", "neutral"}
    ensures r.overall.recommendation == BUY <==> (rsi < 30.0 && macd >= signal) || (30.0 <= rsi <= 70.0 && macd > signal)
    ensures r.overall.recommendation == SELL <==> (rsi > 70.0 && macd <= signal) || (30.0 <= rsi <= 70.0 && macd < signal)
    ensures r.overall.confidence == 1.0 <==> (rsi < 30.0 && macd > signal) || (rsi > 70.0 && macd < signal)
    ensures r.overall.confidence in {0.5, 1.0}
  {
    var current := histogram[|histogram| - 1];
    var prev := if |histogram| > 1 then histogram[|histogram| - 2] else 0.0;
    var rsiReading := ClassifyRsi(rsi);
    var macdReading := ClassifyMacd(macd, signal, current, prev);
    TechnicalAnalysis(rsiReading, macdReading, Vote(rsiReading.recommendation, macdReading.recommendation))
  }

  /** An RSI vote against a MACD vote always ends in a hold at confidence 0.5. */
  lemma OpposingSignalsHold(rsi: real, macd: real, signal: real, histogram: seq<real>)
    requires |histogram| > 0
    requires (rsi > 70.0 && macd > signal) || (rsi < 30.0 && macd < signal)
    ensures Analyze(rsi, macd, signal, histogram).overall == Overall(HOLD, 0.5, 1, 1)
  {
  }
}
