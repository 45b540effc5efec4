/**
 * The Bitcoin power-law corridor: a fair-value curve over days since the genesis
 * block, support and resistance bands a fixed distance away in log10 space, a
 * status for the latest close and an optional mean-reversion narrative.
 * Powers of ten and base-10 logarithms are foreign numeric functions here; the
 * lemmas assume only that powers of ten are positive, that both functions are
 * increasing, and that 10**log10(x) == x for positive x.
 */
module PowerLaw {
  import opened Wrappers

  const DEEP_VALUE: string := "Deep Value"
  const FAIR_VALUE_ZONE: string := "Fair Value Zone"
  const BUBBLE_RISK: string := "Bubble Risk"

  const NARRATIVE_START: string := "The current price is significantly deviated from the long-term fair value line. A reversion to the mean ("
  const NARRATIVE_END: string := "wards) is mathematically probable over the medium term (6-12 months)."

  /** log10 of the curve's constant factor 10^-17, and the curve's exponent. */
  const LOG_A: real := -17.0
  const EXPONENT: real := 5.8


  /** The default half-width of the corridor in log10 space (about a factor of 4 either way). */
  const DEFAULT_CORRIDOR_OFFSET: real := 0.6

  /** `10**x` and `np.log10`. */
  datatype LogScale = LogScale(pow10: real -> real, log10: real -> real)

  /** What the lemmas assume of the two foreign functions. */
  ghost predicate ValidScale(s: LogScale) {
    && (forall x :: s.pow10(x) > 0.0)
    && (forall x, y :: x < y ==> s.pow10(x) < s.pow10(y))
    && (forall x, y :: 0.0 < x < y ==> s.log10(x) < s.log10(y))
    && (forall x :: x > 0.0 ==> s.pow10(s.log10(x)) == x)
  }

  /** The price history: the index (days since genesis when it is a DatetimeIndex) and the closes. */
  datatype Index = DatetimeIndex(daysSinceGenesis: seq<int>) | OtherIndex
  datatype History = History(index: Index, closes: seq<real>)

  /** What `analyze` returns (the date strings of the time series are not modelled). */
  datatype PowerLawAnalysis = PowerLawAnalysis(
    status: string, currentPrice: real, fairValue: real, supportValue: real, resistanceValue: real,
    meanReversionNarrative: string,
    marketPrice: seq<real>, fairValueLine: seq<real>, supportLine: seq<real>, resistanceLine: seq<real>)

  /** `_calculate_bpl_value` for one day: 10^(-17 + 5.8 * log10(days)). */
  function BplValue(s: LogScale, days: int): (bpl: real)
    ensures ValidScale(s) ==> bpl > 0.0
  {
    s.pow10(LOG_A + EXPONENT * s.log10(days as real))
  }

  /** The fair value grows with the number of days since genesis. */
  lemma FairValueIncreasing(s: LogScale, d1: int, d2: int)
    requires ValidScale(s)
    requires 0 < d1 < d2
    ensures 0.0 < BplValue(s, d1) < BplValue(s, d2)
  {
    var l1, l2 := s.log10(d1 as real), s.log10(d2 as real);
    assert l1 < l2;
    assert LOG_A + EXPONENT * l1 < LOG_A + EXPONENT * l2;
  }

  /** A band: the fair value moved by `offset` in log10 space. */
  function Band(s: LogScale, fair: real, offset: real): (band: real)
    ensures ValidScale(s) ==> band > 0.0
  {
    s.pow10(s.log10(fair) + offset)
  }

  /** log10 undoes 10**y: both are increasing and 10**log10(x) == x for positive x. */
  lemma LogOfPow10(s: LogScale, y: real)
    requires ValidScale(s)
    ensures s.log10(s.pow10(y)) == y
  {
    var z := s.log10(s.pow10(y));
    assert s.pow10(z) == s.pow10(y);
  }

  /** In log-log space the fair value is a line: log10(fair) = -17 + 5.8 * log10(days). */
  lemma FairValueLogLinear(s: LogScale, days: int)
    requires ValidScale(s)
    ensures s.log10(BplValue(s, days)) == LOG_A + EXPONENT * s.log10(days as real)
  {
    LogOfPow10(s, LOG_A + EXPONENT * s.log10(days as real));
  }

  /** A band sits exactly `offset` away from the fair value in log10 space. */
  lemma BandLogOffset(s: LogScale, fair: real, offset: real)
    requires ValidScale(s)
    ensures s.log10(Band(s, fair, offset)) == s.log10(fair) + offset
  {
    LogOfPow10(s, s.log10(fair) + offset);
  }

  /** With a positive offset, support lies below the fair value and resistance above it. */
  lemma BandsBracketFair(s: LogScale, fair: real, offset: real)
    requires ValidScale(s)
    requires fair > 0.0 && offset > 0.0
    ensures 0.0 < Band(s, fair, -offset) < fair < Band(s, fair, offset)
  {
    var l := s.log10(fair);
    assert s.pow10(l) == fair;
    assert s.pow10(l - offset) < s.pow10(l) < s.pow10(l + offset);
  }

  /** The status of a price: below support is deep value, otherwise above resistance is bubble risk. */
  function Status(price: real, support: real, resistance: real): (status: string)
    ensures status == DEEP_VALUE <==> price < support
    ensures status == BUBBLE_RISK <==> !(price < support) && price > resistance
    ensures status == FAIR_VALUE_ZONE <==> support <= price <= resistance
  {
    var status := FAIR_VALUE_ZONE;
    if price < support then DEEP_VALUE
    else if price > resistance then BUBBLE_RISK
    else status
  }

  /** Deep value, bubble risk and the fair zone partition every price, whatever the bands. */
  lemma ZonesPartition(price: real, support: real, resistance: real)
    ensures var deep := price < support;
      var bubble := !(price < support) && price > resistance;
      var zone := support <= price <= resistance;
      && (deep || bubble || zone)
      && !(deep && bubble) && !(deep && zone) && !(bubble && zone)
  {
  }

  function Narrative(direction: string): string {
    NARRATIVE_START + direction + NARRATIVE_END
  }

  /**
   * The mean-reversion narrative: present when the price is more than half the
   * corridor offset away from fair value in log10 space, pointing back towards it.
   */
  function MeanReversion(s: LogScale, price: real, fair: real, offset: real): (narrative: string)
    ensures narrative != "" <==> Distance(s.log10(price), s.log10(fair)) > offset * 0.5
    ensures narrative == Narrative("down") <==>
      Distance(s.log10(price), s.log10(fair)) > offset * 0.5 && s.log10(price) > s.log10(fair)
    ensures narrative == Narrative("up") <==>
      Distance(s.log10(price), s.log10(fair)) > offset * 0.5 && s.log10(price) <= s.log10(fair)
  {
    var logCurrent := s.log10(price);
    var logFair := s.log10(fair);
    if Distance(logCurrent, logFair) > offset * 0.5 then
      Narrative(if logCurrent > logFair then "down" else "up")
    else ""
  }

  function Distance(x: real, y: real): real {
    if x >= y then x - y else y - x
  }

  /** For positive prices the narrative says "down" exactly when the price is above fair value. */
  lemma NarrativeDirection(s: LogScale, price: real, fair: real, offset: real)
    requires ValidScale(s)
    requires price > 0.0 && fair > 0.0
    requires MeanReversion(s, price, fair, offset) != ""
    ensures MeanReversion(s, price, fair, offset) == Narrative("down") <==> price > fair
    ensures MeanReversion(s, price, fair, offset) == Narrative("up") <==> price <= fair
  {
    if price > fair {
      assert s.log10(fair) < s.log10(price);
    } else if price < fair {
      assert s.log10(price) < s.log10(fair);
    }
    assert NARRATIVE_START + "down" + NARRATIVE_END != NARRATIVE_START + "up" + NARRATIVE_END by {
      assert (NARRATIVE_START + "down" + NARRATIVE_END)[|NARRATIVE_START|] == 'd';
    }
  }

  /** The series `analyze` derives from the day counts. */
  function FairValueLine(s: LogScale, days: seq<int>): (line: seq<real>)
    ensures |line| == |days|
    ensures forall i :: 0 <= i < |days| ==> line[i] == BplValue(s, days[i])
  {
    seq(|days|, i requires 0 <= i < |days| => BplValue(s, days[i]))
  }

  function BandLine(s: LogScale, fairLine: seq<real>, offset: real): (line: seq<real>)
    ensures |line| == |fairLine|
    ensures forall i :: 0 <= i < |fairLine| ==> line[i] == Band(s, fairLine[i], offset)
  {
    seq(|fairLine|, i requires 0 <= i < |fairLine| => Band(s, fairLine[i], offset))
  }

  /**
   * `PowerLawModel.analyze`. A history whose index is not a DatetimeIndex raises
   * ValueError; otherwise the latest close is compared with the latest bands.
   */
  function Analyze(data: History, s: LogScale, offset: real := DEFAULT_CORRIDOR_OFFSET): (r: Result<PowerLawAnalysis>)
    requires data.index.DatetimeIndex? ==> 0 < |data.index.daysSinceGenesis| == |data.closes|
    ensures r.Err? <==> data.index.OtherIndex?
    ensures r.Err? ==> r.error == ValueError("historical_data must have a DatetimeIndex.")
    ensures r.Ok? ==>
      var a := r.value;
      var n := |data.closes|;
      && a.marketPrice == data.closes
      && a.fairValueLine == FairValueLine(s, data.index.daysSinceGenesis)
      && a.supportLine == BandLine(s, a.fairValueLine, -offset)
      && a.resistanceLine == BandLine(s, a.fairValueLine, offset)
      && a.currentPrice == data.closes[n - 1]
      && |a.fairValueLine| == |a.supportLine| == |a.resistanceLine| == n
      && a.fairValue == a.fairValueLine[n - 1] == BplValue(s, data.index.daysSinceGenesis[n - 1])
      && a.supportValue == a.supportLine[n - 1] == Band(s, a.fairValue, -offset)
      && a.resistanceValue == a.resistanceLine[n - 1] == Band(s, a.fairValue, offset)
      && a.status == Status(a.currentPrice, a.supportValue, a.resistanceValue)
      && a.meanReversionNarrative == MeanReversion(s, a.currentPrice, a.fairValue, offset)
  {
    if data.index.OtherIndex? then Err(ValueError("historical_data must have a DatetimeIndex."))
    else
      var fairLine := FairValueLine(s, data.index.daysSinceGenesis);
      var resistanceLine := BandLine(s, fairLine, offset);
      var supportLine := BandLine(s, fairLine, -offset);
      var n := |data.closes|;
      var price := data.closes[n - 1];
      var fair := fairLine[n - 1];
      var support := supportLine[n - 1];
      var resistance := resistanceLine[n - 1];
      Ok(PowerLawAnalysis(
        Status(price, support, resistance), price, fair, support, resistance,
        MeanReversion(s, price, fair, offset),
        data.closes, fairLine, supportLine, resistanceLine))
  }

  /**
   * With a positive offset and valid scale, the reported support lies below the
   * fair value and the resistance above it, so the three statuses are the three
   * zones of the corridor.
   */
  lemma AnalyzeCorridor(data: History, offset: real, s: LogScale)
    requires data.index.DatetimeIndex? && 0 < |data.index.daysSinceGenesis| == |data.closes|
    requires ValidScale(s) && offset > 0.0
    ensures var a := Analyze(data, s, offset).value;
      && a.supportValue < a.fairValue < a.resistanceValue
      && (a.status == DEEP_VALUE <==> a.currentPrice < a.supportValue)
      && (a.status == BUBBLE_RISK <==> a.currentPrice > a.resistanceValue)
      && (a.status == FAIR_VALUE_ZONE <==> a.supportValue <= a.currentPrice <= a.resistanceValue)
  {
    var a := Analyze(data, s, offset).value;
    var days := data.index.daysSinceGenesis;
    assert a.fairValue == s.pow10(LOG_A + EXPONENT * s.log10(days[|days| - 1] as real));
    BandsBracketFair(s, a.fairValue, offset);
  }
}
