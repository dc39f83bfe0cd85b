/** The context builder: technical indicators, volatility context, the time of
    day and the risk state merged into the fixed 28-entry feature vector the
    bandit reads. A missing key is `None` and takes the same neutral default
    as in the dictionary lookups. */
module ContextBuilder {
  import opened Common

  // ---------------------------------------------------------------------
  // Time of day and day of week
  // ---------------------------------------------------------------------

  datatype TimeBucket = PreMarket | Morning | Lunch | Afternoon | AfterHours | Closed

  /** `get_time_bucket` on the hour and minute of the parsed timestamp. The
      buckets partition the day: each holds exactly on its interval. */
  function GetTimeBucket(hour: int, minute: int): (b: TimeBucket)
    ensures b == PreMarket <==> hour < 9 || (hour == 9 && minute < 30)
    ensures b == Morning <==> (hour == 9 && minute >= 30) || 10 <= hour < 12
    ensures b == Lunch <==> 12 <= hour < 14
    ensures b == Afternoon <==> 14 <= hour < 16
    ensures b == AfterHours <==> 16 <= hour < 20
    ensures b == Closed <==> hour >= 20
  {
    if hour < 9 || (hour == 9 && minute < 30) then PreMarket
    else if hour < 12 then Morning
    else if hour < 14 then Lunch
    else if hour < 16 then Afternoon
    else if hour < 20 then AfterHours
    else Closed
  }

  datatype Day = Monday | Tuesday | Wednesday | Thursday | Friday | Saturday | Sunday

  /** `get_day_of_week` on `datetime.weekday()`: Monday is 0, Friday is 4,
      and 5 and 6 are the weekend. */
  function GetDayOfWeek(weekday: int): (d: Day)
    requires 0 <= weekday < 7
    ensures weekday == 0 <==> d == Monday
    ensures weekday == 4 <==> d == Friday
    ensures 1 <= weekday <= 3 <==> d == Tuesday || d == Wednesday || d == Thursday
    ensures weekday >= 5 <==> d == Saturday || d == Sunday
  {
    [Monday, Tuesday, Wednesday, Thursday, Friday, Saturday, Sunday][weekday]
  }

  /** The parts of a timestamp the features use; `weekday` is 0 for Monday. */
  datatype Clock = Clock(hour: int, minute: int, weekday: int)

  // ---------------------------------------------------------------------
  // Inputs
  // ---------------------------------------------------------------------

  /** The indicator record; the nested `indicators` and `donchian` keys are
      flattened, a missing dictionary making all of its keys missing. */
  datatype IndicatorInput = IndicatorInput(
    currentPrice: Option<real>,
    sma20: Option<real>,
    sma50: Option<real>,
    rsi: Option<real>,
    atr: Option<real>,
    vwap: Option<real>,
    donchianUpper: Option<real>,
    donchianLower: Option<real>)

  /** The volatility context; `highIv`/`lowIv` are the truth values of the entries. */
  datatype BsmInput = BsmInput(
    ivRank: Option<real>,
    highIv: Option<bool>,
    lowIv: Option<bool>,
    volRegime: Option<string>,
    vega: Option<real>,
    delta: Option<real>,
    mispricingProxy: Option<real>)

  datatype RiskInput = RiskInput(
    drawdownPct: Option<real>,
    exposurePct: Option<real>,
    openPositions: Option<real>,
    dailyLossPct: Option<real>,
    tradesToday: Option<real>)

  // ---------------------------------------------------------------------
  // Feature groups
  // ---------------------------------------------------------------------

  datatype TaFeatures = TaFeatures(
    priceSma20Gap: real,
    priceSma50Gap: real,
    sma20Sma50Gap: real,
    rsiNormalized: real,
    rsiOversold: real,
    rsiOverbought: real,
    atrPct: real,
    priceVwapGap: real,
    donchianPosition: real)

  /** The relative gap of `x` over a positive reference, 0 unless both are positive. */
  function Gap(x: real, reference: real): (g: real)
    ensures !(x > 0.0 && reference > 0.0) ==> g == 0.0
    ensures x > 0.0 && reference > 0.0 ==> g * reference == x - reference
  {
    if x > 0.0 && reference > 0.0 then (x - reference) / reference else 0.0
  }

  /** The SMA20 gap over SMA50, taken only when the price and both averages
      are positive. */
  function SmaSpread(price: real, sma20: real, sma50: real): (g: real)
    ensures !(price > 0.0 && sma20 > 0.0 && sma50 > 0.0) ==> g == 0.0
    ensures price > 0.0 && sma20 > 0.0 && sma50 > 0.0 ==> g * sma50 == sma20 - sma50
  {
    if price > 0.0 && sma50 > 0.0 && sma20 > 0.0 then (sma20 - sma50) / sma50 else 0.0
  }

  /** Where the price sits in a channel with positive, distinct bounds, as a
      fraction of its width from the lower bound; 0.5 without such a channel. */
  function ChannelPosition(price: real, upper: real, lower: real): (p: real)
    ensures !(upper > 0.0 && lower > 0.0 && upper != lower) ==> p == 0.5
    ensures upper > 0.0 && lower > 0.0 && upper != lower ==> p * (upper - lower) == price - lower
  {
    if upper > 0.0 && lower > 0.0 && upper != lower then (price - lower) / (upper - lower) else 0.5
  }

  /** With both positive, the gap is the excess over the reference as a
      fraction of it: positive above the reference, negative below. */
  lemma GapMeaning(x: real, reference: real)
    requires x > 0.0 && reference > 0.0
    ensures Gap(x, reference) * reference == x - reference
    ensures Gap(x, reference) > 0.0 <==> x > reference
    ensures Gap(x, reference) < 0.0 <==> x < reference
  {
    var g := Gap(x, reference);
    assert g * reference == x - reference;
    if x > reference {
      assert g > 0.0;
    } else if x < reference {
      assert g < 0.0;
    }
  }

  /** `extract_ta_features`. */
  function ExtractTaFeatures(ind: IndicatorInput): (f: TaFeatures)
    ensures var price := ind.currentPrice.GetOr(0.0);
            price <= 0.0 ==> f.priceSma20Gap == 0.0 && f.priceSma50Gap == 0.0 && f.sma20Sma50Gap == 0.0
                             && f.atrPct == 0.0 && f.priceVwapGap == 0.0
    ensures ind.sma20.GetOr(0.0) <= 0.0 ==> f.priceSma20Gap == 0.0 && f.sma20Sma50Gap == 0.0
    ensures ind.sma50.GetOr(0.0) <= 0.0 ==> f.priceSma50Gap == 0.0 && f.sma20Sma50Gap == 0.0
    ensures ind.vwap.GetOr(0.0) <= 0.0 ==> f.priceVwapGap == 0.0
    ensures var price := ind.currentPrice.GetOr(0.0);
            price > 0.0 ==> f.atrPct * price == ind.atr.GetOr(0.0)
    ensures f.rsiNormalized * 100.0 == ind.rsi.GetOr(50.0)
    ensures ind.rsi.None? ==> f.rsiNormalized == 0.5
    ensures f.rsiOversold + f.rsiOverbought == Flag(ind.rsi.GetOr(50.0) < 30.0 || ind.rsi.GetOr(50.0) > 70.0)
    ensures f.rsiOversold == 1.0 <==> ind.rsi.GetOr(50.0) < 30.0
    ensures f.rsiOverbought == 1.0 <==> ind.rsi.GetOr(50.0) > 70.0
    ensures var up := ind.donchianUpper.GetOr(0.0); var lo := ind.donchianLower.GetOr(0.0);
            !(up > 0.0 && lo > 0.0 && up != lo) ==> f.donchianPosition == 0.5
    ensures var price := ind.currentPrice.GetOr(0.0); var s20 := ind.sma20.GetOr(0.0);
            price > 0.0 && s20 > 0.0 ==> f.priceSma20Gap * s20 == price - s20
    ensures var price := ind.currentPrice.GetOr(0.0); var s50 := ind.sma50.GetOr(0.0);
            price > 0.0 && s50 > 0.0 ==> f.priceSma50Gap * s50 == price - s50
    ensures var price := ind.currentPrice.GetOr(0.0); var vw := ind.vwap.GetOr(0.0);
            price > 0.0 && vw > 0.0 ==> f.priceVwapGap * vw == price - vw
    ensures var price := ind.currentPrice.GetOr(0.0);
            var s20 := ind.sma20.GetOr(0.0); var s50 := ind.sma50.GetOr(0.0);
            price > 0.0 && s20 > 0.0 && s50 > 0.0 ==> f.sma20Sma50Gap * s50 == s20 - s50
    ensures var up := ind.donchianUpper.GetOr(0.0); var lo := ind.donchianLower.GetOr(0.0);
            var price := ind.currentPrice.GetOr(0.0);
            up > 0.0 && lo > 0.0 && up != lo ==> f.donchianPosition * (up - lo) == price - lo
  {
    var price := ind.currentPrice.GetOr(0.0);
    var sma20 := ind.sma20.GetOr(0.0);
    var sma50 := ind.sma50.GetOr(0.0);
    var rsi := ind.rsi.GetOr(50.0);
    var atr := ind.atr.GetOr(0.0);
    var vwap := ind.vwap.GetOr(0.0);
    var upper := ind.donchianUpper.GetOr(0.0);
    var lower := ind.donchianLower.GetOr(0.0);
    TaFeatures(
      Gap(price, sma20),
      Gap(price, sma50),
      SmaSpread(price, sma20, sma50),
      rsi / 100.0,
      if rsi < 30.0 then 1.0 else 0.0,
      if rsi > 70.0 then 1.0 else 0.0,
      if price > 0.0 then atr / price else 0.0,
      Gap(price, vwap),
      ChannelPosition(price, upper, lower))
  }

  /** Inside a proper channel, the Donchian position is 0 at the lower bound,
      1 at the upper bound and between them for a price between them. */
  lemma DonchianPositionRange(ind: IndicatorInput)
    requires var up := ind.donchianUpper.GetOr(0.0); var lo := ind.donchianLower.GetOr(0.0);
             up > lo > 0.0
    ensures var up := ind.donchianUpper.GetOr(0.0); var lo := ind.donchianLower.GetOr(0.0);
            var price := ind.currentPrice.GetOr(0.0);
            var pos := ExtractTaFeatures(ind).donchianPosition;
            (lo <= price <= up ==> 0.0 <= pos <= 1.0) && (price == lo ==> pos == 0.0) && (price == up ==> pos == 1.0)
  {
    var up := ind.donchianUpper.GetOr(0.0);
    var lo := ind.donchianLower.GetOr(0.0);
    var price := ind.currentPrice.GetOr(0.0);
    if lo <= price <= up {
      DivBounds(price - lo, up - lo, 0.0, 1.0);
    }
  }

  datatype BsmFeatures = BsmFeatures(
    ivRankNormalized: real,
    highIvRegime: real,
    lowIvRegime: real,
    volRegimeHigh: real,
    volRegimeLow: real,
    vega: real,
    delta: real,
    mispricingProxy: real)

  /** `extract_bsm_features`. */
  function ExtractBsmFeatures(ctx: BsmInput): (f: BsmFeatures)
    ensures f.ivRankNormalized * 100.0 == ctx.ivRank.GetOr(50.0)
    ensures f.highIvRegime == (if ctx.highIv.GetOr(false) then 1.0 else 0.0)
    ensures f.lowIvRegime == (if ctx.lowIv.GetOr(false) then 1.0 else 0.0)
    ensures f.volRegimeHigh == 1.0 <==> ctx.volRegime == Some("high")
    ensures f.volRegimeLow == 1.0 <==> ctx.volRegime == Some("low")
    ensures f.volRegimeHigh + f.volRegimeLow == Flag(ctx.volRegime == Some("high") || ctx.volRegime == Some("low"))
    ensures f.delta >= 0.0 && (f.delta == ctx.delta.GetOr(0.0) || f.delta == -ctx.delta.GetOr(0.0))
    ensures f.vega == ctx.vega.GetOr(0.0) && f.mispricingProxy == ctx.mispricingProxy.GetOr(0.0)
  {
    var vol := ctx.volRegime.GetOr("normal");
    BsmFeatures(
      ctx.ivRank.GetOr(50.0) / 100.0,
      if ctx.highIv.GetOr(false) then 1.0 else 0.0,
      if ctx.lowIv.GetOr(false) then 1.0 else 0.0,
      if vol == "high" then 1.0 else 0.0,
      if vol == "low" then 1.0 else 0.0,
      ctx.vega.GetOr(0.0),
      Abs(ctx.delta.GetOr(0.0)),
      ctx.mispricingProxy.GetOr(0.0))
  }

  datatype RegimeFeatures = RegimeFeatures(
    timePreMarket: real,
    timeMorning: real,
    timeLunch: real,
    timeAfternoon: real,
    timeAfterHours: real,
    dayMonday: real,
    dayFriday: real,
    dayMidweek: real)

  /** A condition as a 0.0/1.0 feature. */
  function Flag(b: bool): real
  {
    if b then 1.0 else 0.0
  }

  /** `extract_regime_features` for the clock of the timestamp (the current
      time stands in for a missing one). */
  function ExtractRegimeFeatures(c: Clock): (f: RegimeFeatures)
    requires 0 <= c.weekday < 7
    ensures f.timePreMarket == Flag(c.hour < 9 || (c.hour == 9 && c.minute < 30))
    ensures f.timeMorning == Flag((c.hour == 9 && c.minute >= 30) || 10 <= c.hour < 12)
    ensures f.timeLunch == Flag(12 <= c.hour < 14)
    ensures f.timeAfternoon == Flag(14 <= c.hour < 16)
    ensures f.timeAfterHours == Flag(16 <= c.hour < 20)
    ensures f.dayMonday == Flag(c.weekday == 0) && f.dayFriday == Flag(c.weekday == 4)
    ensures f.dayMidweek == Flag(1 <= c.weekday <= 3)
  {
    var bucket := GetTimeBucket(c.hour, c.minute);
    var day := GetDayOfWeek(c.weekday);
    RegimeFeatures(
      Flag(bucket == PreMarket),
      Flag(bucket == Morning),
      Flag(bucket == Lunch),
      Flag(bucket == Afternoon),
      Flag(bucket == AfterHours),
      Flag(day == Monday),
      Flag(day == Friday),
      Flag(day in {Tuesday, Wednesday, Thursday}))
  }

  function TimeFlagSum(f: RegimeFeatures): real {
    f.timePreMarket + f.timeMorning + f.timeLunch + f.timeAfternoon + f.timeAfterHours
  }

  function DayFlagSum(f: RegimeFeatures): real {
    f.dayMonday + f.dayFriday + f.dayMidweek
  }

  /** The time flags are one-hot: exactly one is set before 20:00, none from
      20:00 on (the closed bucket); entry 18 joins the two outside-hours ones. */
  lemma TimeFlagsOneHot(c: Clock)
    requires 0 <= c.weekday < 7
    ensures var f := ExtractRegimeFeatures(c);
            var b := GetTimeBucket(c.hour, c.minute);
            && TimeFlagSum(f) == Flag(c.hour < 20)
            && f.timePreMarket + f.timeAfterHours == Flag(b == PreMarket || b == AfterHours)
  {
    match GetTimeBucket(c.hour, c.minute)
    case PreMarket =>
    case Morning =>
    case Lunch =>
    case Afternoon =>
    case AfterHours =>
    case Closed =>
  }

  /** At most one day flag is set, and none on Saturday or Sunday. */
  lemma DayFlagsAtMostOne(c: Clock)
    requires 0 <= c.weekday < 7
    ensures DayFlagSum(ExtractRegimeFeatures(c)) == Flag(c.weekday < 5)
  {
    match GetDayOfWeek(c.weekday)
    case Monday =>
    case Tuesday =>
    case Wednesday =>
    case Thursday =>
    case Friday =>
    case Saturday =>
    case Sunday =>
  }

  datatype RiskFeatures = RiskFeatures(
    recentDrawdown: real,
    exposurePct: real,
    openPositions: real,
    dailyLossPct: real,
    tradesToday: real)

  /** `extract_risk_features`: three pass-throughs and two scaled counts. */
  function ExtractRiskFeatures(r: RiskInput): (f: RiskFeatures)
    ensures f.recentDrawdown == r.drawdownPct.GetOr(0.0)
    ensures f.exposurePct == r.exposurePct.GetOr(0.0)
    ensures f.dailyLossPct == r.dailyLossPct.GetOr(0.0)
    ensures f.openPositions * 10.0 == r.openPositions.GetOr(0.0)
    ensures f.tradesToday * 20.0 == r.tradesToday.GetOr(0.0)
  {
    RiskFeatures(
      r.drawdownPct.GetOr(0.0),
      r.exposurePct.GetOr(0.0),
      r.openPositions.GetOr(0.0) / 10.0,
      r.dailyLossPct.GetOr(0.0),
      r.tradesToday.GetOr(0.0) / 20.0)
  }

  // ---------------------------------------------------------------------
  // The context
  // ---------------------------------------------------------------------

  datatype ContextInput = ContextInput(
    symbol: Option<string>,
    indicators: IndicatorInput,
    bsmCtx: BsmInput,
    timestamp: Option<Clock>,
    riskContext: RiskInput)

  datatype Context = Context(
    symbol: string,
    ta: TaFeatures,
    bsm: BsmFeatures,
    regime: RegimeFeatures,
    risk: RiskFeatures,
    featureVector: seq<real>,
    featureCount: int)

  /** The ordered vector: 8 technical, 7 volatility, 8 time (the last one
      reserved) and 5 risk entries. */
  function FeatureVector(ta: TaFeatures, bsm: BsmFeatures, rg: RegimeFeatures, rk: RiskFeatures): (v: seq<real>)
    ensures |v| == 28
  {
    [ ta.priceSma20Gap, ta.priceSma50Gap, ta.sma20Sma50Gap, ta.rsiNormalized,
      ta.atrPct, ta.priceVwapGap, ta.donchianPosition, ta.rsiOversold + ta.rsiOverbought,
      bsm.ivRankNormalized, bsm.highIvRegime, bsm.lowIvRegime, bsm.vega,
      bsm.delta, bsm.mispricingProxy, bsm.volRegimeHigh + bsm.volRegimeLow,
      rg.timeMorning, rg.timeLunch, rg.timeAfternoon, rg.timePreMarket + rg.timeAfterHours,
      rg.dayMonday, rg.dayFriday, rg.dayMidweek, 0.0,
      rk.recentDrawdown, rk.exposurePct, rk.openPositions, rk.dailyLossPct, rk.tradesToday ]
  }

  /** `build_context`; `now` is the clock of the current time, used when the
      input carries no timestamp. */
  function BuildContext(data: ContextInput, now: Clock): (c: Context)
    requires 0 <= now.weekday < 7
    requires data.timestamp.Some? ==> 0 <= data.timestamp.value.weekday < 7
    ensures |c.featureVector| == 28 && c.featureCount == |c.featureVector|
    ensures c.featureVector[22] == 0.0
    ensures data.symbol.None? ==> c.symbol == "UNKNOWN"
  {
    var ta := ExtractTaFeatures(data.indicators);
    var bsm := ExtractBsmFeatures(data.bsmCtx);
    var rg := ExtractRegimeFeatures(data.timestamp.GetOr(now));
    var rk := ExtractRiskFeatures(data.riskContext);
    var v := FeatureVector(ta, bsm, rg, rk);
    Context(data.symbol.GetOr("UNKNOWN"), ta, bsm, rg, rk, v, |v|)
  }

  /** The combined entries 7 and 14 are 0/1 flags of single conditions:
      an RSI extreme (never both) and a high or low volatility regime. */
  lemma FeatureVectorMarketFlags(data: ContextInput, now: Clock)
    requires 0 <= now.weekday < 7
    requires data.timestamp.Some? ==> 0 <= data.timestamp.value.weekday < 7
    ensures var v := BuildContext(data, now).featureVector;
            var rsi := data.indicators.rsi.GetOr(50.0);
            var vol := data.bsmCtx.volRegime;
            && v[7] == Flag(rsi < 30.0 || rsi > 70.0)
            && v[14] == Flag(vol == Some("high") || vol == Some("low"))
  {
    ContextMarketGroups(data, now);
    ContextMarketEntries(data, now);
  }

  /** Entry 18 flags the pre-market or after-hours bucket. */
  lemma FeatureVectorOutsideHours(data: ContextInput, now: Clock)
    requires 0 <= now.weekday < 7
    requires data.timestamp.Some? ==> 0 <= data.timestamp.value.weekday < 7
    ensures var clock := data.timestamp.GetOr(now);
            var b := GetTimeBucket(clock.hour, clock.minute);
            BuildContext(data, now).featureVector[18] == Flag(b == PreMarket || b == AfterHours)
  {
    ContextTimeEntries(data, now);
    TimeFlagsOneHot(data.timestamp.GetOr(now));
  }

  /** Entries 15 to 18 sum to the flag of a time before 20:00: the time
      entries are one-hot while the market day lasts, all 0 after it. */
  lemma FeatureVectorTimeOneHot(data: ContextInput, now: Clock)
    requires 0 <= now.weekday < 7
    requires data.timestamp.Some? ==> 0 <= data.timestamp.value.weekday < 7
    ensures var v := BuildContext(data, now).featureVector;
            v[15] + v[16] + v[17] + v[18] == Flag(data.timestamp.GetOr(now).hour < 20)
  {
    var clock := data.timestamp.GetOr(now);
    var v := BuildContext(data, now).featureVector;
    ContextTimeEntries(data, now);
    var sum := TimeFlagSum(ExtractRegimeFeatures(clock));
    assert v[15] + v[16] + v[17] + v[18] == sum;
    TimeFlagChain(sum, clock);
  }

  /** The day entries 19 to 21 sum to the flag of a weekday: at most one is
      set, and none at the weekend. */
  lemma FeatureVectorDayFlags(data: ContextInput, now: Clock)
    requires 0 <= now.weekday < 7
    requires data.timestamp.Some? ==> 0 <= data.timestamp.value.weekday < 7
    ensures var v := BuildContext(data, now).featureVector;
            v[19] + v[20] + v[21] == Flag(data.timestamp.GetOr(now).weekday < 5)
  {
    var clock := data.timestamp.GetOr(now);
    var v := BuildContext(data, now).featureVector;
    ContextDayEntries(data, now);
    var sum := DayFlagSum(ExtractRegimeFeatures(clock));
    assert v[19] + v[20] + v[21] == sum;
    DayFlagChain(sum, clock);
  }

  /** `TimeFlagsOneHot` for a value known only through its definition; it
      keeps the bucket case split apart from the context's vector. */
  lemma TimeFlagChain(sum: real, clock: Clock)
    requires 0 <= clock.weekday < 7
    requires sum == TimeFlagSum(ExtractRegimeFeatures(clock))
    ensures sum == Flag(clock.hour < 20)
  {
    TimeFlagsOneHot(clock);
  }

  /** `DayFlagsAtMostOne` for a value known only through its definition. */
  lemma DayFlagChain(sum: real, clock: Clock)
    requires 0 <= clock.weekday < 7
    requires sum == DayFlagSum(ExtractRegimeFeatures(clock))
    ensures sum == Flag(clock.weekday < 5)
  {
    DayFlagsAtMostOne(clock);
  }

  /** The context holds the technical and volatility groups of its input. */
  lemma ContextMarketGroups(data: ContextInput, now: Clock)
    requires 0 <= now.weekday < 7
    requires data.timestamp.Some? ==> 0 <= data.timestamp.value.weekday < 7
    ensures var c := BuildContext(data, now);
            c.ta == ExtractTaFeatures(data.indicators) && c.bsm == ExtractBsmFeatures(data.bsmCtx)
  {
  }

  /** The context holds the time group of its timestamp, or of the current time. */
  lemma ContextRegimeGroup(data: ContextInput, now: Clock)
    requires 0 <= now.weekday < 7
    requires data.timestamp.Some? ==> 0 <= data.timestamp.value.weekday < 7
    ensures BuildContext(data, now).regime == ExtractRegimeFeatures(data.timestamp.GetOr(now))
  {
  }

  lemma ContextRiskGroup(data: ContextInput, now: Clock)
    requires 0 <= now.weekday < 7
    requires data.timestamp.Some? ==> 0 <= data.timestamp.value.weekday < 7
    ensures BuildContext(data, now).risk == ExtractRiskFeatures(data.riskContext)
  {
  }

  lemma ContextMarketEntries(data: ContextInput, now: Clock)
    requires 0 <= now.weekday < 7
    requires data.timestamp.Some? ==> 0 <= data.timestamp.value.weekday < 7
    ensures var c := BuildContext(data, now);
            && c.featureVector[7] == c.ta.rsiOversold + c.ta.rsiOverbought
            && c.featureVector[14] == c.bsm.volRegimeHigh + c.bsm.volRegimeLow
  {
    var c := BuildContext(data, now);
    VectorSums(c.ta, c.bsm, c.regime, c.risk);
  }

  lemma ContextTimeEntries(data: ContextInput, now: Clock)
    requires 0 <= now.weekday < 7
    requires data.timestamp.Some? ==> 0 <= data.timestamp.value.weekday < 7
    ensures var v := BuildContext(data, now).featureVector;
            var rg := ExtractRegimeFeatures(data.timestamp.GetOr(now));
            && v[18] == rg.timePreMarket + rg.timeAfterHours
            && v[15] + v[16] + v[17] + v[18] == TimeFlagSum(rg)
  {
    var c := BuildContext(data, now);
    ContextRegimeGroup(data, now);
    VectorSums(c.ta, c.bsm, c.regime, c.risk);
  }

  lemma ContextDayEntries(data: ContextInput, now: Clock)
    requires 0 <= now.weekday < 7
    requires data.timestamp.Some? ==> 0 <= data.timestamp.value.weekday < 7
    ensures var v := BuildContext(data, now).featureVector;
            v[19] + v[20] + v[21] == DayFlagSum(ExtractRegimeFeatures(data.timestamp.GetOr(now)))
  {
    var c := BuildContext(data, now);
    ContextRegimeGroup(data, now);
    VectorSums(c.ta, c.bsm, c.regime, c.risk);
  }

  /** The context's vector is the one of its own feature groups. */
  lemma ContextVector(data: ContextInput, now: Clock)
    requires 0 <= now.weekday < 7
    requires data.timestamp.Some? ==> 0 <= data.timestamp.value.weekday < 7
    ensures var c := BuildContext(data, now);
            c.featureVector == FeatureVector(c.ta, c.bsm, c.regime, c.risk)
  {
  }

  /** Where the combined flags sit in the vector. */
  lemma VectorSums(ta: TaFeatures, bsm: BsmFeatures, rg: RegimeFeatures, rk: RiskFeatures)
    ensures var v := FeatureVector(ta, bsm, rg, rk);
            && v[7] == ta.rsiOversold + ta.rsiOverbought
            && v[14] == bsm.volRegimeHigh + bsm.volRegimeLow
            && v[18] == rg.timePreMarket + rg.timeAfterHours
            && v[15] + v[16] + v[17] + v[18] == TimeFlagSum(rg)
            && v[19] + v[20] + v[21] == DayFlagSum(rg)
  {
  }

  /** The vector holds the feature groups in order: the technical group first,
      then the volatility group, the time group and the risk group last. */
  lemma FeatureVectorLayout(ta: TaFeatures, bsm: BsmFeatures, rg: RegimeFeatures, rk: RiskFeatures)
    ensures TaLayout(FeatureVector(ta, bsm, rg, rk), ta)
    ensures BsmLayout(FeatureVector(ta, bsm, rg, rk), bsm)
    ensures TimeLayout(FeatureVector(ta, bsm, rg, rk), rg)
    ensures RiskLayout(FeatureVector(ta, bsm, rg, rk), rk)
  {
    var v := FeatureVector(ta, bsm, rg, rk);
    TaEntries(ta, bsm, rg, rk, v);
    BsmEntries(ta, bsm, rg, rk, v);
    TimeEntries(ta, bsm, rg, rk, v);
    RiskEntries(ta, bsm, rg, rk, v);
  }

  /** Entries 0 to 7: the technical group. */
  predicate TaLayout(v: seq<real>, ta: TaFeatures)
    requires |v| == 28
  {
    && v[0] == ta.priceSma20Gap && v[1] == ta.priceSma50Gap && v[2] == ta.sma20Sma50Gap
    && v[3] == ta.rsiNormalized && v[4] == ta.atrPct && v[5] == ta.priceVwapGap
    && v[6] == ta.donchianPosition && v[7] == ta.rsiOversold + ta.rsiOverbought
  }

  /** Entries 8 to 14: the volatility group. */
  predicate BsmLayout(v: seq<real>, bsm: BsmFeatures)
    requires |v| == 28
  {
    && v[8] == bsm.ivRankNormalized && v[9] == bsm.highIvRegime && v[10] == bsm.lowIvRegime
    && v[11] == bsm.vega && v[12] == bsm.delta && v[13] == bsm.mispricingProxy
    && v[14] == bsm.volRegimeHigh + bsm.volRegimeLow
  }

  /** Entries 15 to 22: the time group, the last entry reserved as 0. */
  predicate TimeLayout(v: seq<real>, rg: RegimeFeatures)
    requires |v| == 28
  {
    && v[15] == rg.timeMorning && v[16] == rg.timeLunch && v[17] == rg.timeAfternoon
    && v[18] == rg.timePreMarket + rg.timeAfterHours
    && v[19] == rg.dayMonday && v[20] == rg.dayFriday && v[21] == rg.dayMidweek && v[22] == 0.0
  }

  /** Entries 23 to 27: the risk group. */
  predicate RiskLayout(v: seq<real>, rk: RiskFeatures)
    requires |v| == 28
  {
    && v[23] == rk.recentDrawdown && v[24] == rk.exposurePct && v[25] == rk.openPositions
    && v[26] == rk.dailyLossPct && v[27] == rk.tradesToday
  }

  lemma TaEntries(ta: TaFeatures, bsm: BsmFeatures, rg: RegimeFeatures, rk: RiskFeatures, v: seq<real>)
    requires v == FeatureVector(ta, bsm, rg, rk)
    ensures TaLayout(v, ta)
  {
  }

  lemma BsmEntries(ta: TaFeatures, bsm: BsmFeatures, rg: RegimeFeatures, rk: RiskFeatures, v: seq<real>)
    requires v == FeatureVector(ta, bsm, rg, rk)
    ensures BsmLayout(v, bsm)
  {
  }

  lemma TimeEntries(ta: TaFeatures, bsm: BsmFeatures, rg: RegimeFeatures, rk: RiskFeatures, v: seq<real>)
    requires v == FeatureVector(ta, bsm, rg, rk)
    ensures TimeLayout(v, rg)
  {
  }

  lemma RiskEntries(ta: TaFeatures, bsm: BsmFeatures, rg: RegimeFeatures, rk: RiskFeatures, v: seq<real>)
    requires v == FeatureVector(ta, bsm, rg, rk)
    ensures RiskLayout(v, rk)
  {
  }

  /** An empty input gives the neutral vector: 0.5 for the RSI, the Donchian
      position and the IV rank, 0 for every other non-time entry. */
  lemma EmptyInputNeutral(now: Clock)
    requires 0 <= now.weekday < 7
    ensures NeutralOutsideTime(BuildContext(EmptyInput(), now).featureVector)
  {
    var c := BuildContext(EmptyInput(), now);
    EmptyContextGroups(now);
    ContextVector(EmptyInput(), now);
    var w := FeatureVector(TaFeatures(0.0, 0.0, 0.0, 0.5, 0.0, 0.0, 0.0, 0.0, 0.5),
                           BsmFeatures(0.5, 0.0, 0.0, 0.0, 0.0, 0.0, 0.0, 0.0), c.regime,
                           RiskFeatures(0.0, 0.0, 0.0, 0.0, 0.0));
    assert c.featureVector == w;
    NeutralVector(w, c.regime);
  }

  lemma EmptyContextGroups(now: Clock)
    requires 0 <= now.weekday < 7
    ensures var c := BuildContext(EmptyInput(), now);
            && c.ta == TaFeatures(0.0, 0.0, 0.0, 0.5, 0.0, 0.0, 0.0, 0.0, 0.5)
            && c.bsm == BsmFeatures(0.5, 0.0, 0.0, 0.0, 0.0, 0.0, 0.0, 0.0)
            && c.risk == RiskFeatures(0.0, 0.0, 0.0, 0.0, 0.0)
  {
    ContextMarketGroups(EmptyInput(), now);
    ContextRiskGroup(EmptyInput(), now);
    NeutralGroups();
  }

  /** The input with every key missing. */
  function EmptyInput(): ContextInput {
    ContextInput(None, IndicatorInput(None, None, None, None, None, None, None, None),
                 BsmInput(None, None, None, None, None, None, None), None,
                 RiskInput(None, None, None, None, None))
  }

  lemma NeutralGroups()
    ensures ExtractTaFeatures(EmptyInput().indicators) == TaFeatures(0.0, 0.0, 0.0, 0.5, 0.0, 0.0, 0.0, 0.0, 0.5)
    ensures ExtractBsmFeatures(EmptyInput().bsmCtx) == BsmFeatures(0.5, 0.0, 0.0, 0.0, 0.0, 0.0, 0.0, 0.0)
    ensures ExtractRiskFeatures(EmptyInput().riskContext) == RiskFeatures(0.0, 0.0, 0.0, 0.0, 0.0)
  {
  }

  lemma NeutralVector(v: seq<real>, rg: RegimeFeatures)
    requires v == FeatureVector(TaFeatures(0.0, 0.0, 0.0, 0.5, 0.0, 0.0, 0.0, 0.0, 0.5),
                                BsmFeatures(0.5, 0.0, 0.0, 0.0, 0.0, 0.0, 0.0, 0.0), rg,
                                RiskFeatures(0.0, 0.0, 0.0, 0.0, 0.0))
    ensures NeutralOutsideTime(v)
  {
  }

  /** 0.5 for the RSI, the Donchian position and the IV rank, 0 for every
      other entry outside the time entries 15 to 21. */
  predicate NeutralOutsideTime(v: seq<real>)
  {
    && |v| == 28
    && v[3] == 0.5 && v[6] == 0.5 && v[8] == 0.5
    && (forall k :: 0 <= k < 15 && k != 3 && k != 6 && k != 8 ==> v[k] == 0.0)
    && (forall k :: 22 <= k < 28 ==> v[k] == 0.0)
  }
}
