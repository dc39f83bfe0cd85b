/** The daily watchlist screener: the asset class of an instrument, the
    per-symbol metrics computed from its daily candles (ATR%, gap, range
    compression, volume consistency), score normalisation, the weighted
    composite score with its reasons, and the per-class filter, sort and
    top-N cut.

    A candle is read by position as the metric functions read a row: open at
    2, high at 3, low at 4, close at 5 and volume at 6; `Candle` names those
    positions. `sqrt` is a parameter: no property below depends on what it
    returns unless a lemma says so. */
module Screener {
  import opened Common
  import opened Indicators

  // ---------------------------------------------------------------------
  // Asset class
  // ---------------------------------------------------------------------

  datatype AssetClass = Crypto | Forex | Metals | Indices | Stocks

  /** `str.upper` on ASCII letters. */
  function UpperChar(c: char): (u: char)
    ensures 'a' <= c <= 'z' ==> u as int == c as int - 32
    ensures !('a' <= c <= 'z') ==> u == c
  {
    if 'a' <= c <= 'z' then (c as int - 32) as char else c
  }

  function Upper(s: string): (u: string)
    ensures |u| == |s| && forall i :: 0 <= i < |s| ==> u[i] == UpperChar(s[i])
  {
    seq(|s|, i requires 0 <= i < |s| => UpperChar(s[i]))
  }

  /** Upper-casing twice is upper-casing once. */
  lemma UpperIdempotent(s: string)
    ensures Upper(Upper(s)) == Upper(s)
  {
    forall i | 0 <= i < |s| ensures Upper(Upper(s))[i] == Upper(s)[i] {
      var c := s[i];
      assert Upper(s)[i] == UpperChar(c);
    }
  }

  /** Python's `sub in s` on strings. */
  predicate Contains(s: string, sub: string) {
    exists i :: 0 <= i <= |s| - |sub| && OccursAt(s, sub, i)
  }

  predicate OccursAt(s: string, sub: string, i: int) {
    0 <= i <= |s| - |sub| && s[i..i + |sub|] == sub
  }

  /** Python's `any(x in s for x in subs)`. */
  predicate ContainsAny(s: string, subs: seq<string>) {
    exists k :: 0 <= k < |subs| && Contains(s, subs[k])
  }

  const CurrencyCodes: seq<string> := ["USD", "EUR", "GBP", "JPY", "AUD", "NZD", "CAD", "CHF"]
  const IndexCodes: seq<string> := ["SPX", "NDX", "DJI", "DAX", "FTSE", "CAC", "NIKKEI"]

  predicate LooksCrypto(s: string, exchange: string) {
    Contains(s, "BTC") || Contains(s, "ETH") || exchange == "CRYPTO"
  }

  predicate LooksMetal(s: string) {
    Contains(s, "XAU") || Contains(s, "XAG") || Contains(s, "GOLD") || Contains(s, "SILVER")
  }

  /** `classify_instrument`: crypto, then forex, metals and indices, first
      match wins, stocks otherwise; the tests are on the upper-cased symbol
      and exchange (a missing exchange is empty). The epic does not take part. */
  function Classify(symbol: string, exchange: Option<string>): (c: AssetClass)
    ensures var s := Upper(symbol); var ex := Upper(exchange.GetOr(""));
            && (c == Crypto <==> LooksCrypto(s, ex))
            && (c == Forex <==> !LooksCrypto(s, ex) && |symbol| == 6 && ContainsAny(s, CurrencyCodes))
            && (c == Metals <==> !LooksCrypto(s, ex) && !(|symbol| == 6 && ContainsAny(s, CurrencyCodes))
                                 && LooksMetal(s))
            && (c == Indices <==> !LooksCrypto(s, ex) && !(|symbol| == 6 && ContainsAny(s, CurrencyCodes))
                                  && !LooksMetal(s) && ContainsAny(s, IndexCodes))
            && (c == Stocks <==> !LooksCrypto(s, ex) && !(|symbol| == 6 && ContainsAny(s, CurrencyCodes))
                                 && !LooksMetal(s) && !ContainsAny(s, IndexCodes))
  {
    var s := Upper(symbol);
    var ex := Upper(exchange.GetOr(""));
    if LooksCrypto(s, ex) then Crypto
    else if |symbol| == 6 && ContainsAny(s, CurrencyCodes) then Forex
    else if LooksMetal(s) then Metals
    else if ContainsAny(s, IndexCodes) then Indices
    else Stocks
  }

  /** The class does not depend on the case of the symbol or the exchange. */
  lemma ClassifyIgnoresCase(symbol: string, exchange: Option<string>)
    ensures Classify(Upper(symbol), exchange) == Classify(symbol, exchange)
    ensures exchange.Some? ==> Classify(symbol, Some(Upper(exchange.value))) == Classify(symbol, exchange)
  {
    UpperIdempotent(symbol);
    if exchange.Some? {
      UpperIdempotent(exchange.value);
    }
  }

  /** A six-letter pair quoted in dollars is forex even when it names gold. */
  lemma GoldPairIsForex()
    ensures Classify("XAUUSD", None) == Forex
  {
    var s := Upper("XAUUSD");
    assert s == "XAUUSD";
    assert OccursAt(s, CurrencyCodes[0], 3);
    assert ContainsAny(s, CurrencyCodes);
    assert Upper("") == "";
    MissingFirstChar(s, "BTC");
    MissingFirstChar(s, "ETH");
  }

  /** A string without the first character of `sub` does not contain it. */
  lemma MissingFirstChar(s: string, sub: string)
    requires |sub| > 0 && forall i :: 0 <= i < |s| ==> s[i] != sub[0]
    ensures !Contains(s, sub)
  {
    forall i | 0 <= i <= |s| - |sub| ensures !OccursAt(s, sub, i) {
      assert s[i..i + |sub|][0] == s[i];
    }
  }

  // ---------------------------------------------------------------------
  // Per-symbol metrics
  // ---------------------------------------------------------------------

  /** `calculate_atr_pct`: the average of the last `period` true ranges as a
      percentage of the last close; 0.0 with fewer than `period + 1` candles
      or a zero last close. The sum is divided by `period`, so with period 0
      only inputs of fewer than two candles avoid a division by zero. */
  function AtrPct(candles: seq<Candle>, period: nat): (r: real)
    requires period > 0 || |candles| < 2
    ensures |candles| < period + 1 ==> r == 0.0
    ensures |candles| > 0 && candles[|candles| - 1].close == 0.0 ==> r == 0.0
    ensures |candles| > 0 && candles[|candles| - 1].close > 0.0 ==> r >= 0.0
  {
    if |candles| < period + 1 then 0.0
    else
      var trs := TrueRanges(Highs(candles), Lows(candles), Closes(candles)).value;
      if |trs| == 0 || |trs| < period then 0.0
      else
        var w := PyTail(trs, period);
        SumNonNegative(w);
        RatioNonNegative(Sum(w), period as real);
        var atr := Sum(w) / (period as real);
        var price := candles[|candles| - 1].close;
        RatioNonNegative(atr, price);
        if price == 0.0 then 0.0 else (atr / price) * 100.0
  }

  /** The screener's ATR% is the indicators' ATR over the last close, in
      percent: the two modules compute the same true ranges and average. */
  lemma AtrPctIsRelativeAtr(candles: seq<Candle>, period: nat)
    requires period > 0 && |candles| >= period + 1
    requires candles[|candles| - 1].close != 0.0
    ensures AtrPct(candles, period)
            == Atr(Highs(candles), Lows(candles), Closes(candles), period).value / candles[|candles| - 1].close * 100.0
  {
  }

  /** `calculate_atr_pct`, collecting the true ranges in a loop. */
  method CalculateAtrPct(candles: seq<Candle>, period: nat) returns (r: real)
    requires period > 0 || |candles| < 2
    ensures r == AtrPct(candles, period)
  {
    if |candles| < period + 1 {
      return 0.0;
    }
    var trs: seq<real> := [];
    for i := 1 to |candles|
      invariant |trs| == i - 1
      invariant forall j :: 0 <= j < i - 1 ==> trs[j] == TrueRange(candles[j + 1].high, candles[j + 1].low, candles[j].close)
    {
      var high := candles[i].high;
      var low := candles[i].low;
      var prevClose := candles[i - 1].close;
      var tr := MaxReal(MaxReal(high - low, Abs(high - prevClose)), Abs(low - prevClose));
      trs := trs + [tr];
    }
    assert trs == TrueRanges(Highs(candles), Lows(candles), Closes(candles)).value;
    if |trs| == 0 || |trs| < period {
      return 0.0;
    }
    var atr := Sum(PyTail(trs, period)) / (period as real);
    var price := candles[|candles| - 1].close;
    if price == 0.0 {
      return 0.0;
    }
    r := (atr / price) * 100.0;
  }

  /** `calculate_gap_pct`: the last open against the previous close, in percent. */
  function GapPct(candles: seq<Candle>): (r: real)
    ensures |candles| < 2 ==> r == 0.0
    ensures |candles| >= 2 && candles[|candles| - 2].close == 0.0 ==> r == 0.0
  {
    if |candles| < 2 then 0.0
    else
      var prevClose := candles[|candles| - 2].close;
      var open := candles[|candles| - 1].open;
      if prevClose == 0.0 then 0.0 else ((open - prevClose) / prevClose) * 100.0
  }

  /** With a positive previous close the gap is the move of the open in percent
      of that close: positive exactly for a gap up, negative for a gap down. */
  lemma GapPctMeaning(candles: seq<Candle>)
    requires |candles| >= 2 && candles[|candles| - 2].close > 0.0
    ensures var prev := candles[|candles| - 2].close; var open := candles[|candles| - 1].open;
            && GapPct(candles) * prev == (open - prev) * 100.0
            && (GapPct(candles) > 0.0 <==> open > prev)
            && (GapPct(candles) < 0.0 <==> open < prev)
  {
    var prev := candles[|candles| - 2].close;
    var open := candles[|candles| - 1].open;
    var q := (open - prev) / prev;
    assert q * prev == open - prev;
    assert GapPct(candles) == q * 100.0;
    assert GapPct(candles) * prev == (q * prev) * 100.0;
    if open > prev {
      assert q > 0.0;
    } else if open < prev {
      assert q < 0.0;
    }
  }

  /** The range and average close of the last `lookback` candles. */
  function RecentRangePct(recent: seq<Candle>): (r: Option<real>)
    requires |recent| > 0
    ensures r.None? <==> Sum(Closes(recent)) == 0.0
  {
    var range := SeqMax(Highs(recent)) - SeqMin(Lows(recent));
    var avgPrice := Sum(Closes(recent)) / (|recent| as real);
    if avgPrice == 0.0 then None else Some((range / avgPrice) * 100.0)
  }

  /** `calculate_compression`: 1 minus the recent range over twice the ATR%,
      clipped to [0, 1]; 0.0 with too few candles, a zero average price or a
      zero ATR%. */
  function Compression(candles: seq<Candle>, lookback: nat): (r: real)
    ensures 0.0 <= r <= 1.0
    ensures |candles| < lookback + 1 ==> r == 0.0
    ensures |candles| >= lookback + 1 && Sum(Closes(PyTail(candles, lookback))) == 0.0 ==> r == 0.0
    ensures |candles| >= 15 && AtrPct(candles, 14) == 0.0 ==> r == 0.0
  {
    if |candles| < lookback + 1 then 0.0
    else
      match RecentRangePct(PyTail(candles, lookback))
      case None => 0.0
      case Some(rangePct) =>
        var atrPct := AtrPct(candles, 14);
        if atrPct == 0.0 then 0.0
        else Clamp(0.0, 1.0, 1.0 - MinReal(rangePct / (atrPct * 2.0), 1.0))
  }

  /** A recent range of at least twice the ATR% is no compression at all; a
      smaller non-negative one scores `1 - range/(2 ATR%)`. */
  lemma CompressionScale(candles: seq<Candle>, lookback: nat)
    requires |candles| >= lookback + 1
    ensures RecentRangePct(PyTail(candles, lookback)).Some? && AtrPct(candles, 14) != 0.0 ==>
              var ratio := RecentRangePct(PyTail(candles, lookback)).value / (AtrPct(candles, 14) * 2.0);
              && (ratio >= 1.0 ==> Compression(candles, lookback) == 0.0)
              && (0.0 <= ratio <= 1.0 ==> Compression(candles, lookback) == 1.0 - ratio)
  {
  }

  /** The positive volumes of the candles, in order. */
  function PositiveVolumes(cs: seq<Candle>): (v: seq<real>)
    ensures |v| <= |cs|
    ensures forall i :: 0 <= i < |v| ==> v[i] > 0.0
  {
    if |cs| == 0 then []
    else (if cs[0].volume > 0.0 then [cs[0].volume] else []) + PositiveVolumes(cs[1..])
  }

  /** `calculate_liquidity_score`: 1 minus the coefficient of variation of the
      positive volumes of the last `lookback` candles, clipped to [0, 1]; 0.5
      with fewer than `lookback` candles, no positive volume, or only one. */
  function LiquidityScore(candles: seq<Candle>, lookback: nat, sqrt: real -> real): (r: real)
    ensures 0.0 <= r <= 1.0
    ensures |candles| < lookback ==> r == 0.5
    ensures |candles| >= lookback && |PositiveVolumes(PyTail(candles, lookback))| <= 1 ==> r == 0.5
  {
    if |candles| < lookback then 0.5
    else
      var vols := PositiveVolumes(PyTail(candles, lookback));
      if |vols| == 0 then 0.5
      else
        var n := |vols| as real;
        var avg := Sum(vols) / n;
        var consistency :=
          if |vols| > 1 then
            var std := sqrt(SquaredDeviations(vols, avg) / n);
            1.0 - MinReal(if avg > 0.0 then std / avg else 1.0, 1.0)
          else 0.5;
        Clamp(0.0, 1.0, consistency)
  }

  /** Squared deviations from a value every element equals vanish. */
  lemma {:induction false} SquaredDeviationsOfConstant(vs: seq<real>, c: real)
    requires forall i :: 0 <= i < |vs| ==> vs[i] == c
    ensures SquaredDeviations(vs, c) == 0.0
  {
    if |vs| > 0 {
      SquaredDeviationsOfConstant(vs[1..], c);
    }
  }

  /** Perfectly steady volume is fully liquid: when at least two positive
      volumes in the window are all equal and `sqrt(0) == 0`, the score is 1. */
  lemma SteadyVolumeIsLiquid(candles: seq<Candle>, lookback: nat, sqrt: real -> real, v: real)
    requires |candles| >= lookback && sqrt(0.0) == 0.0
    requires var vols := PositiveVolumes(PyTail(candles, lookback));
             |vols| > 1 && forall i :: 0 <= i < |vols| ==> vols[i] == v
    ensures LiquidityScore(candles, lookback, sqrt) == 1.0
  {
    var vols := PositiveVolumes(PyTail(candles, lookback));
    var n := |vols| as real;
    assert v > 0.0 by { assert vols[0] == v; }
    SumBounds(vols, v, v);
    DivBounds(Sum(vols), n, v, v);
    var avg := Sum(vols) / n;
    assert avg == v;
    SquaredDeviationsOfConstant(vols, v);
    var dev := SquaredDeviations(vols, avg);
    assert dev == 0.0;
    assert dev / n == 0.0;
    var std := sqrt(dev / n);
    assert std == 0.0;
    assert std / avg == 0.0;
  }

  // ---------------------------------------------------------------------
  // Normalisation
  // ---------------------------------------------------------------------

  /** The result of `normalize_scores` for a non-empty input. */
  function MinMax(scores: seq<real>): (r: seq<real>)
    requires |scores| > 0
    ensures |r| == |scores|
  {
    var lo := SeqMin(scores);
    var hi := SeqMax(scores);
    if hi == lo then seq(|scores|, _ => 0.5)
    else seq(|scores|, i requires 0 <= i < |scores| => Rescaled(scores[i], lo, hi))
  }

  /** `x` placed on the scale where `lo` is 0 and `hi` is 1. */
  function Rescaled(x: real, lo: real, hi: real): real
    requires lo != hi
  {
    (x - lo) / (hi - lo)
  }

  function ZScore(scores: seq<real>, sqrt: real -> real): (r: seq<real>)
    requires |scores| > 0
    ensures |r| == |scores|
  {
    var n := |scores| as real;
    var mean := Sum(scores) / n;
    var std := sqrt(SquaredDeviations(scores, mean) / n);
    if std == 0.0 then seq(|scores|, _ => 0.5)
    else seq(|scores|, i requires 0 <= i < |scores| => (Clamp(-3.0, 3.0, (scores[i] - mean) / std) + 3.0) / 6.0)
  }

  /** `normalize_scores`: min-max or clipped z-score scaling to [0, 1]; an
      unknown method leaves the scores as they are. */
  function NormalizeScores(scores: seq<real>, normalizeMethod: string, sqrt: real -> real): (r: seq<real>)
    ensures |r| == |scores|
    ensures normalizeMethod != "minmax_clip" && normalizeMethod != "zscore_clip" ==> r == scores
    ensures normalizeMethod == "minmax_clip" || normalizeMethod == "zscore_clip" ==> forall i :: 0 <= i < |r| ==> 0.0 <= r[i] <= 1.0
  {
    if |scores| == 0 then []
    else if normalizeMethod == "minmax_clip" then
      MinMaxRange(scores);
      MinMax(scores)
    else if normalizeMethod == "zscore_clip" then
      ZScoreRange(scores, sqrt);
      ZScore(scores, sqrt)
    else scores
  }

  lemma MinMaxRange(scores: seq<real>)
    requires |scores| > 0
    ensures forall i :: 0 <= i < |scores| ==> 0.0 <= MinMax(scores)[i] <= 1.0
  {
    var lo := SeqMin(scores);
    var hi := SeqMax(scores);
    if hi != lo {
      forall i | 0 <= i < |scores| ensures 0.0 <= MinMax(scores)[i] <= 1.0 {
        MinMaxAt(scores, i);
        RescaledBounds(scores[i], lo, hi);
      }
    }
  }

  lemma ZScoreRange(scores: seq<real>, sqrt: real -> real)
    requires |scores| > 0
    ensures forall i :: 0 <= i < |scores| ==> 0.0 <= ZScore(scores, sqrt)[i] <= 1.0
  {
  }

  lemma RescaledBounds(x: real, lo: real, hi: real)
    requires lo <= x <= hi && lo != hi
    ensures 0.0 <= Rescaled(x, lo, hi) <= 1.0
  {
    DivBounds(x - lo, hi - lo, 0.0, 1.0);
  }

  lemma RescaledMonotone(x: real, y: real, lo: real, hi: real)
    requires x <= y && lo < hi
    ensures Rescaled(x, lo, hi) <= Rescaled(y, lo, hi)
  {
    DivMonotone(x - lo, y - lo, hi - lo);
  }

  lemma RescaledEnds(x: real, lo: real, hi: real)
    requires lo < hi
    ensures x == lo ==> Rescaled(x, lo, hi) == 0.0
    ensures x == hi ==> Rescaled(x, lo, hi) == 1.0
  {
    RatioAtEnds(x, lo, hi);
  }

  /** One entry of the min-max scaling. */
  lemma MinMaxAt(scores: seq<real>, i: int)
    requires 0 <= i < |scores|
    ensures SeqMin(scores) == SeqMax(scores) ==> MinMax(scores)[i] == 0.5
    ensures SeqMin(scores) != SeqMax(scores) ==>
      MinMax(scores)[i] == Rescaled(scores[i], SeqMin(scores), SeqMax(scores))
  {
  }

  /** Min-max scaling keeps the order of the scores. */
  lemma MinMaxMonotone(scores: seq<real>, i: int, j: int)
    requires 0 <= i < |scores| && 0 <= j < |scores| && scores[i] <= scores[j]
    ensures MinMax(scores)[i] <= MinMax(scores)[j]
  {
    MinMaxAt(scores, i);
    MinMaxAt(scores, j);
    var lo := SeqMin(scores);
    var hi := SeqMax(scores);
    if hi != lo {
      assert lo <= scores[0] <= hi;
      RescaledMonotone(scores[i], scores[j], lo, hi);
    }
  }

  /** Min-max scaling sends a constant list to 0.5 everywhere and otherwise
      the smallest score to 0 and the largest to 1. */
  lemma MinMaxExtremes(scores: seq<real>, i: int)
    requires 0 <= i < |scores|
    ensures SeqMin(scores) == SeqMax(scores) ==> MinMax(scores)[i] == 0.5
    ensures SeqMin(scores) != SeqMax(scores) && scores[i] == SeqMin(scores) ==> MinMax(scores)[i] == 0.0
    ensures SeqMin(scores) != SeqMax(scores) && scores[i] == SeqMax(scores) ==> MinMax(scores)[i] == 1.0
  {
    MinMaxAt(scores, i);
    var lo := SeqMin(scores);
    var hi := SeqMax(scores);
    if hi != lo {
      assert lo <= scores[i] <= hi;
      RescaledEnds(scores[i], lo, hi);
    }
  }

  // ---------------------------------------------------------------------
  // Composite score
  // ---------------------------------------------------------------------

  datatype Reason = HighVolatility | GapUp | GapDown | CompressedRange | HighLiquidity
                  | PositiveSentiment | NegativeSentiment

  /** The class weights; a missing key leaves its metric out of the score. */
  datatype Weights = Weights(atrPct: Option<real>, gap: Option<real>, compression: Option<real>,
                             liquidity: Option<real>, sentiment: Option<real>)

  datatype ClassConfig = ClassConfig(atrPctMin: real, minLiquidityScore: real, weights: Weights,
                                     gapAbsMinPct: Option<real>, topN: int)

  /** One candidate's record: its metrics, then the normalised metrics, the
      score and the reasons the ranking writes into it. */
  datatype Metrics = Metrics(symbol: string, name: string, atrPct: real, gapPct: real, compression: real,
                             liquidity: real, sentiment: real, lastClose: real,
                             atrPctNorm: real, gapNorm: real, score: real, reasons: seq<Reason>)

  function AtrTerm(m: Metrics, w: Weights): real {
    if w.atrPct.Some? && m.atrPct > 0.0 then w.atrPct.value * m.atrPctNorm else 0.0
  }

  function GapTerm(m: Metrics, w: Weights): real {
    if w.gap.Some? then w.gap.value * m.gapNorm else 0.0
  }

  function CompressionTerm(m: Metrics, w: Weights): real {
    if w.compression.Some? then w.compression.value * m.compression else 0.0
  }

  function LiquidityTerm(m: Metrics, w: Weights): real {
    if w.liquidity.Some? then w.liquidity.value * m.liquidity else 0.0
  }

  function SentimentTerm(m: Metrics, w: Weights): real {
    if w.sentiment.Some? then w.sentiment.value * ((m.sentiment + 1.0) / 2.0) else 0.0
  }

  /** The score of `calculate_composite_score`: the weighted sum of the
      metrics whose weight is present, sentiment mapped from [-1, 1] to [0, 1]. */
  function CompositeScore(m: Metrics, w: Weights): (s: real)
    ensures w == Weights(None, None, None, None, None) ==> s == 0.0
    ensures m.atrPct <= 0.0 ==> s == GapTerm(m, w) + CompressionTerm(m, w) + LiquidityTerm(m, w) + SentimentTerm(m, w)
  {
    AtrTerm(m, w) + GapTerm(m, w) + CompressionTerm(m, w) + LiquidityTerm(m, w) + SentimentTerm(m, w)
  }

  function GapReasons(m: Metrics, w: Weights, cfg: ClassConfig): seq<Reason> {
    if w.gap.Some? && Abs(m.gapPct) > cfg.gapAbsMinPct.GetOr(0.5) then [if m.gapPct > 0.0 then GapUp else GapDown]
    else []
  }

  function AtrReasons(m: Metrics, w: Weights): seq<Reason> {
    if w.atrPct.Some? && m.atrPct > 0.0 && m.atrPctNorm > 0.7 then [HighVolatility] else []
  }

  function CompressionReasons(m: Metrics, w: Weights): seq<Reason> {
    if w.compression.Some? && m.compression > 0.7 then [CompressedRange] else []
  }

  function LiquidityReasons(m: Metrics, w: Weights): seq<Reason> {
    if w.liquidity.Some? && m.liquidity > 0.8 then [HighLiquidity] else []
  }

  function SentimentReasons(m: Metrics, w: Weights): seq<Reason> {
    if w.sentiment.Some? then
      if m.sentiment > 0.3 then [PositiveSentiment]
      else if m.sentiment < -0.3 then [NegativeSentiment]
      else []
    else []
  }

  /** The reasons of `calculate_composite_score`, in the order it adds them. */
  function CompositeReasons(m: Metrics, w: Weights, cfg: ClassConfig): (r: seq<Reason>)
    ensures |r| <= 5
  {
    AtrReasons(m, w) + GapReasons(m, w, cfg) + CompressionReasons(m, w) + LiquidityReasons(m, w)
    + SentimentReasons(m, w)
  }

  /** `calculate_composite_score`, accumulating the score and the reasons. */
  method CalculateCompositeScore(m: Metrics, w: Weights, cfg: ClassConfig) returns (score: real, reasons: seq<Reason>)
    ensures score == CompositeScore(m, w)
    ensures reasons == CompositeReasons(m, w, cfg)
  {
    score := 0.0;
    reasons := [];
    if w.atrPct.Some? && m.atrPct > 0.0 {
      var atrScore := m.atrPctNorm;
      score := score + w.atrPct.value * atrScore;
      if atrScore > 0.7 {
        reasons := reasons + [HighVolatility];
      }
    }
    assert score == AtrTerm(m, w) && reasons == AtrReasons(m, w);
    if w.gap.Some? {
      score := score + w.gap.value * m.gapNorm;
      if Abs(m.gapPct) > cfg.gapAbsMinPct.GetOr(0.5) {
        var direction := if m.gapPct > 0.0 then GapUp else GapDown;
        reasons := reasons + [direction];
      }
    }
    assert score == AtrTerm(m, w) + GapTerm(m, w);
    assert reasons == AtrReasons(m, w) + GapReasons(m, w, cfg);
    if w.compression.Some? {
      score := score + w.compression.value * m.compression;
      if m.compression > 0.7 {
        reasons := reasons + [CompressedRange];
      }
    }
    assert score == AtrTerm(m, w) + GapTerm(m, w) + CompressionTerm(m, w);
    assert reasons == AtrReasons(m, w) + GapReasons(m, w, cfg) + CompressionReasons(m, w);
    if w.liquidity.Some? {
      score := score + w.liquidity.value * m.liquidity;
      if m.liquidity > 0.8 {
        reasons := reasons + [HighLiquidity];
      }
    }
    assert score == AtrTerm(m, w) + GapTerm(m, w) + CompressionTerm(m, w) + LiquidityTerm(m, w);
    assert reasons == AtrReasons(m, w) + GapReasons(m, w, cfg) + CompressionReasons(m, w) + LiquidityReasons(m, w);
    if w.sentiment.Some? {
      var sentScore := (m.sentiment + 1.0) / 2.0;
      score := score + w.sentiment.value * sentScore;
      if m.sentiment > 0.3 {
        reasons := reasons + [PositiveSentiment];
      } else if m.sentiment < -0.3 {
        reasons := reasons + [NegativeSentiment];
      }
    }
  }

  /** A gap reason appears exactly when the gap is weighted and its size
      exceeds the class minimum (0.5 by default); it says up exactly for a
      positive gap, and never both. */
  lemma GapReasonIff(m: Metrics, w: Weights, cfg: ClassConfig)
    ensures var r := CompositeReasons(m, w, cfg);
            && ((GapUp in r || GapDown in r) <==> w.gap.Some? && Abs(m.gapPct) > cfg.gapAbsMinPct.GetOr(0.5))
            && (GapUp in r <==> w.gap.Some? && Abs(m.gapPct) > cfg.gapAbsMinPct.GetOr(0.5) && m.gapPct > 0.0)
            && !(GapUp in r && GapDown in r)
  {
    var r := CompositeReasons(m, w, cfg);
    var a := AtrReasons(m, w);
    var c := CompressionReasons(m, w);
    var l := LiquidityReasons(m, w);
    assert r == a + GapReasons(m, w, cfg) + c + l + SentimentReasons(m, w);
    assert GapUp !in a && GapUp !in c && GapUp !in l && GapUp !in SentimentReasons(m, w);
    assert GapDown !in a && GapDown !in c && GapDown !in l && GapDown !in SentimentReasons(m, w);
  }

  /** High volatility, a compressed range and high liquidity are reasons
      exactly when their metric is weighted and above its threshold (0.7, 0.7
      and 0.8), the volatility one only for a positive ATR%. */
  lemma ThresholdReasonsIff(m: Metrics, w: Weights, cfg: ClassConfig)
    ensures var r := CompositeReasons(m, w, cfg);
            && (HighVolatility in r <==> w.atrPct.Some? && m.atrPct > 0.0 && m.atrPctNorm > 0.7)
            && (CompressedRange in r <==> w.compression.Some? && m.compression > 0.7)
            && (HighLiquidity in r <==> w.liquidity.Some? && m.liquidity > 0.8)
  {
    var r := CompositeReasons(m, w, cfg);
    var a := AtrReasons(m, w);
    var g := GapReasons(m, w, cfg);
    var c := CompressionReasons(m, w);
    var l := LiquidityReasons(m, w);
    var s := SentimentReasons(m, w);
    assert r == a + g + c + l + s;
    assert HighVolatility !in g + c + l + s;
    assert CompressedRange !in a + g + l + s;
    assert HighLiquidity !in a + g + c + s;
  }

  /** Positive and negative sentiment are never both reasons; each appears
      exactly when sentiment is weighted and beyond 0.3 on its side. */
  lemma SentimentReasonIff(m: Metrics, w: Weights, cfg: ClassConfig)
    ensures var r := CompositeReasons(m, w, cfg);
            && (PositiveSentiment in r <==> w.sentiment.Some? && m.sentiment > 0.3)
            && (NegativeSentiment in r <==> w.sentiment.Some? && m.sentiment < -0.3)
            && !(PositiveSentiment in r && NegativeSentiment in r)
  {
    var r := CompositeReasons(m, w, cfg);
    var a := AtrReasons(m, w);
    var c := CompressionReasons(m, w);
    var l := LiquidityReasons(m, w);
    var g := GapReasons(m, w, cfg);
    assert r == a + g + c + l + SentimentReasons(m, w);
    assert PositiveSentiment !in a + g + c + l && NegativeSentiment !in a + g + c + l;
  }

  /** The sum of the weights that are present. */
  function TotalWeight(w: Weights): real {
    w.atrPct.GetOr(0.0) + w.gap.GetOr(0.0) + w.compression.GetOr(0.0) + w.liquidity.GetOr(0.0) + w.sentiment.GetOr(0.0)
  }

  predicate NonNegativeWeights(w: Weights) {
    w.atrPct.GetOr(0.0) >= 0.0 && w.gap.GetOr(0.0) >= 0.0 && w.compression.GetOr(0.0) >= 0.0
    && w.liquidity.GetOr(0.0) >= 0.0 && w.sentiment.GetOr(0.0) >= 0.0
  }

  /** Non-negative weights over metrics in their ranges give a score between 0
      and the total weight. */
  lemma CompositeScoreBounds(m: Metrics, w: Weights)
    requires NonNegativeWeights(w)
    requires 0.0 <= m.atrPctNorm <= 1.0 && 0.0 <= m.gapNorm <= 1.0
    requires 0.0 <= m.compression <= 1.0 && 0.0 <= m.liquidity <= 1.0 && -1.0 <= m.sentiment <= 1.0
    ensures 0.0 <= CompositeScore(m, w) <= TotalWeight(w)
  {
    if m.atrPct > 0.0 {
      WeightedTerm(w.atrPct, m.atrPctNorm);
    }
    assert 0.0 <= AtrTerm(m, w) <= w.atrPct.GetOr(0.0);
    WeightedTerm(w.gap, m.gapNorm);
    assert 0.0 <= GapTerm(m, w) <= w.gap.GetOr(0.0);
    WeightedTerm(w.compression, m.compression);
    assert 0.0 <= CompressionTerm(m, w) <= w.compression.GetOr(0.0);
    WeightedTerm(w.liquidity, m.liquidity);
    assert 0.0 <= LiquidityTerm(m, w) <= w.liquidity.GetOr(0.0);
    WeightedTerm(w.sentiment, (m.sentiment + 1.0) / 2.0);
    assert 0.0 <= SentimentTerm(m, w) <= w.sentiment.GetOr(0.0);
  }

  lemma WeightedTerm(w: Option<real>, x: real)
    requires w.GetOr(0.0) >= 0.0 && 0.0 <= x <= 1.0
    ensures var t := if w.Some? then w.value * x else 0.0;
            0.0 <= t <= w.GetOr(0.0)
  {
    if w.Some? {
      ScaleBetween(0.0, x, 1.0, w.value);
    }
  }

  // ---------------------------------------------------------------------
  // Ranking one asset class
  // ---------------------------------------------------------------------

  predicate Passes(m: Metrics, cfg: ClassConfig) {
    m.atrPct >= cfg.atrPctMin && m.liquidity >= cfg.minLiquidityScore
  }

  /** The candidates that meet the class thresholds, in their order. */
  function Passing(cs: seq<Metrics>, cfg: ClassConfig): (r: seq<Metrics>)
    ensures |r| <= |cs|
    ensures forall i :: 0 <= i < |r| ==> Passes(r[i], cfg) && r[i] in cs
  {
    if |cs| == 0 then []
    else Passing(cs[..|cs| - 1], cfg) + (if Passes(cs[|cs| - 1], cfg) then [cs[|cs| - 1]] else [])
  }

  function AtrScores(ms: seq<Metrics>): (s: seq<real>)
    ensures |s| == |ms| && forall i :: 0 <= i < |ms| ==> s[i] == ms[i].atrPct
  {
    seq(|ms|, i requires 0 <= i < |ms| => ms[i].atrPct)
  }

  function GapScores(ms: seq<Metrics>): (s: seq<real>)
    ensures |s| == |ms| && forall i :: 0 <= i < |ms| ==> s[i] == Abs(ms[i].gapPct)
  {
    seq(|ms|, i requires 0 <= i < |ms| => Abs(ms[i].gapPct))
  }

  /** Candidate `m` with its normalised ATR% and gap. */
  function WithNorms(m: Metrics, atrNorm: real, gapNorm: real): Metrics {
    m.(atrPctNorm := atrNorm, gapNorm := gapNorm)
  }

  /** Candidate `m` with its composite score and reasons. */
  function Scored(m: Metrics, cfg: ClassConfig): (r: Metrics)
    ensures r.score == CompositeScore(r, cfg.weights)
    ensures r.reasons == CompositeReasons(r, cfg.weights, cfg)
  {
    m.(score := CompositeScore(m, cfg.weights), reasons := CompositeReasons(m, cfg.weights, cfg))
  }

  /** Python's stable `sort(key=score, reverse=True)`: each candidate goes
      before the first one that does not score higher. */
  function InsertByScore(m: Metrics, s: seq<Metrics>): (r: seq<Metrics>)
    ensures multiset(r) == multiset(s) + multiset{m}
  {
    if |s| == 0 || s[0].score <= m.score then [m] + s
    else
      assert s == [s[0]] + s[1..];
      [s[0]] + InsertByScore(m, s[1..])
  }

  function SortByScore(s: seq<Metrics>): (r: seq<Metrics>)
    ensures multiset(r) == multiset(s)
    ensures |r| == |s|
  {
    if |s| == 0 then []
    else
      assert s == [s[0]] + s[1..];
      InsertByScore(s[0], SortByScore(s[1..]))
  }

  predicate SortedByScoreDesc(s: seq<Metrics>) {
    forall i, j :: 0 <= i < j < |s| ==> s[i].score >= s[j].score
  }

  lemma {:induction false} InsertKeepsSorted(m: Metrics, s: seq<Metrics>)
    requires SortedByScoreDesc(s)
    ensures SortedByScoreDesc(InsertByScore(m, s))
  {
    if |s| > 0 && s[0].score > m.score {
      InsertKeepsSorted(m, s[1..]);
      var t := InsertByScore(m, s[1..]);
      assert |t| > 0 && t[0].score <= s[0].score by {
        assert |multiset(t)| == |s| > 0;
        if |s| > 1 && t[0] != m {
          assert t[0] == s[1];
        }
      }
      assert forall k :: 0 <= k < |t| ==> t[k].score <= t[0].score;
      assert InsertByScore(m, s) == [s[0]] + t;
    }
  }

  /** The sort orders by descending score and only reorders. */
  lemma {:induction false} SortByScoreSorted(s: seq<Metrics>)
    ensures SortedByScoreDesc(SortByScore(s))
  {
    if |s| > 0 {
      SortByScoreSorted(s[1..]);
      InsertKeepsSorted(s[0], SortByScore(s[1..]));
    }
  }

  /** Sorting only reorders: it keeps the length and every property that
      holds of all the elements. */
  lemma SortByScoreKeeps(s: seq<Metrics>, p: Metrics -> bool)
    requires forall i :: 0 <= i < |s| ==> p(s[i])
    ensures |SortByScore(s)| == |s|
    ensures forall i :: 0 <= i < |SortByScore(s)| ==> p(SortByScore(s)[i])
  {
    var r := SortByScore(s);
    assert |r| == |s| by {
      assert |multiset(r)| == |multiset(s)|;
    }
    forall i | 0 <= i < |r| ensures p(r[i]) {
      assert r[i] in multiset(s);
      var j :| 0 <= j < |s| && s[j] == r[i];
    }
  }

  /** The filtered candidates with their normalised ATR% and gap written in,
      then their score and reasons. */
  function ScoreAll(filtered: seq<Metrics>, cfg: ClassConfig, normalizeMethod: string, sqrt: real -> real): (r: seq<Metrics>)
    ensures |r| == |filtered|
  {
    var atrNorm := NormalizeScores(AtrScores(filtered), normalizeMethod, sqrt);
    var gapNorm := NormalizeScores(GapScores(filtered), normalizeMethod, sqrt);
    seq(|filtered|, i requires 0 <= i < |filtered| => Scored(WithNorms(filtered[i], atrNorm[i], gapNorm[i]), cfg))
  }

  /** The per-class block of `screen_symbols` as one value: the passing
      candidates with their norms and scores, best first, at most `topN`. */
  function RankClass(candidates: seq<Metrics>, cfg: ClassConfig, normalizeMethod: string, sqrt: real -> real)
    : (r: seq<Metrics>)
    ensures |r| <= |Passing(candidates, cfg)| <= |candidates|
    ensures |Passing(candidates, cfg)| == 0 ==> r == []
  {
    var filtered := Passing(candidates, cfg);
    if |filtered| == 0 then [] else PyPrefix(SortByScore(ScoreAll(filtered, cfg, normalizeMethod, sqrt)), cfg.topN)
  }

  /** The per-class block of `screen_symbols`: filter by the thresholds,
      write the normalised ATR% and gap into each record, then its score and
      reasons, sort by score descending and keep the first `topN`. */
  method ScreenClass(candidates: seq<Metrics>, cfg: ClassConfig, normalizeMethod: string, sqrt: real -> real)
    returns (result: seq<Metrics>)
    ensures result == RankClass(candidates, cfg, normalizeMethod, sqrt)
  {
    var filtered := FilterCandidates(candidates, cfg);
    if |filtered| == 0 {
      return [];
    }
    var atrNorm := NormalizeScores(AtrScores(filtered), normalizeMethod, sqrt);
    var gapNorm := NormalizeScores(GapScores(filtered), normalizeMethod, sqrt);
    var normed := WriteNorms(filtered, atrNorm, gapNorm);
    var scored := ScoreEach(normed, cfg);
    ScoreAllEntries(filtered, cfg, normalizeMethod, sqrt);
    assert scored == ScoreAll(filtered, cfg, normalizeMethod, sqrt);
    result := PyPrefix(SortByScore(scored), cfg.topN);
  }

  /** The threshold loop of the per-class block. */
  method FilterCandidates(candidates: seq<Metrics>, cfg: ClassConfig) returns (filtered: seq<Metrics>)
    ensures filtered == Passing(candidates, cfg)
  {
    filtered := [];
    for k := 0 to |candidates|
      invariant filtered == Passing(candidates[..k], cfg)
    {
      assert candidates[..k + 1][..k] == candidates[..k];
      var m := candidates[k];
      if m.atrPct >= cfg.atrPctMin && m.liquidity >= cfg.minLiquidityScore {
        filtered := filtered + [m];
      }
    }
    assert candidates[..|candidates|] == candidates;
  }

  /** The loop writing `atr_pct_norm` and `gap_norm` into each record. */
  method WriteNorms(filtered: seq<Metrics>, atrNorm: seq<real>, gapNorm: seq<real>) returns (normed: seq<Metrics>)
    requires |atrNorm| == |filtered| && |gapNorm| == |filtered|
    ensures |normed| == |filtered|
    ensures forall j :: 0 <= j < |filtered| ==> normed[j] == WithNorms(filtered[j], atrNorm[j], gapNorm[j])
  {
    normed := [];
    for i := 0 to |filtered|
      invariant |normed| == i
      invariant forall j :: 0 <= j < i ==> normed[j] == WithNorms(filtered[j], atrNorm[j], gapNorm[j])
    {
      normed := normed + [filtered[i].(atrPctNorm := atrNorm[i], gapNorm := gapNorm[i])];
    }
  }

  /** The loop writing each record's composite score and reasons. */
  method ScoreEach(normed: seq<Metrics>, cfg: ClassConfig) returns (scored: seq<Metrics>)
    ensures |scored| == |normed|
    ensures forall j :: 0 <= j < |normed| ==> scored[j] == Scored(normed[j], cfg)
  {
    scored := [];
    for i := 0 to |normed|
      invariant |scored| == i
      invariant forall j :: 0 <= j < i ==> scored[j] == Scored(normed[j], cfg)
    {
      var score, reasons := CalculateCompositeScore(normed[i], cfg.weights, cfg);
      scored := scored + [normed[i].(score := score, reasons := reasons)];
    }
  }

  lemma ScoreAllEntries(filtered: seq<Metrics>, cfg: ClassConfig, normalizeMethod: string, sqrt: real -> real)
    ensures var atrNorm := NormalizeScores(AtrScores(filtered), normalizeMethod, sqrt);
            var gapNorm := NormalizeScores(GapScores(filtered), normalizeMethod, sqrt);
            forall i :: 0 <= i < |filtered| ==>
              ScoreAll(filtered, cfg, normalizeMethod, sqrt)[i] == Scored(WithNorms(filtered[i], atrNorm[i], gapNorm[i]), cfg)
  {
  }

  /** A scored candidate of the class, as `RankClass` builds them. */
  predicate Ranked(m: Metrics, cfg: ClassConfig) {
    Passes(m, cfg) && m.score == CompositeScore(m, cfg.weights) && m.reasons == CompositeReasons(m, cfg.weights, cfg)
  }

  /** Scoring keeps the thresholds' verdict and records each candidate's own
      score and reasons. */
  lemma ScoreAllRanked(filtered: seq<Metrics>, cfg: ClassConfig, normalizeMethod: string, sqrt: real -> real)
    requires forall i :: 0 <= i < |filtered| ==> Passes(filtered[i], cfg)
    ensures var r := ScoreAll(filtered, cfg, normalizeMethod, sqrt);
            forall i :: 0 <= i < |r| ==> Ranked(r[i], cfg)
  {
    ScoreAllEntries(filtered, cfg, normalizeMethod, sqrt);
  }

  /** Under the two known normalisation methods every scored candidate's
      normalised ATR% and gap lie in [0, 1]. */
  lemma ScoreAllNormsInRange(filtered: seq<Metrics>, cfg: ClassConfig, normalizeMethod: string, sqrt: real -> real)
    requires normalizeMethod == "minmax_clip" || normalizeMethod == "zscore_clip"
    ensures var r := ScoreAll(filtered, cfg, normalizeMethod, sqrt);
            forall i :: 0 <= i < |r| ==> NormsInRange(r[i])
  {
    ScoreAllEntries(filtered, cfg, normalizeMethod, sqrt);
  }

  predicate NormsInRange(m: Metrics) {
    0.0 <= m.atrPctNorm <= 1.0 && 0.0 <= m.gapNorm <= 1.0
  }

  /** Every ranked candidate passed the class thresholds and carries the score
      and reasons of its own metrics; the list is best first and is the
      slice `[:topN]` of the passing candidates: at most `topN` long, all of
      them when they are fewer, and all but the last `-topN` for a negative
      `topN`. */
  lemma RankClassProperties(candidates: seq<Metrics>, cfg: ClassConfig, normalizeMethod: string, sqrt: real -> real)
    ensures var r := RankClass(candidates, cfg, normalizeMethod, sqrt);
            var n := |Passing(candidates, cfg)|;
            && SortedByScoreDesc(r)
            && (forall i :: 0 <= i < |r| ==> Ranked(r[i], cfg))
            && (cfg.topN >= 0 ==> |r| <= cfg.topN && |r| == if cfg.topN <= n then cfg.topN else n)
            && (cfg.topN < 0 ==> |r| == if -cfg.topN <= n then n + cfg.topN else 0)
  {
    var filtered := Passing(candidates, cfg);
    if |filtered| > 0 {
      var scored := ScoreAll(filtered, cfg, normalizeMethod, sqrt);
      ScoreAllRanked(filtered, cfg, normalizeMethod, sqrt);
      TopNKeeps(scored, cfg.topN, m => Ranked(m, cfg));
    }
  }

  /** Sorting best first and keeping the first `k` gives a best-first list of
      as many entries as the slice `[:k]` keeps, each of which keeps every
      property all the scored entries have. */
  lemma TopNKeeps(scored: seq<Metrics>, k: int, p: Metrics -> bool)
    requires forall i :: 0 <= i < |scored| ==> p(scored[i])
    ensures var r := PyPrefix(SortByScore(scored), k);
            && |r| == |PyPrefix(scored, k)|
            && SortedByScoreDesc(r)
            && forall i :: 0 <= i < |r| ==> p(r[i])
  {
    SortByScoreSorted(scored);
    SortByScoreKeeps(scored, p);
  }

  /** The watchlist is drawn from the scored passing candidates, and every
      scored candidate left out scores no higher than any listed one. */
  lemma RankClassKeepsBest(candidates: seq<Metrics>, cfg: ClassConfig, normalizeMethod: string, sqrt: real -> real)
    ensures var r := RankClass(candidates, cfg, normalizeMethod, sqrt);
            var scored := ScoreAll(Passing(candidates, cfg), cfg, normalizeMethod, sqrt);
            && multiset(r) <= multiset(scored)
            && forall m :: m in multiset(scored) - multiset(r) ==>
                 forall i :: 0 <= i < |r| ==> m.score <= r[i].score
  {
    var scored := ScoreAll(Passing(candidates, cfg), cfg, normalizeMethod, sqrt);
    if |Passing(candidates, cfg)| > 0 {
      SortByScoreSorted(scored);
      PrefixKeepsBest(SortByScore(scored), cfg.topN);
    }
  }

  /** The first `k` of a list sorted best first are taken from it, and
      everything left behind scores no higher than anything kept. */
  lemma PrefixKeepsBest(sorted: seq<Metrics>, k: int)
    requires SortedByScoreDesc(sorted)
    ensures var r := PyPrefix(sorted, k);
            && multiset(r) <= multiset(sorted)
            && forall m :: m in multiset(sorted) - multiset(r) ==>
                 forall i :: 0 <= i < |r| ==> m.score <= r[i].score
  {
    var r := PyPrefix(sorted, k);
    assert r == sorted[..|r|];
    FirstKeepsBest(sorted, |r|);
  }

  /** `PrefixKeepsBest` for the first `n` entries. */
  lemma FirstKeepsBest(sorted: seq<Metrics>, n: nat)
    requires n <= |sorted| && SortedByScoreDesc(sorted)
    ensures var r := sorted[..n];
            && multiset(r) <= multiset(sorted)
            && forall m :: m in multiset(sorted) - multiset(r) ==>
                 forall i :: 0 <= i < |r| ==> m.score <= r[i].score
  {
    var r := sorted[..n];
    var rest := sorted[n..];
    assert sorted == r + rest;
    assert multiset(sorted) == multiset(r) + multiset(rest);
    forall m | m in multiset(sorted) - multiset(r)
      ensures forall i :: 0 <= i < |r| ==> m.score <= r[i].score
    {
      assert m in multiset(rest);
      var j :| 0 <= j < |rest| && rest[j] == m;
      assert sorted[|r| + j] == m;
    }
  }

  /** The normalised ATR% and gap of every ranked candidate lie in [0, 1] for
      the two known normalisation methods. */
  lemma RankClassNormsInRange(candidates: seq<Metrics>, cfg: ClassConfig, normalizeMethod: string, sqrt: real -> real)
    requires normalizeMethod == "minmax_clip" || normalizeMethod == "zscore_clip"
    ensures var r := RankClass(candidates, cfg, normalizeMethod, sqrt);
            forall i :: 0 <= i < |r| ==> NormsInRange(r[i])
  {
    var filtered := Passing(candidates, cfg);
    if |filtered| > 0 {
      var scored := ScoreAll(filtered, cfg, normalizeMethod, sqrt);
      ScoreAllNormsInRange(filtered, cfg, normalizeMethod, sqrt);
      SortByScoreKeeps(scored, NormsInRange);
    }
  }

  // ---------------------------------------------------------------------
  // Metrics of one instrument
  // ---------------------------------------------------------------------

  function Reverse<T>(s: seq<T>): (r: seq<T>)
    ensures |r| == |s| && forall i :: 0 <= i < |s| ==> r[i] == s[|s| - 1 - i]
  {
    seq(|s|, i requires 0 <= i < |s| => s[|s| - 1 - i])
  }

  /** The metrics `screen_symbols` records for one instrument from its daily
      rows, newest first as the query returns them; `None` when it has fewer
      than `minCandles` rows. The sentiment score comes from the news table
      and is a parameter here. */
  function InstrumentMetrics(symbol: string, name: string, rows: seq<Candle>, minCandles: nat,
                             compressionLookback: nat, liquidityLookback: nat, sentiment: real,
                             sqrt: real -> real): (r: Option<Metrics>)
    ensures r.None? <==> |rows| < minCandles
    ensures r.Some? ==> && 0.0 <= r.value.compression <= 1.0 && 0.0 <= r.value.liquidity <= 1.0
                        && (|rows| > 0 ==> r.value.lastClose == rows[0].close)
  {
    if |rows| < minCandles then None
    else
      var candles := Reverse(rows);
      Some(Metrics(symbol, name, AtrPct(candles, 14), GapPct(candles),
                   Compression(candles, compressionLookback), LiquidityScore(candles, liquidityLookback, sqrt),
                   sentiment, if |candles| > 0 then candles[|candles| - 1].close else 0.0,
                   0.0, 0.0, 0.0, []))
  }
}
