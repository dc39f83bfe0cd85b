/** The technical indicators computed from candles (SMA, RSI, ATR, VWAP,
    Donchian channels) and the three rule-based BUY/SELL/NEUTRAL signals
    derived from them. Output rounding is not modelled: every value is the
    exact one the rounding is applied to. */
module Indicators {
  import opened Common

  // ---------------------------------------------------------------------
  // Simple moving average
  // ---------------------------------------------------------------------

  /** `calculate_sma`: 0.0 when there are fewer than `period` values, the mean
      of the last `period` values otherwise (all values for period 0, as
      Python's `s[-0:]` is the whole list, which must then be non-empty). */
  function Sma(values: seq<real>, period: nat): (r: real)
    requires period > 0 || |values| > 0
    ensures |values| < period ==> r == 0.0
  {
    if |values| < period then 0.0 else Mean(PyTail(values, period))
  }

  /** With enough values the SMA lies between the smallest and the largest of
      the last `period` values. */
  lemma SmaWithinWindow(values: seq<real>, period: nat)
    requires period > 0 && |values| >= period
    ensures var w := values[|values| - period..];
            SeqMin(w) <= Sma(values, period) <= SeqMax(w)
  {
    var w := values[|values| - period..];
    assert PyTail(values, period) == w;
    MeanBetweenMinAndMax(w);
  }

  // ---------------------------------------------------------------------
  // Relative strength index
  // ---------------------------------------------------------------------

  /** The gain of step `i` (from close `i-1` to close `i`): the rise, or 0. */
  function StepGain(closes: seq<real>, i: int): (g: real)
    requires 1 <= i < |closes|
    ensures g >= 0.0
    ensures g > 0.0 <==> closes[i] > closes[i - 1]
    ensures g > 0.0 ==> g == closes[i] - closes[i - 1]
  {
    var change := closes[i] - closes[i - 1];
    if change > 0.0 then change else 0.0
  }

  /** The loss of step `i`: the size of the fall, or 0. */
  function StepLoss(closes: seq<real>, i: int): (l: real)
    requires 1 <= i < |closes|
    ensures l >= 0.0
    ensures l > 0.0 <==> closes[i] < closes[i - 1]
    ensures l > 0.0 ==> l == closes[i - 1] - closes[i]
  {
    var change := closes[i] - closes[i - 1];
    if change > 0.0 then 0.0 else Abs(change)
  }

  /** A step's gain and loss are non-negative, at most one of them is not 0,
      and the gain minus the loss is the step's change. */
  lemma StepGainLoss(closes: seq<real>, i: int)
    requires 1 <= i < |closes|
    ensures StepGain(closes, i) >= 0.0 && StepLoss(closes, i) >= 0.0
    ensures StepGain(closes, i) == 0.0 || StepLoss(closes, i) == 0.0
    ensures StepGain(closes, i) - StepLoss(closes, i) == closes[i] - closes[i - 1]
  {
  }

  /** The `gains` list: one entry per step, in order. */
  function Gains(closes: seq<real>): (g: seq<real>)
    ensures |g| == if |closes| == 0 then 0 else |closes| - 1
    ensures forall j :: 0 <= j < |g| ==> g[j] >= 0.0
  {
    if |closes| == 0 then [] else seq(|closes| - 1, j requires 0 <= j < |closes| - 1 => StepGain(closes, j + 1))
  }

  /** The `losses` list: one entry per step, in order. */
  function Losses(closes: seq<real>): (l: seq<real>)
    ensures |l| == if |closes| == 0 then 0 else |closes| - 1
    ensures forall j :: 0 <= j < |l| ==> l[j] >= 0.0
  {
    if |closes| == 0 then [] else seq(|closes| - 1, j requires 0 <= j < |closes| - 1 => StepLoss(closes, j + 1))
  }

  /** Every entry of `Gains`/`Losses` is that step's gain or loss. */
  lemma GainsLossesEntries(closes: seq<real>, j: int)
    requires 0 <= j < |closes| - 1
    ensures Gains(closes)[j] == StepGain(closes, j + 1) && Losses(closes)[j] == StepLoss(closes, j + 1)
  {
  }

  /** The average gain and loss over the last `period` steps. */
  function AverageGain(closes: seq<real>, period: nat): (a: real)
    requires |closes| >= period + 1 && (period > 0 || |closes| != 1)
    ensures a >= 0.0
  {
    var w := PyTail(Gains(closes), period);
    MeanNonNegative(w);
    Mean(w)
  }

  function AverageLoss(closes: seq<real>, period: nat): (a: real)
    requires |closes| >= period + 1 && (period > 0 || |closes| != 1)
    ensures a >= 0.0
  {
    var w := PyTail(Losses(closes), period);
    MeanNonNegative(w);
    Mean(w)
  }

  /** `calculate_rsi` without the output rounding. The second length test of
      the source (`len(gains) < period`) cannot hold once the first one has
      passed, so it has no branch here. */
  function Rsi(closes: seq<real>, period: nat): (r: real)
    requires period > 0 || |closes| != 1
    ensures |closes| < period + 1 ==> r == 50.0
    ensures 0.0 <= r <= 100.0
  {
    if |closes| < period + 1 then 50.0
    else RsiOfAverages(AverageGain(closes, period), AverageLoss(closes, period))
  }

  /** The RSI from the two averages: 100 without losses, else `100 - 100/(1+rs)`. */
  function RsiOfAverages(avgGain: real, avgLoss: real): (r: real)
    requires avgGain >= 0.0 && avgLoss >= 0.0
    ensures 0.0 <= r <= 100.0
  {
    if avgLoss == 0.0 then 100.0
    else
      RatioNonNegative(avgGain, avgLoss);
      RsiFormula(avgGain / avgLoss)
  }

  /** `100 - 100/(1+rs)`, which lies in [0, 100) for a non-negative ratio. */
  function RsiFormula(rs: real): (r: real)
    requires rs >= 0.0
    ensures 0.0 <= r < 100.0
  {
    DivBounds(100.0, 1.0 + rs, 0.0, 100.0);
    assert 100.0 / (1.0 + rs) > 0.0 by { RatioNonNegative(100.0, 1.0 + rs); PositiveQuotient(100.0, 1.0 + rs); }
    100.0 - 100.0 / (1.0 + rs)
  }

  lemma PositiveQuotient(a: real, b: real)
    requires a > 0.0 && b > 0.0
    ensures a / b > 0.0
  {
    assert (a / b) * b == a;
  }

  /** With enough closes, the RSI is 100 exactly when the average loss is 0;
      otherwise it is the average gain's share of the average movement. */
  lemma RsiAsGainShare(closes: seq<real>, period: nat)
    requires |closes| >= period + 1 && (period > 0 || |closes| != 1)
    ensures var ag := AverageGain(closes, period);
            var al := AverageLoss(closes, period);
            && (Rsi(closes, period) == 100.0 <==> al == 0.0)
            && (al > 0.0 ==> Rsi(closes, period) == GainShare(ag, al))
  {
    var ag := AverageGain(closes, period);
    var al := AverageLoss(closes, period);
    assert Rsi(closes, period) == RsiOfAverages(ag, al);
    RsiOfAveragesShare(ag, al);
  }

  /** The average gain as a percentage of the average movement. */
  function GainShare(ag: real, al: real): real
    requires ag >= 0.0 && al > 0.0
  {
    100.0 * ag / (ag + al)
  }

  lemma RsiOfAveragesShare(ag: real, al: real)
    requires ag >= 0.0 && al >= 0.0
    ensures RsiOfAverages(ag, al) == 100.0 <==> al == 0.0
    ensures al > 0.0 ==> RsiOfAverages(ag, al) == GainShare(ag, al)
  {
    if al > 0.0 {
      RsiFormulaShare(ag, al);
    }
  }

  /** `100 - 100/(1 + ag/al)` rewritten as the share `100 ag/(ag + al)`. */
  lemma RsiFormulaShare(ag: real, al: real)
    requires ag >= 0.0 && al > 0.0
    ensures 100.0 - 100.0 / (1.0 + ag / al) == 100.0 * ag / (ag + al)
  {
    var s := ag + al;
    var rs := ag / al;
    assert rs * al == ag;
    assert (1.0 + rs) * al == s;
    var q := 100.0 / (1.0 + rs);
    assert q * (1.0 + rs) == 100.0;
    assert q * s == 100.0 * al by {
      calc {
        q * s;
        q * ((1.0 + rs) * al);
        (q * (1.0 + rs)) * al;
        100.0 * al;
      }
    }
    assert (100.0 - q) * s == 100.0 * ag;
    QuotientOfProduct(100.0 - q, s, 100.0 * ag);
  }

  /** A factor of a product is the product divided by the other factor. */
  lemma QuotientOfProduct(x: real, s: real, y: real)
    requires s != 0.0 && x * s == y
    ensures x == y / s
  {
    var d := y / s;
    assert d * s == y;
    assert (x - d) * s == 0.0;
  }

  /** `calculate_rsi`, building the gain and loss lists step by step. */
  method CalculateRsi(closes: seq<real>, period: nat) returns (r: real)
    requires period > 0 || |closes| != 1
    ensures r == Rsi(closes, period)
  {
    if |closes| < period + 1 {
      return 50.0;
    }
    var gains, losses := CollectGainsLosses(closes);
    var avgGain := Mean(PyTail(gains, period));
    var avgLoss := Mean(PyTail(losses, period));
    assert avgGain == AverageGain(closes, period) && avgLoss == AverageLoss(closes, period);
    if avgLoss == 0.0 {
      return 100.0;
    }
    var rs := avgGain / avgLoss;
    r := RsiFormula(rs);
  }

  /** The loop of `calculate_rsi` that lists each step's gain and loss. */
  method CollectGainsLosses(closes: seq<real>) returns (gains: seq<real>, losses: seq<real>)
    requires |closes| > 0
    ensures gains == Gains(closes) && losses == Losses(closes)
  {
    gains, losses := [], [];
    for i := 1 to |closes|
      invariant |gains| == i - 1 && |losses| == i - 1
      invariant forall j :: 0 <= j < i - 1 ==> gains[j] == StepGain(closes, j + 1)
      invariant forall j :: 0 <= j < i - 1 ==> losses[j] == StepLoss(closes, j + 1)
    {
      var change := closes[i] - closes[i - 1];
      if change > 0.0 {
        gains := gains + [change];
        losses := losses + [0.0];
      } else {
        gains := gains + [0.0];
        losses := losses + [Abs(change)];
      }
    }
  }

  // ---------------------------------------------------------------------
  // Average true range
  // ---------------------------------------------------------------------

  /** The true range of a bar against the previous close. */
  function TrueRange(high: real, low: real, prevClose: real): (tr: real)
    ensures tr >= 0.0
    ensures tr >= high - low && tr >= Abs(high - prevClose) && tr >= Abs(low - prevClose)
    ensures tr == high - low || tr == Abs(high - prevClose) || tr == Abs(low - prevClose)
  {
    MaxReal(MaxReal(high - low, Abs(high - prevClose)), Abs(low - prevClose))
  }

  /** A previous close inside the bar leaves the plain range `high - low`. */
  lemma TrueRangeInsideBar(high: real, low: real, prevClose: real)
    requires low <= prevClose <= high
    ensures TrueRange(high, low, prevClose) == high - low
  {
  }

  /** Some bar after the first has no low or no previous close: the loop of
      `calculate_atr` reads past the end of `lows` or `closes`. */
  predicate Misaligned(highs: seq<real>, lows: seq<real>, closes: seq<real>) {
    |highs| >= 2 && (|lows| < |highs| || |closes| + 1 < |highs|)
  }

  /** The `true_ranges` list: bar `i` against close `i-1`, for every bar but
      the first; an `IndexError` when `lows` or `closes` runs out first. */
  function TrueRanges(highs: seq<real>, lows: seq<real>, closes: seq<real>): (r: Result<seq<real>>)
    ensures r.Err? <==> Misaligned(highs, lows, closes)
    ensures r.Err? ==> r.error == IndexOutOfRange
    ensures r.Ok? ==> |r.value| == (if |highs| == 0 then 0 else |highs| - 1)
    ensures r.Ok? ==> forall j :: 0 <= j < |r.value| ==> r.value[j] == TrueRange(highs[j + 1], lows[j + 1], closes[j])
  {
    if Misaligned(highs, lows, closes) then Err(IndexOutOfRange)
    else if |highs| == 0 then Ok([])
    else Ok(seq(|highs| - 1, j requires 0 <= j < |highs| - 1 => TrueRange(highs[j + 1], lows[j + 1], closes[j])))
  }

  /** `calculate_atr` without the output rounding: 0.0 below `period + 1`
      bars; otherwise the mean of the last `period` true ranges (of all of
      them for period 0). The true ranges fail on misaligned lists, and the
      mean fails on an empty list, which period 0 with one bar gives. */
  function Atr(highs: seq<real>, lows: seq<real>, closes: seq<real>, period: nat): (r: Result<real>)
    ensures |highs| < period + 1 ==> r == Ok(0.0)
    ensures r.Err? <==> |highs| >= period + 1 && (Misaligned(highs, lows, closes) || (period == 0 && |highs| == 1))
    ensures r.Err? ==> r.error == (if Misaligned(highs, lows, closes) then IndexOutOfRange else MeanOfEmpty)
    ensures r.Ok? ==> r.value >= 0.0
  {
    if |highs| < period + 1 then Ok(0.0)
    else
      match TrueRanges(highs, lows, closes)
      case Err(e) => Err(e)
      case Ok(t) =>
        if |t| == 0 then Err(MeanOfEmpty)
        else
          var w := PyTail(t, period);
          MeanNonNegative(w);
          Ok(Mean(w))
  }

  /** The ATR lies between the smallest and the largest true range of the
      last `period` steps. */
  lemma AtrWithinRanges(highs: seq<real>, lows: seq<real>, closes: seq<real>, period: nat)
    requires period > 0 && |highs| >= period + 1
    requires |lows| >= |highs| && |closes| + 1 >= |highs|
    ensures TrueRanges(highs, lows, closes).Ok? && Atr(highs, lows, closes, period).Ok?
    ensures var t := TrueRanges(highs, lows, closes).value;
            var w := t[|t| - period..];
            SeqMin(w) <= Atr(highs, lows, closes, period).value <= SeqMax(w)
  {
    var t := TrueRanges(highs, lows, closes).value;
    var w := t[|t| - period..];
    assert PyTail(t, period) == w;
    MeanBetweenMinAndMax(w);
  }

  /** `calculate_atr`, building the true-range list step by step and stopping
      at the first bar whose low or previous close is missing. */
  method CalculateAtr(highs: seq<real>, lows: seq<real>, closes: seq<real>, period: nat) returns (r: Result<real>)
    ensures r == Atr(highs, lows, closes, period)
  {
    if |highs| < period + 1 {
      return Ok(0.0);
    }
    var trueRanges: seq<real> := [];
    for i := 1 to |highs|
      invariant |trueRanges| == i - 1
      invariant i == 1 || (i - 1 < |lows| && i - 2 < |closes|)
      invariant forall j :: 0 <= j < i - 1 ==> trueRanges[j] == TrueRange(highs[j + 1], lows[j + 1], closes[j])
    {
      if i >= |lows| || i - 1 >= |closes| {
        assert Misaligned(highs, lows, closes);
        return Err(IndexOutOfRange);
      }
      var high := highs[i];
      var low := lows[i];
      var prevClose := closes[i - 1];
      var tr := MaxReal(MaxReal(high - low, Abs(high - prevClose)), Abs(low - prevClose));
      trueRanges := trueRanges + [tr];
    }
    assert !Misaligned(highs, lows, closes);
    assert trueRanges == TrueRanges(highs, lows, closes).value;
    if |trueRanges| == 0 {
      return Err(MeanOfEmpty);
    }
    r := Ok(Mean(PyTail(trueRanges, period)));
  }

  // ---------------------------------------------------------------------
  // Volume-weighted average price
  // ---------------------------------------------------------------------

  function TypicalPrice(high: real, low: real, close: real): (tp: real)
    ensures MinReal(MinReal(high, low), close) <= tp <= MaxReal(MaxReal(high, low), close)
    ensures high == low == close ==> tp == close
  {
    (high + low + close) / 3.0
  }

  /** `sum(tp * v ...)` over the bars `zip` pairs up: as many as the shortest
      of the four lists. */
  function PriceVolumeSum(highs: seq<real>, lows: seq<real>, closes: seq<real>, volumes: seq<real>): real
    decreases |volumes|
  {
    if |highs| == 0 || |lows| == 0 || |closes| == 0 || |volumes| == 0 then 0.0
    else TypicalPrice(highs[0], lows[0], closes[0]) * volumes[0]
         + PriceVolumeSum(highs[1..], lows[1..], closes[1..], volumes[1..])
  }

  /** Bars without volume add nothing to the price-volume sum. */
  lemma {:induction false} PriceVolumeSumZeroVolume(highs: seq<real>, lows: seq<real>, closes: seq<real>, volumes: seq<real>)
    requires forall i :: 0 <= i < |volumes| ==> volumes[i] == 0.0
    ensures PriceVolumeSum(highs, lows, closes, volumes) == 0.0
    decreases |volumes|
  {
    if |highs| > 0 && |lows| > 0 && |closes| > 0 && |volumes| > 0 {
      PriceVolumeSumZeroVolume(highs[1..], lows[1..], closes[1..], volumes[1..]);
    }
  }

  /** `calculate_vwap` without the output rounding. */
  function Vwap(highs: seq<real>, lows: seq<real>, closes: seq<real>, volumes: seq<real>): (r: real)
    ensures Sum(volumes) == 0.0 ==> r == 0.0
    ensures Sum(volumes) != 0.0 ==> r * Sum(volumes) == PriceVolumeSum(highs, lows, closes, volumes)
  {
    if |volumes| == 0 then 0.0
    else
      var vSum := Sum(volumes);
      if vSum == 0.0 then 0.0 else PriceVolumeSum(highs, lows, closes, volumes) / vSum
  }

  /** Every typical price between `lo` and `hi` with non-negative volumes puts
      the price-volume sum between `lo` and `hi` times the total volume. */
  lemma {:induction false} PriceVolumeSumBounds(highs: seq<real>, lows: seq<real>, closes: seq<real>,
                                                 volumes: seq<real>, lo: real, hi: real)
    requires BarsWithin(highs, lows, closes, volumes, lo, hi)
    ensures lo * Sum(volumes) <= PriceVolumeSum(highs, lows, closes, volumes) <= hi * Sum(volumes)
    decreases |volumes|
  {
    if |volumes| > 0 {
      BarsTail(highs, lows, closes, volumes, lo, hi);
      PriceVolumeSumBounds(highs[1..], lows[1..], closes[1..], volumes[1..], lo, hi);
      PriceVolumeSumStep(highs, lows, closes, volumes, lo, hi);
    } else {
      NoBarsBounds(highs, lows, closes, volumes, lo, hi);
    }
  }

  lemma {:induction false} PriceVolumeSumStep(highs: seq<real>, lows: seq<real>, closes: seq<real>, volumes: seq<real>,
                           lo: real, hi: real)
    requires |highs| == |lows| == |closes| == |volumes| > 0 && volumes[0] >= 0.0
    requires lo <= TypicalPrice(highs[0], lows[0], closes[0]) <= hi
    requires lo * Sum(volumes[1..]) <= PriceVolumeSum(highs[1..], lows[1..], closes[1..], volumes[1..]) <= hi * Sum(volumes[1..])
    ensures lo * Sum(volumes) <= PriceVolumeSum(highs, lows, closes, volumes) <= hi * Sum(volumes)
  {
    var rest := PriceVolumeSum(highs[1..], lows[1..], closes[1..], volumes[1..]);
    var restVolume := Sum(volumes[1..]);
    var tp := TypicalPrice(highs[0], lows[0], closes[0]);
    var total := Sum(volumes);
    var sum := PriceVolumeSum(highs, lows, closes, volumes);
    assert total == volumes[0] + restVolume;
    assert sum == tp * volumes[0] + rest;
    StepBounds(volumes[0], restVolume, tp, rest, lo, hi, total, sum);
  }

  lemma {:induction false} NoBarsBounds(highs: seq<real>, lows: seq<real>, closes: seq<real>, volumes: seq<real>, lo: real, hi: real)
    requires |volumes| == 0
    ensures lo * Sum(volumes) <= PriceVolumeSum(highs, lows, closes, volumes) <= hi * Sum(volumes)
  {
    assert Sum(volumes) == 0.0 && PriceVolumeSum(highs, lows, closes, volumes) == 0.0;
  }

  /** Bars of equal length whose volumes are non-negative and whose typical
      prices lie between `lo` and `hi`. */
  predicate BarsWithin(highs: seq<real>, lows: seq<real>, closes: seq<real>, volumes: seq<real>, lo: real, hi: real)
  {
    && |highs| == |lows| == |closes| == |volumes|
    && (forall i :: 0 <= i < |volumes| ==> volumes[i] >= 0.0)
    && (forall i :: 0 <= i < |volumes| ==> lo <= TypicalPrice(highs[i], lows[i], closes[i]) <= hi)
  }

  /** The bars after the first keep `BarsWithin`, and so does the first. */
  lemma BarsTail(highs: seq<real>, lows: seq<real>, closes: seq<real>, volumes: seq<real>, lo: real, hi: real)
    requires BarsWithin(highs, lows, closes, volumes, lo, hi) && |volumes| > 0
    ensures BarsWithin(highs[1..], lows[1..], closes[1..], volumes[1..], lo, hi)
    ensures lo <= TypicalPrice(highs[0], lows[0], closes[0]) <= hi && volumes[0] >= 0.0
  {
    forall i | 0 <= i < |volumes| - 1
      ensures lo <= TypicalPrice(highs[1..][i], lows[1..][i], closes[1..][i]) <= hi
    {
      assert highs[1..][i] == highs[i + 1] && lows[1..][i] == lows[i + 1] && closes[1..][i] == closes[i + 1];
    }
  }

  /** One bar more: its price-volume term and volume join the bounds of the rest. */
  lemma StepBounds(v: real, restVolume: real, tp: real, rest: real, lo: real, hi: real, total: real, sum: real)
    requires lo <= tp <= hi && v >= 0.0
    requires lo * restVolume <= rest <= hi * restVolume
    requires total == v + restVolume && sum == tp * v + rest
    ensures lo * total <= sum <= hi * total
  {
    ScaleBetween(lo, tp, hi, v);
    AddBounds(v, restVolume, tp * v, rest, lo, hi, total, sum);
  }

  lemma AddBounds(a: real, b: real, x: real, y: real, lo: real, hi: real, ab: real, xy: real)
    requires lo * a <= x <= hi * a && lo * b <= y <= hi * b
    requires ab == a + b && xy == x + y
    ensures lo * ab <= xy <= hi * ab
  {
    assert lo * (a + b) == lo * a + lo * b;
    assert hi * (a + b) == hi * a + hi * b;
  }

  lemma ScaleBetween(lo: real, x: real, hi: real, v: real)
    requires lo <= x <= hi && v >= 0.0
    ensures lo * v <= x * v <= hi * v
  {
  }

  /** With bars of equal length, non-negative volumes and some volume, the
      VWAP lies between the smallest and the largest typical price. */
  lemma VwapWithinTypicalPrices(highs: seq<real>, lows: seq<real>, closes: seq<real>, volumes: seq<real>,
                                lo: real, hi: real)
    requires BarsWithin(highs, lows, closes, volumes, lo, hi)
    requires Sum(volumes) > 0.0
    ensures lo <= Vwap(highs, lows, closes, volumes) <= hi
  {
    var pv := PriceVolumeSum(highs, lows, closes, volumes);
    var total := Sum(volumes);
    PriceVolumeSumBounds(highs, lows, closes, volumes, lo, hi);
    assert total * lo <= pv <= total * hi;
    assert Vwap(highs, lows, closes, volumes) == pv / total;
    DivBounds(pv, total, lo, hi);
  }

  // ---------------------------------------------------------------------
  // Donchian channel
  // ---------------------------------------------------------------------

  datatype Channel = Channel(upper: real, lower: real, middle: real)

  /** `calculate_donchian` without the output rounding: the highest high and
      lowest low of the last `period` bars, and their midpoint; zeros below
      `period` bars. `max` of no highs (period 0 with none) or `min` of no
      lows fails. */
  function Donchian(highs: seq<real>, lows: seq<real>, period: nat): (r: Result<Channel>)
    ensures |highs| < period ==> r == Ok(Channel(0.0, 0.0, 0.0))
    ensures r.Err? <==> |highs| >= period && (|highs| == 0 || |lows| == 0)
    ensures r.Err? ==> r.error == MaxOfEmpty
    ensures r.Ok? ==> r.value.middle * 2.0 == r.value.upper + r.value.lower
  {
    if |highs| < period then Ok(Channel(0.0, 0.0, 0.0))
    else if |highs| == 0 || |lows| == 0 then Err(MaxOfEmpty)
    else
      var upper := SeqMax(PyTail(highs, period));
      var lower := SeqMin(PyTail(lows, period));
      Ok(Channel(upper, lower, (upper + lower) / 2.0))
  }

  /** Over a full window the channel encloses every bar of the window and
      touches the highest high and the lowest low. */
  lemma DonchianEncloses(highs: seq<real>, lows: seq<real>, period: nat)
    requires period > 0 && |highs| >= period && |lows| >= period
    ensures Donchian(highs, lows, period).Ok?
    ensures var ch := Donchian(highs, lows, period).value;
            && (forall i :: |highs| - period <= i < |highs| ==> highs[i] <= ch.upper)
            && (forall i :: |lows| - period <= i < |lows| ==> ch.lower <= lows[i])
            && (exists i :: |highs| - period <= i < |highs| && highs[i] == ch.upper)
            && (exists i :: |lows| - period <= i < |lows| && lows[i] == ch.lower)
  {
    var th := PyTail(highs, period);
    var tl := PyTail(lows, period);
    forall i | |highs| - period <= i < |highs| ensures highs[i] <= SeqMax(th) {
      assert highs[i] == th[i - (|highs| - period)];
    }
    forall i | |lows| - period <= i < |lows| ensures SeqMin(tl) <= lows[i] {
      assert lows[i] == tl[i - (|lows| - period)];
    }
    var a :| 0 <= a < |th| && th[a] == SeqMax(th);
    assert highs[|highs| - period + a] == SeqMax(th);
    var b :| 0 <= b < |tl| && tl[b] == SeqMin(tl);
    assert lows[|lows| - period + b] == SeqMin(tl);
  }

  /** Bars whose high is at least their low give `upper >= lower`, so the
      middle lies between them. */
  lemma DonchianOrdered(highs: seq<real>, lows: seq<real>, period: nat)
    requires |highs| >= period && |highs| > 0 && |lows| == |highs|
    requires forall i :: 0 <= i < |highs| ==> lows[i] <= highs[i]
    ensures Donchian(highs, lows, period).Ok?
    ensures var ch := Donchian(highs, lows, period).value;
            ch.lower <= ch.middle <= ch.upper
  {
    var n := |highs|;
    PyTailLast(highs, period);
    PyTailLast(lows, period);
    var th := PyTail(highs, period);
    var tl := PyTail(lows, period);
    assert highs[n - 1] <= SeqMax(th);
    assert SeqMin(tl) <= lows[n - 1];
    MidpointBetween(SeqMin(tl), SeqMax(th));
  }

  lemma MidpointBetween(lo: real, hi: real)
    requires lo <= hi
    ensures lo <= (lo + hi) / 2.0 <= hi
  {
  }

  // ---------------------------------------------------------------------
  // Signals
  // ---------------------------------------------------------------------

  datatype Candle = Candle(open: real, high: real, low: real, close: real, volume: real)

  function Highs(cs: seq<Candle>): (s: seq<real>)
    ensures |s| == |cs| && forall i :: 0 <= i < |cs| ==> s[i] == cs[i].high
  {
    seq(|cs|, i requires 0 <= i < |cs| => cs[i].high)
  }

  function Lows(cs: seq<Candle>): (s: seq<real>)
    ensures |s| == |cs| && forall i :: 0 <= i < |cs| ==> s[i] == cs[i].low
  {
    seq(|cs|, i requires 0 <= i < |cs| => cs[i].low)
  }

  function Closes(cs: seq<Candle>): (s: seq<real>)
    ensures |s| == |cs| && forall i :: 0 <= i < |cs| ==> s[i] == cs[i].close
  {
    seq(|cs|, i requires 0 <= i < |cs| => cs[i].close)
  }

  function Volumes(cs: seq<Candle>): (s: seq<real>)
    ensures |s| == |cs| && forall i :: 0 <= i < |cs| ==> s[i] == cs[i].volume
  {
    seq(|cs|, i requires 0 <= i < |cs| => cs[i].volume)
  }

  datatype Signal = Buy | Sell | Neutral

  /** One strategy's verdict; a neutral verdict has confidence 0. */
  datatype StrategySignal = StrategySignal(signal: Signal, strength: real, confidence: real)

  /** A verdict with the strategy's fixed confidence, or 0 when neutral. */
  function Verdict(signal: Signal, strength: real, confidence: real): (s: StrategySignal)
    requires confidence > 0.0
    ensures s.signal == signal && s.strength == strength
    ensures s.confidence == 0.0 <==> signal == Neutral
    ensures signal != Neutral ==> s.confidence == confidence
  {
    StrategySignal(signal, strength, if signal != Neutral then confidence else 0.0)
  }

  /** Strategy 1, ORB + VWAP: above both the VWAP and the 20-bar SMA is a buy,
      below both a sell; the strength is the distance from the VWAP in
      percent, capped at 1. A zero VWAP on a buy or sell is a division by
      zero. */
  function OrbVwap(price: real, vwap: real, sma20: real): (r: Result<StrategySignal>)
    ensures r.Err? <==> vwap == 0.0 && ((price > 0.0 && price > sma20) || (price < 0.0 && price < sma20))
    ensures r.Ok? ==> && (r.value.signal == Buy <==> price > vwap && price > sma20)
                      && (r.value.signal == Sell <==> price < vwap && price < sma20)
                      && r.value.strength <= 1.0
                      && (r.value.confidence == 0.0 <==> r.value.signal == Neutral)
  {
    if price > vwap && price > sma20 then
      if vwap == 0.0 then Err(DivisionByZero)
      else Ok(Verdict(Buy, MinReal(((price - vwap) / vwap) * 100.0, 1.0), 0.6))
    else if price < vwap && price < sma20 then
      if vwap == 0.0 then Err(DivisionByZero)
      else Ok(Verdict(Sell, MinReal(((vwap - price) / vwap) * 100.0, 1.0), 0.6))
    else Ok(Verdict(Neutral, 0.0, 0.6))
  }

  /** With a positive VWAP, a buy or sell has a positive strength. */
  lemma OrbVwapStrengthPositive(price: real, vwap: real, sma20: real)
    requires vwap > 0.0
    ensures OrbVwap(price, vwap, sma20).Ok?
    ensures var s := OrbVwap(price, vwap, sma20).value;
            s.signal != Neutral ==> 0.0 < s.strength <= 1.0
  {
    if price > vwap {
      assert (price - vwap) / vwap > 0.0;
    } else if price < vwap {
      assert (vwap - price) / vwap > 0.0;
    }
  }

  /** Strategy 2, SMA + RSI + ATR: with both SMAs positive, a price above a
      rising SMA pair and an RSI under 70 is a buy, a price below a falling
      pair and an RSI over 30 a sell. */
  function SmaRsiAtr(price: real, sma20: real, sma50: real, rsi: real): (s: StrategySignal)
    ensures s.signal == Buy <==> sma20 > 0.0 && sma50 > 0.0 && price > sma20 > sma50 && rsi < 70.0
    ensures s.signal == Sell <==> sma20 > 0.0 && sma50 > 0.0 && price < sma20 < sma50 && rsi > 30.0
    ensures s.confidence == 0.0 <==> s.signal == Neutral
  {
    if sma20 > 0.0 && sma50 > 0.0 then
      if price > sma20 && sma20 > sma50 && rsi < 70.0 then Verdict(Buy, (70.0 - rsi) / 70.0, 0.7)
      else if price < sma20 && sma20 < sma50 && rsi > 30.0 then Verdict(Sell, rsi / 100.0, 0.7)
      else Verdict(Neutral, 0.0, 0.7)
    else Verdict(Neutral, 0.0, 0.7)
  }

  /** For an RSI in [0, 100], a buy's strength lies in (0, 1] and a sell's in
      (0.3, 1]; a neutral verdict has strength 0. */
  lemma SmaRsiAtrStrength(price: real, sma20: real, sma50: real, rsi: real)
    requires 0.0 <= rsi <= 100.0
    ensures var s := SmaRsiAtr(price, sma20, sma50, rsi);
            && (s.signal == Buy ==> 0.0 < s.strength <= 1.0)
            && (s.signal == Sell ==> 0.3 < s.strength <= 1.0)
            && (s.signal == Neutral ==> s.strength == 0.0)
  {
  }

  /** Strategy 3, Donchian breakout: at or above the upper band is a buy, else
      at or below the lower band a sell, both with strength 0.8. */
  function DonchianBreakout(price: real, ch: Channel): (s: StrategySignal)
    ensures s.signal == Buy <==> price >= ch.upper
    ensures s.signal == Sell <==> ch.lower >= price && price < ch.upper
    ensures s.signal != Neutral ==> s.strength == 0.8 && s.confidence == 0.75
    ensures s.signal == Neutral ==> s.strength == 0.0 && s.confidence == 0.0
  {
    if price >= ch.upper then Verdict(Buy, 0.8, 0.75)
    else if price <= ch.lower then Verdict(Sell, 0.8, 0.75)
    else Verdict(Neutral, 0.0, 0.75)
  }

  /** The indicators of `generate_signals`, computed from at least one candle. */
  datatype IndicatorSet = IndicatorSet(sma20: real, sma50: real, rsi: real, atr: real, vwap: real, donchian: Channel)

  function ComputeIndicators(candles: seq<Candle>): (ind: IndicatorSet)
    requires |candles| > 0
    ensures 0.0 <= ind.rsi <= 100.0 && ind.atr >= 0.0
    ensures |candles| < 50 ==> ind.sma50 == 0.0
  {
    var closes := Closes(candles);
    var highs := Highs(candles);
    var lows := Lows(candles);
    IndicatorSet(
      Sma(closes, 20),
      if |closes| >= 50 then Sma(closes, 50) else 0.0,
      Rsi(closes, 14),
      Atr(highs, lows, closes, 14).value,
      Vwap(highs, lows, closes, Volumes(candles)),
      Donchian(highs, lows, 20).value)
  }

  datatype Report =
    | InsufficientData(symbol: string, candlesCount: int)
    | Signals(symbol: string, currentPrice: real, indicators: IndicatorSet,
              orbVwap: StrategySignal, smaRsiAtr: StrategySignal, donchianBreakout: StrategySignal)

  /** `generate_signals`: the error record with fewer than 20 candles, the
      indicators and the three verdicts at the last close otherwise. */
  function GenerateSignals(candles: seq<Candle>, symbol: string): (r: Result<Report>)
    ensures |candles| < 20 <==> r == Ok(InsufficientData(symbol, |candles|))
    ensures r.Ok? && r.value.Signals? ==> r.value.currentPrice == candles[|candles| - 1].close
  {
    if |candles| < 20 then Ok(InsufficientData(symbol, |candles|))
    else
      var ind := ComputeIndicators(candles);
      var price := candles[|candles| - 1].close;
      match OrbVwap(price, ind.vwap, ind.sma20)
      case Err(e) => Err(e)
      case Ok(orb) =>
        Ok(Signals(symbol, price, ind, orb, SmaRsiAtr(price, ind.sma20, ind.sma50, ind.rsi),
                   DonchianBreakout(price, ind.donchian)))
  }

  /** `generate_signals` fails exactly when the ORB strategy divides by a zero
      VWAP: at least 20 candles whose volumes sum to 0 (or a zero price-volume
      sum) and a last close on one side of both 0 and the 20-bar SMA. */
  lemma GenerateSignalsFails(candles: seq<Candle>, symbol: string)
    ensures var r := GenerateSignals(candles, symbol);
            r.Err? <==> (|candles| >= 20 &&
              var ind := ComputeIndicators(candles);
              var price := candles[|candles| - 1].close;
              ind.vwap == 0.0 && ((price > 0.0 && price > ind.sma20) || (price < 0.0 && price < ind.sma20)))
  {
  }

  /** Every report of `generate_signals` is well formed: RSI in [0, 100], a
      non-negative ATR, no 50-bar SMA under 50 candles, ORB strength at most
      1, and each verdict's confidence 0 exactly when it is neutral. */
  lemma ReportWellFormed(candles: seq<Candle>, symbol: string)
    ensures var r := GenerateSignals(candles, symbol);
            r.Ok? && r.value.Signals? ==>
              var rep := r.value;
              && 0.0 <= rep.indicators.rsi <= 100.0 && rep.indicators.atr >= 0.0
              && (|candles| < 50 ==> rep.indicators.sma50 == 0.0)
              && rep.orbVwap.strength <= 1.0
              && (rep.orbVwap.confidence == 0.0 <==> rep.orbVwap.signal == Neutral)
              && (rep.smaRsiAtr.confidence == 0.0 <==> rep.smaRsiAtr.signal == Neutral)
              && (rep.donchianBreakout.confidence == 0.0 <==> rep.donchianBreakout.signal == Neutral)
              && (rep.smaRsiAtr.signal != Neutral ==> 0.0 < rep.smaRsiAtr.strength <= 1.0)
  {
    var r := GenerateSignals(candles, symbol);
    if r.Ok? && r.value.Signals? {
      ReportParts(candles, symbol);
      var ind := ComputeIndicators(candles);
      SmaRsiAtrStrength(candles[|candles| - 1].close, ind.sma20, ind.sma50, ind.rsi);
    }
  }

  /** A report holds the indicators and the three verdicts at the last close. */
  lemma ReportParts(candles: seq<Candle>, symbol: string)
    ensures var r := GenerateSignals(candles, symbol);
            r.Ok? && r.value.Signals? ==>
              && |candles| >= 20
              && var ind := ComputeIndicators(candles);
                 var price := candles[|candles| - 1].close;
                 && OrbVwap(price, ind.vwap, ind.sma20).Ok?
                 && r.value == Signals(symbol, price, ind, OrbVwap(price, ind.vwap, ind.sma20).value,
                                       SmaRsiAtr(price, ind.sma20, ind.sma50, ind.rsi), DonchianBreakout(price, ind.donchian))
  {
  }
}
