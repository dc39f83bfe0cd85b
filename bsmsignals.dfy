/** The volatility-regime signals: IV rank, realized volatility from daily
    closes, the proxy signal built from realized volatility when there is no
    options data, and the context built from real options data.

    `sqrt` is a parameter, standing for `math.sqrt` inside `statistics.stdev`
    and for `252 ** 0.5`; no property below depends on what it returns unless
    a lemma says so. Output rounding is not modelled. */
module BsmSignals {
  import opened Common
  import opened Indicators

  // ---------------------------------------------------------------------
  // Configuration
  // ---------------------------------------------------------------------

  /** The configuration keys; a missing key takes the default noted at its use. */
  datatype Config = Config(proxyVolBias: Option<real>, highIvThreshold: Option<real>, lowIvThreshold: Option<real>,
                           minVega: Option<real>, mispricingThreshold: Option<real>)

  /** The configuration used when the input carries none. */
  const DefaultConfig: Config := Config(Some(1.10), Some(70.0), Some(30.0), Some(0.02), Some(0.1))

  /** A configuration with every key missing. */
  const EmptyConfig: Config := Config(None, None, None, None, None)

  // ---------------------------------------------------------------------
  // IV rank
  // ---------------------------------------------------------------------

  /** `calculate_iv_rank`: where the current IV sits between the lowest and
      the highest of the history, on a 0-100 scale; 50 (neutral) with fewer
      than two values or a flat history. */
  function IvRank(current: real, history: seq<real>): (r: real)
    ensures |history| < 2 ==> r == 50.0
    ensures |history| >= 2 && SeqMin(history) == SeqMax(history) ==> r == 50.0
  {
    if |history| < 2 then 50.0
    else
      var lo := SeqMin(history);
      var hi := SeqMax(history);
      if hi == lo then 50.0 else RankBetween(current, lo, hi)
  }

  /** The position of `x` from `lo` to `hi`, in percent. */
  function RankBetween(x: real, lo: real, hi: real): real
    requires lo != hi
  {
    ((x - lo) / (hi - lo)) * 100.0
  }

  /** An IV inside the historical range has a rank in [0, 100]. */
  lemma IvRankBounds(current: real, history: seq<real>)
    requires |history| >= 2 && SeqMin(history) <= current <= SeqMax(history)
    ensures 0.0 <= IvRank(current, history) <= 100.0
  {
    var lo := SeqMin(history);
    var hi := SeqMax(history);
    if hi != lo {
      RankBetweenBounds(current, lo, hi);
    }
  }

  lemma RankBetweenBounds(x: real, lo: real, hi: real)
    requires lo <= x <= hi && lo != hi
    ensures 0.0 <= RankBetween(x, lo, hi) <= 100.0
  {
    DivBounds(x - lo, hi - lo, 0.0, 1.0);
  }

  /** Against a history that is not flat the lowest value ranks 0 and the
      highest 100. */
  lemma IvRankEndpoints(history: seq<real>)
    requires |history| >= 2 && SeqMin(history) != SeqMax(history)
    ensures IvRank(SeqMin(history), history) == 0.0
    ensures IvRank(SeqMax(history), history) == 100.0
  {
    var lo := SeqMin(history);
    var hi := SeqMax(history);
    assert lo <= history[0] <= hi;
    RankBetweenEnds(lo, hi);
  }

  lemma RankBetweenEnds(lo: real, hi: real)
    requires lo < hi
    ensures RankBetween(lo, lo, hi) == 0.0 && RankBetween(hi, lo, hi) == 100.0
  {
    RatioAtEnds(lo, lo, hi);
    RatioAtEnds(hi, lo, hi);
  }

  /** A higher IV never ranks lower against the same history. */
  lemma IvRankMonotone(a: real, b: real, history: seq<real>)
    requires a <= b
    ensures IvRank(a, history) <= IvRank(b, history)
  {
    if |history| >= 2 && SeqMin(history) != SeqMax(history) {
      var lo := SeqMin(history);
      var hi := SeqMax(history);
      assert lo <= history[0] <= hi;
      DivMonotone(a - lo, b - lo, hi - lo);
      assert RankBetween(a, lo, hi) <= RankBetween(b, lo, hi);
    }
  }

  // ---------------------------------------------------------------------
  // Realized volatility
  // ---------------------------------------------------------------------

  /** None of the first `n` closes is zero: they are the divisors of the first
      `n` returns. */
  predicate NonZeroCloses(closes: seq<real>, n: nat)
    requires n <= |closes|
  {
    forall i :: 0 <= i < n ==> closes[i] != 0.0
  }

  /** The first `n` simple returns of the closes. */
  function Returns(closes: seq<real>, n: nat): (r: seq<real>)
    requires n < |closes| && NonZeroCloses(closes, n)
    ensures |r| == n
  {
    seq(n, i requires 0 <= i < n => (closes[i + 1] - closes[i]) / closes[i])
  }

  /** `statistics.stdev`: the sample standard deviation (n - 1 in the
      denominator), which needs two values. */
  function SampleStdev(xs: seq<real>, sqrt: real -> real): (d: real)
    requires |xs| >= 2
    ensures (forall y :: y >= 0.0 ==> sqrt(y) >= 0.0) ==> d >= 0.0
  {
    SquaredDeviationsNonNegative(xs, Mean(xs));
    RatioNonNegative(SquaredDeviations(xs, Mean(xs)), (|xs| - 1) as real);
    sqrt(SquaredDeviations(xs, Mean(xs)) / ((|xs| - 1) as real))
  }

  /** `calculate_realized_volatility`: 0.0 with fewer than `period + 1`
      closes; otherwise the annualised sample deviation of the first `period`
      returns (0.0 when there are fewer than two). A zero among the closes
      those returns divide by is Python's division by zero. */
  function RealizedVol(closes: seq<real>, period: nat, sqrt: real -> real): (r: Result<real>)
    ensures |closes| < period + 1 ==> r == Ok(0.0)
    ensures r.Err? <==> |closes| >= period + 1 && exists i :: 0 <= i < period && closes[i] == 0.0
  {
    if |closes| < period + 1 then Ok(0.0)
    else if !NonZeroCloses(closes, period) then Err(DivisionByZero)
    else if period < 2 then Ok(0.0)
    else Ok(Annualised(SampleStdev(Returns(closes, period), sqrt), sqrt))
  }

  /** A daily volatility scaled to a year of 252 trading days. */
  function Annualised(dailyVol: real, sqrt: real -> real): real {
    dailyVol * sqrt(252.0)
  }

  /** Only the first `period + 1` closes count: two price histories that
      agree on them have the same realized volatility, whatever follows. */
  lemma RealizedVolUsesFirstCloses(a: seq<real>, b: seq<real>, period: nat, sqrt: real -> real)
    requires |a| >= period + 1 && |b| >= period + 1
    requires a[..period + 1] == b[..period + 1]
    ensures RealizedVol(a, period, sqrt) == RealizedVol(b, period, sqrt)
  {
    forall i | 0 <= i < period + 1 ensures a[i] == b[i] {
      assert a[i] == a[..period + 1][i];
    }
    if NonZeroCloses(a, period) {
      assert NonZeroCloses(b, period);
      if period >= 2 {
        var ra := Returns(a, period);
        var rb := Returns(b, period);
        forall i | 0 <= i < period ensures ra[i] == rb[i] {
          assert a[i] == b[i] && a[i + 1] == b[i + 1];
        }
        assert ra == rb;
      }
    } else {
      var i :| 0 <= i < period && a[i] == 0.0;
      assert b[i] == 0.0;
    }
  }

  /** With a non-negative `sqrt`, a computed volatility is never negative. */
  lemma RealizedVolNonNegative(closes: seq<real>, period: nat, sqrt: real -> real)
    requires forall x :: x >= 0.0 ==> sqrt(x) >= 0.0
    ensures RealizedVol(closes, period, sqrt).Ok? ==> RealizedVol(closes, period, sqrt).value >= 0.0
  {
    if |closes| >= period + 1 && NonZeroCloses(closes, period) && period >= 2 {
      var rets := Returns(closes, period);
      SquaredDeviationsNonNegative(rets, Mean(rets));
      RatioNonNegative(SquaredDeviations(rets, Mean(rets)), (period - 1) as real);
      var daily := SampleStdev(rets, sqrt);
      var annual := sqrt(252.0);
      assert daily >= 0.0 && annual >= 0.0;
      ScaleBetween(0.0, daily, daily, annual);
    }
  }

  lemma {:induction false} SquaredDeviationsNonNegative(vs: seq<real>, avg: real)
    ensures SquaredDeviations(vs, avg) >= 0.0
  {
    if |vs| > 0 {
      SquaredDeviationsNonNegative(vs[1..], avg);
      var d := vs[0] - avg;
      assert d * d >= 0.0;
    }
  }

  /** `calculate_realized_volatility`, collecting the returns in a loop. */
  method CalculateRealizedVolatility(closes: seq<real>, period: nat, sqrt: real -> real) returns (r: Result<real>)
    ensures r == RealizedVol(closes, period, sqrt)
  {
    if |closes| < period + 1 {
      return Ok(0.0);
    }
    var upper := if |closes| < period + 1 then |closes| else period + 1;
    var rets: seq<real> := [];
    for i := 1 to upper
      invariant |rets| == i - 1
      invariant NonZeroCloses(closes, i - 1)
      invariant forall j :: 0 <= j < i - 1 ==> rets[j] == (closes[j + 1] - closes[j]) / closes[j]
    {
      if closes[i - 1] == 0.0 {
        assert !NonZeroCloses(closes, period);
        return Err(DivisionByZero);
      }
      rets := rets + [(closes[i] - closes[i - 1]) / closes[i - 1]];
    }
    assert NonZeroCloses(closes, period);
    if |rets| < 2 {
      assert period < 2;
      return Ok(0.0);
    }
    assert rets == Returns(closes, period);
    var dailyVol := SampleStdev(rets, sqrt);
    r := Ok(Annualised(dailyVol, sqrt));
  }

  // ---------------------------------------------------------------------
  // Volatility history
  // ---------------------------------------------------------------------

  /** The first close the history looks at: at most 252 closes back. */
  function HistoryStart(n: nat): nat {
    if n > 252 then n - 252 else 0
  }

  /** The number of starts in `range(HistoryStart(n), n, 20)` that leave room
      for a segment of `width` closes. */
  function SegmentCount(n: nat, width: nat): nat {
    var room := if width > 0 then width else 1;
    if HistoryStart(n) + room <= n then (n - room - HistoryStart(n)) / 20 + 1 else 0
  }

  /** Segment `k` exists exactly when its start, `k` strides of 20 after the
      history start, is one of the range's values and leaves room for `width`
      closes. */
  lemma SegmentCountExact(n: nat, width: nat, k: nat)
    ensures k < SegmentCount(n, width) <==> HistoryStart(n) + 20 * k < n && HistoryStart(n) + 20 * k + width <= n
  {
  }

  /** Segment `k` of the history: `width` closes from its start. */
  function Segment(closes: seq<real>, width: nat, k: nat): (s: seq<real>)
    requires k < SegmentCount(|closes|, width)
    ensures |s| == width
    ensures forall i :: 0 <= i < width ==> s[i] == closes[HistoryStart(|closes|) + 20 * k + i]
  {
    SegmentCountExact(|closes|, width, k);
    var start := HistoryStart(|closes|) + 20 * k;
    closes[start..start + width]
  }

  /** Every segment's volatility can be computed: no division by zero. */
  predicate SegmentsMeasurable(closes: seq<real>, width: nat, sqrt: real -> real) {
    forall k :: 0 <= k < SegmentCount(|closes|, width) ==> RealizedVol(Segment(closes, width, k), 20, sqrt).Ok?
  }

  /** `vol_history`: the 20-period realized volatility of every segment, in
      order. */
  function VolHistory(closes: seq<real>, width: nat, sqrt: real -> real): (r: Result<seq<real>>)
    ensures r.Err? <==> exists k :: 0 <= k < SegmentCount(|closes|, width) && RealizedVol(Segment(closes, width, k), 20, sqrt).Err?
    ensures r.Err? ==> r.error == DivisionByZero
    ensures r.Ok? ==> |r.value| == SegmentCount(|closes|, width)
    ensures r.Ok? ==> forall k :: 0 <= k < |r.value| ==> RealizedVol(Segment(closes, width, k), 20, sqrt) == Ok(r.value[k])
  {
    if SegmentsMeasurable(closes, width, sqrt) then
      Ok(seq(SegmentCount(|closes|, width), k requires 0 <= k < SegmentCount(|closes|, width) =>
               RealizedVol(Segment(closes, width, k), 20, sqrt).value))
    else Err(DivisionByZero)
  }

  /** The `vol_history` loop: a segment of `width` closes at every twentieth
      close from the history start, while one fits. */
  method CollectVolHistory(closes: seq<real>, width: nat, sqrt: real -> real) returns (r: Result<seq<real>>)
    ensures r == VolHistory(closes, width, sqrt)
  {
    var n := |closes|;
    var count := SegmentCount(n, width);
    var history: seq<real> := [];
    var i := HistoryStart(n);
    ghost var j: nat := 0;
    while i < n
      invariant i == HistoryStart(n) + 20 * j
      invariant |history| == if j < count then j else count
      invariant forall k :: 0 <= k < |history| ==> RealizedVol(Segment(closes, width, k), 20, sqrt) == Ok(history[k])
      decreases n - i
    {
      SegmentCountExact(n, width, j);
      if i + width <= n {
        var segment := closes[i..i + width];
        assert segment == Segment(closes, width, j);
        var vol := CalculateRealizedVolatility(segment, 20, sqrt);
        if vol.Err? {
          assert !SegmentsMeasurable(closes, width, sqrt);
          return Err(DivisionByZero);
        }
        assert |history| == j;
        assert RealizedVol(Segment(closes, width, j), 20, sqrt) == Ok(vol.value);
        history := history + [vol.value];
      }
      i := i + 20;
      j := j + 1;
    }
    SegmentCountExact(n, width, j);
    VolHistoryIs(closes, width, sqrt, history);
    r := Ok(history);
  }

  /** The history is the list of segment volatilities, when each is defined. */
  lemma VolHistoryIs(closes: seq<real>, width: nat, sqrt: real -> real, h: seq<real>)
    requires |h| == SegmentCount(|closes|, width)
    requires forall k :: 0 <= k < |h| ==> RealizedVol(Segment(closes, width, k), 20, sqrt) == Ok(h[k])
    ensures VolHistory(closes, width, sqrt) == Ok(h)
  {
    assert SegmentsMeasurable(closes, width, sqrt);
    var v := VolHistory(closes, width, sqrt).value;
    assert |v| == |h|;
    forall k | 0 <= k < |h| ensures v[k] == h[k] {
    }
    assert v == h;
  }

  /** With segments of 20 closes, as `generate_proxy_signal` cuts them, each
      segment is one close short of what a 20-period volatility needs, so
      every entry of the history is 0.0. */
  lemma AsWrittenHistoryIsFlat(closes: seq<real>, sqrt: real -> real)
    ensures VolHistory(closes, 20, sqrt).Ok?
    ensures forall k :: 0 <= k < |VolHistory(closes, 20, sqrt).value| ==> VolHistory(closes, 20, sqrt).value[k] == 0.0
  {
    assert SegmentsMeasurable(closes, 20, sqrt);
  }

  /** Consequently the as-written proxy IV rank is 50 for every price history
      and every current IV. */
  lemma AsWrittenRankIsNeutral(closes: seq<real>, sqrt: real -> real, current: real)
    ensures VolHistory(closes, 20, sqrt).Ok?
    ensures IvRank(current, VolHistory(closes, 20, sqrt).value) == 50.0
  {
    AsWrittenHistoryIsFlat(closes, sqrt);
    var h := VolHistory(closes, 20, sqrt).value;
    if |h| >= 2 {
      assert h[0] == 0.0;
      assert SeqMin(h) == 0.0 && SeqMax(h) == 0.0;
    }
  }

  /** The segment width of the model: 21 closes, the 20 returns a 20-period
      volatility needs. */
  const SegmentWidth: nat := 21

  /** With 21-close segments every entry of the history is the annualised
      sample deviation of the segment's 20 returns, and consecutive segments
      share their boundary close, so their returns tile the history. */
  lemma CorrectedHistoryMeasures(closes: seq<real>, sqrt: real -> real, k: nat)
    requires k < SegmentCount(|closes|, SegmentWidth)
    ensures var s := Segment(closes, SegmentWidth, k);
            NonZeroCloses(s, 20) ==> RealizedVol(s, 20, sqrt) == Ok(Annualised(SampleStdev(Returns(s, 20), sqrt), sqrt))
    ensures k + 1 < SegmentCount(|closes|, SegmentWidth) ==>
              Segment(closes, SegmentWidth, k)[20] == Segment(closes, SegmentWidth, k + 1)[0]
  {
    var s := Segment(closes, SegmentWidth, k);
    assert |s| == 21;
  }

  /** A list with an entry away from `avg` has a positive squared deviation. */
  lemma {:induction false} SquaredDeviationsPositive(vs: seq<real>, avg: real, i: nat)
    requires i < |vs| && vs[i] != avg
    ensures SquaredDeviations(vs, avg) > 0.0
  {
    var d := vs[0] - avg;
    if i == 0 {
      SquaredDeviationsNonNegative(vs[1..], avg);
    } else {
      SquaredDeviationsPositive(vs[1..], avg, i - 1);
    }
    SquarePlus(d, d * d, SquaredDeviations(vs[1..], avg), SquaredDeviations(vs, avg));
  }

  /** A square plus a non-negative rest is positive when the square's root
      is not zero. The products are named by parameters so that the solver
      reasons about them linearly. */
  lemma SquarePlus(x: real, sq: real, rest: real, total: real)
    requires sq == x * x && rest >= 0.0 && total == sq + rest
    ensures x != 0.0 ==> total > 0.0
  {
    if x > 0.0 {
      PositiveProduct(x, x, sq);
    } else if x < 0.0 {
      PositiveProduct(-x, -x, sq);
    }
  }

  lemma PositiveProduct(a: real, b: real, p: real)
    requires a > 0.0 && b > 0.0 && p == a * b
    ensures p > 0.0
  {
  }

  /** A list of zeros deviates from 0 by nothing. */
  lemma {:induction false} SquaredDeviationsOfZeros(vs: seq<real>)
    requires forall i :: 0 <= i < |vs| ==> vs[i] == 0.0
    ensures SquaredDeviations(vs, 0.0) == 0.0
  {
    if |vs| > 0 {
      SquaredDeviationsOfZeros(vs[1..]);
    }
  }

  /** 21 flat closes, then 20 alternating between 2 and 1. */
  function WitnessCloses(): (c: seq<real>)
    ensures |c| == 41
  {
    seq(41, i => if i <= 20 then 1.0 else if i % 2 == 1 then 2.0 else 1.0)
  }

  /** Candles whose every price is the witness close. */
  function WitnessCandles(): (cs: seq<Candle>)
    ensures Closes(cs) == WitnessCloses()
  {
    var c := WitnessCloses();
    var cs := seq(41, i requires 0 <= i < 41 => Candle(c[i], c[i], c[i], c[i], 1.0));
    assert Closes(cs) == c;
    cs
  }

  /** The flat first segment has no volatility. */
  lemma FlatSegmentVol(sqrt: real -> real)
    requires sqrt(0.0) == 0.0
    ensures RealizedVol(WitnessCloses()[..21], 20, sqrt) == Ok(0.0)
  {
    var s := WitnessCloses()[..21];
    assert forall i :: 0 <= i < 21 ==> s[i] == 1.0;
    FlatVol(s, sqrt);
  }

  /** 21 closes of 1.0 have no volatility. */
  lemma FlatVol(s: seq<real>, sqrt: real -> real)
    requires |s| == 21 && forall i :: 0 <= i < 21 ==> s[i] == 1.0
    requires sqrt(0.0) == 0.0
    ensures RealizedVol(s, 20, sqrt) == Ok(0.0)
  {
    assert NonZeroCloses(s, 20);
    var rets := Returns(s, 20);
    assert forall i :: 0 <= i < 20 ==> rets[i] == 0.0;
    SumBounds(rets, 0.0, 0.0);
    assert Mean(rets) == 0.0;
    SquaredDeviationsOfZeros(rets);
    assert SampleStdev(rets, sqrt) == sqrt(0.0);
  }

  /** The alternating second segment has a positive volatility. */
  lemma MovingSegmentVol(sqrt: real -> real)
    requires forall x :: x > 0.0 ==> sqrt(x) > 0.0
    ensures var v := RealizedVol(Segment(WitnessCloses(), SegmentWidth, 1), 20, sqrt);
            v.Ok? && v.value > 0.0
  {
    var s := Segment(WitnessCloses(), SegmentWidth, 1);
    assert s[0] == 1.0 && s[1] == 2.0 && s[2] == 1.0;
    assert NonZeroCloses(s, 20);
    var rets := Returns(s, 20);
    assert rets[0] == 1.0 && rets[1] == -0.5;
    var m := Mean(rets);
    if m != 1.0 {
      SquaredDeviationsPositive(rets, m, 0);
    } else {
      SquaredDeviationsPositive(rets, m, 1);
    }
    var q := SquaredDeviations(rets, m) / 19.0;
    assert q > 0.0;
    var daily := SampleStdev(rets, sqrt);
    assert daily == sqrt(q) && daily > 0.0;
    assert sqrt(252.0) > 0.0;
    assert Annualised(daily, sqrt) > 0.0;
  }

  /** With 21-close segments the proxy IV rank does move: on the witness
      candles, and for every positive square root, the proxy IV sits at the
      bottom of its history and ranks 0 rather than 50. */
  lemma CorrectedRankCanMove(symbol: string, config: Config, sqrt: real -> real)
    requires sqrt(0.0) == 0.0 && forall x :: x > 0.0 ==> sqrt(x) > 0.0
    ensures var r := ProxySignalWith(symbol, WitnessCandles(), config, sqrt, SegmentWidth);
            r.Ok? && r.value.Proxy? && r.value.ctx.ivRank == 0.0
  {
    var closes := WitnessCloses();
    var first := closes[..21];
    assert first[..21] == first;
    RealizedVolUsesFirstCloses(closes, first, 20, sqrt);
    FlatSegmentVol(sqrt);
    MovingSegmentVol(sqrt);
    assert Segment(closes, SegmentWidth, 0) == first;
    var v1 := RealizedVol(Segment(closes, SegmentWidth, 1), 20, sqrt).value;
    var h := [0.0, v1];
    VolHistoryIs(closes, SegmentWidth, sqrt, h);
    assert SeqMin(h) == 0.0 && SeqMax(h) == v1;
    assert IvRank(0.0 * config.proxyVolBias.GetOr(1.10), h) == 0.0;
  }

  // ---------------------------------------------------------------------
  // Proxy signal
  // ---------------------------------------------------------------------

  datatype VolRegime = High | Low | Normal

  /** `vol_regime`: high takes precedence over low. */
  function RegimeOf(highIv: bool, lowIv: bool): VolRegime {
    if highIv then High else if lowIv then Low else Normal
  }

  datatype ProxyContext = ProxyContext(proxyIv: real, realizedVol: real, ivRank: real, highIv: bool, lowIv: bool,
                                       volRegime: VolRegime, mispricingProxy: real)

  /** The record `generate_proxy_signal` returns: the error record for too few
      candles, or the proxy context with its score. */
  datatype ProxySignal = InsufficientCandles(symbol: string)
                       | Proxy(symbol: string, ctx: ProxyContext, score: real)

  /** The proxy context for a realized volatility and a volatility history:
      thresholds 70 and 30 are fixed on this path. */
  function ProxyContextOf(realizedVol: real, bias: real, history: seq<real>): (c: ProxyContext)
    ensures c.proxyIv == realizedVol * bias && c.realizedVol == realizedVol
    ensures |history| > 0 ==> c.ivRank == IvRank(c.proxyIv, history)
    ensures |history| < 2 ==> c.ivRank == 50.0
    ensures !(c.highIv && c.lowIv)
    ensures (c.highIv <==> c.ivRank > 70.0) && (c.lowIv <==> c.ivRank < 30.0)
    ensures c.volRegime == High <==> c.highIv
    ensures c.volRegime == Low <==> c.lowIv
    ensures c.volRegime == Normal <==> 30.0 <= c.ivRank <= 70.0
    ensures c.mispricingProxy * 50.0 == c.ivRank - 50.0
    ensures 0.0 <= c.ivRank <= 100.0 ==> -1.0 <= c.mispricingProxy <= 1.0
  {
    var proxyIv := realizedVol * bias;
    var ivRank := if |history| > 0 then IvRank(proxyIv, history) else 50.0;
    var highIv := ivRank > 70.0;
    var lowIv := ivRank < 30.0;
    ProxyContext(proxyIv, realizedVol, ivRank, highIv, lowIv, RegimeOf(highIv, lowIv), (ivRank - 50.0) / 50.0)
  }

  /** `generate_proxy_signal` with segments of `width` closes: the error record
      below 20 candles; otherwise realized volatility of the closes, scaled by
      the bias (1.10 by default), ranked against the history. */
  function ProxySignalWith(symbol: string, candles: seq<Candle>, config: Config, sqrt: real -> real, width: nat)
    : (r: Result<ProxySignal>)
    ensures r == Ok(InsufficientCandles(symbol)) <==> |candles| < 20
    ensures var rv := RealizedVol(Closes(candles), 20, sqrt);
            var vh := VolHistory(Closes(candles), width, sqrt);
            && (r.Err? <==> |candles| >= 20 && (rv.Err? || vh.Err?))
            && (r.Ok? && r.value.Proxy? ==>
                  && rv.Ok? && vh.Ok?
                  && r.value.ctx == ProxyContextOf(rv.value, config.proxyVolBias.GetOr(1.10), vh.value))
  {
    if |candles| < 20 then Ok(InsufficientCandles(symbol))
    else
      var closes := Closes(candles);
      match RealizedVol(closes, 20, sqrt)
      case Err(e) => Err(e)
      case Ok(realizedVol) =>
        match VolHistory(closes, width, sqrt)
        case Err(e) => Err(e)
        case Ok(history) =>
          var ctx := ProxyContextOf(realizedVol, config.proxyVolBias.GetOr(1.10), history);
          Ok(Proxy(symbol, ctx, Abs(ctx.mispricingProxy)))
  }

  /** A proxy signal measures the closes: its realized volatility is the
      20-period realized volatility of the closes, its proxy IV that times the
      bias (1.10 by default), and its rank the proxy IV's rank in the history
      of segment volatilities (50 for an empty history). */
  lemma ProxySignalMeasures(symbol: string, candles: seq<Candle>, config: Config, sqrt: real -> real, width: nat)
    ensures var r := ProxySignalWith(symbol, candles, config, sqrt, width);
            var rv := RealizedVol(Closes(candles), 20, sqrt);
            var vh := VolHistory(Closes(candles), width, sqrt);
            r.Ok? && r.value.Proxy? ==>
              && rv.Ok? && vh.Ok?
              && r.value.ctx.realizedVol == rv.value
              && r.value.ctx.proxyIv == rv.value * config.proxyVolBias.GetOr(1.10)
              && r.value.ctx.ivRank == (if |vh.value| > 0 then IvRank(r.value.ctx.proxyIv, vh.value) else 50.0)
  {
    var r := ProxySignalWith(symbol, candles, config, sqrt, width);
    if r.Ok? && r.value.Proxy? {
      var c := ProxyContextOf(RealizedVol(Closes(candles), 20, sqrt).value, config.proxyVolBias.GetOr(1.10),
                              VolHistory(Closes(candles), width, sqrt).value);
      assert r.value.ctx == c;
    }
  }

  /** A proxy signal never flags high and low IV together, reports the regime
      its flags name, and scores the size of the mispricing proxy, which is
      the rank's distance from 50 in units of 50. */
  lemma ProxySignalConsistent(symbol: string, candles: seq<Candle>, config: Config, sqrt: real -> real, width: nat)
    ensures var r := ProxySignalWith(symbol, candles, config, sqrt, width);
            r.Ok? && r.value.Proxy? ==>
              var c := r.value.ctx;
              && !(c.highIv && c.lowIv)
              && (c.highIv <==> c.ivRank > 70.0) && (c.lowIv <==> c.ivRank < 30.0)
              && (c.volRegime == High <==> c.highIv)
              && (c.volRegime == Low <==> c.lowIv)
              && (c.volRegime == Normal <==> 30.0 <= c.ivRank <= 70.0)
              && c.mispricingProxy * 50.0 == c.ivRank - 50.0
              && r.value.score == Abs(c.mispricingProxy) && r.value.score >= 0.0
              && (0.0 <= c.ivRank <= 100.0 ==> -1.0 <= c.mispricingProxy <= 1.0)
  {
  }

  /** As `generate_proxy_signal` is written (20-close segments) every proxy
      signal it produces is neutral: rank 50, neither flag, normal regime,
      score 0. */
  lemma AsWrittenProxyIsNeutral(symbol: string, candles: seq<Candle>, config: Config, sqrt: real -> real)
    ensures var r := ProxySignalWith(symbol, candles, config, sqrt, 20);
            r.Ok? && r.value.Proxy? ==>
              r.value.ctx.ivRank == 50.0 && r.value.ctx.volRegime == Normal && r.value.score == 0.0
  {
    if |candles| >= 20 {
      var closes := Closes(candles);
      var rv := RealizedVol(closes, 20, sqrt);
      if rv.Ok? {
        AsWrittenRankIsNeutral(closes, sqrt, rv.value * config.proxyVolBias.GetOr(1.10));
      }
    }
  }

  /** `generate_proxy_signal`, building the volatility history in a loop. */
  method GenerateProxySignal(symbol: string, candles: seq<Candle>, config: Config, sqrt: real -> real, width: nat)
    returns (r: Result<ProxySignal>)
    ensures r == ProxySignalWith(symbol, candles, config, sqrt, width)
  {
    if |candles| < 20 {
      return Ok(InsufficientCandles(symbol));
    }
    var closes := Closes(candles);
    var realizedVol := CalculateRealizedVolatility(closes, 20, sqrt);
    if realizedVol.Err? {
      return Err(realizedVol.error);
    }
    var history := CollectVolHistory(closes, width, sqrt);
    if history.Err? {
      return Err(history.error);
    }
    var ctx := ProxyContextOf(realizedVol.value, config.proxyVolBias.GetOr(1.10), history.value);
    r := Ok(Proxy(symbol, ctx, Abs(ctx.mispricingProxy)));
  }

  // ---------------------------------------------------------------------
  // Context from real options data
  // ---------------------------------------------------------------------

  datatype Greeks = Greeks(delta: Option<real>, gamma: Option<real>, vega: Option<real>,
                           theta: Option<real>, rho: Option<real>)

  /** The options record; every key may be missing. */
  datatype OptionsData = OptionsData(impliedVolatility: Option<real>, greeks: Option<Greeks>,
                                     mispricing: Option<real>, ivHistory: Option<seq<real>>)

  const NoGreeks: Greeks := Greeks(None, None, None, None, None)

  datatype BsmContext = BsmContext(iv: real, ivRank: real, highIv: bool, lowIv: bool, volRegime: VolRegime,
                                   delta: real, gamma: real, vega: real, theta: real, rho: real,
                                   mispricing: real, mispricingVegaRatio: real, significantMispricing: bool)

  datatype RealSignal = RealSignal(symbol: string, ctx: BsmContext, score: real)

  function VegaOf(options: OptionsData): real {
    options.greeks.GetOr(NoGreeks).vega.GetOr(0.0)
  }

  /** `generate_bsm_context`: the IV rank against the supplied history, the
      regime flags against the configured thresholds (70 and 30 by
      default), and the mispricing per unit of vega, counted only when vega
      exceeds the minimum (0.02 by default). */
  function GenerateBsmContext(symbol: string, options: OptionsData, config: Config): (r: Result<RealSignal>)
    ensures r.Err? <==> VegaOf(options) == 0.0 && VegaOf(options) > config.minVega.GetOr(0.02)
    ensures r.Ok? ==>
              var h := options.ivHistory.GetOr([]);
              && r.value.ctx.iv == options.impliedVolatility.GetOr(0.0)
              && r.value.ctx.ivRank == (if |h| > 0 then IvRank(options.impliedVolatility.GetOr(0.0), h) else 50.0)
              && (r.value.ctx.highIv <==> r.value.ctx.ivRank > config.highIvThreshold.GetOr(70.0))
              && (r.value.ctx.lowIv <==> r.value.ctx.ivRank < config.lowIvThreshold.GetOr(30.0))
  {
    var iv := options.impliedVolatility.GetOr(0.0);
    var greeks := options.greeks.GetOr(NoGreeks);
    var mispricing := options.mispricing.GetOr(0.0);
    var vega := greeks.vega.GetOr(0.0);
    var history := options.ivHistory.GetOr([]);
    var ivRank := if |history| > 0 then IvRank(iv, history) else 50.0;
    var highIv := ivRank > config.highIvThreshold.GetOr(70.0);
    var lowIv := ivRank < config.lowIvThreshold.GetOr(30.0);
    if vega > config.minVega.GetOr(0.02) && vega == 0.0 then Err(DivisionByZero)
    else
      var ratio := if vega > config.minVega.GetOr(0.02) then Abs(mispricing) / vega else 0.0;
      var significant := ratio > config.mispricingThreshold.GetOr(0.1);
      Ok(RealSignal(symbol, BsmContext(iv, ivRank, highIv, lowIv, RegimeOf(highIv, lowIv),
                                       greeks.delta.GetOr(0.0), greeks.gamma.GetOr(0.0), vega,
                                       greeks.theta.GetOr(0.0), greeks.rho.GetOr(0.0),
                                       mispricing, ratio, significant), ratio))
  }

  /** The vega ratio is 0 unless vega exceeds the minimum, and then it is the
      size of the mispricing per unit of vega; the mispricing is significant
      exactly when the ratio exceeds the threshold; the score is the ratio,
      never negative for a non-negative minimum; with ordered thresholds the
      two regime flags exclude each other. */
  lemma BsmContextProperties(symbol: string, options: OptionsData, config: Config)
    ensures var r := GenerateBsmContext(symbol, options, config);
            var vega := VegaOf(options);
            var h := options.ivHistory.GetOr([]);
            r.Ok? ==>
              var c := r.value.ctx;
              && c.ivRank == (if |h| > 0 then IvRank(options.impliedVolatility.GetOr(0.0), h) else 50.0)
              && (c.highIv <==> c.ivRank > config.highIvThreshold.GetOr(70.0))
              && (c.lowIv <==> c.ivRank < config.lowIvThreshold.GetOr(30.0))
              && (vega <= config.minVega.GetOr(0.02) ==> c.mispricingVegaRatio == 0.0)
              && (vega > config.minVega.GetOr(0.02) ==> c.mispricingVegaRatio * vega == Abs(options.mispricing.GetOr(0.0)))
              && (c.significantMispricing <==> c.mispricingVegaRatio > config.mispricingThreshold.GetOr(0.1))
              && r.value.score == c.mispricingVegaRatio
              && (config.minVega.GetOr(0.02) >= 0.0 ==> r.value.score >= 0.0)
              && (config.lowIvThreshold.GetOr(30.0) <= config.highIvThreshold.GetOr(70.0) ==> !(c.highIv && c.lowIv))
              && (c.volRegime == High <==> c.highIv)
              && (c.volRegime == Low <==> !c.highIv && c.lowIv)
  {
    var r := GenerateBsmContext(symbol, options, config);
    var vega := VegaOf(options);
    if r.Ok? && vega > config.minVega.GetOr(0.02) {
      var m := Abs(options.mispricing.GetOr(0.0));
      assert r.value.ctx.mispricingVegaRatio == m / vega;
      assert (m / vega) * vega == m;
      if config.minVega.GetOr(0.02) >= 0.0 {
        RatioNonNegative(m, vega);
      }
    }
  }

  /** A non-negative minimum vega rules out the division by zero. */
  lemma BsmContextDefined(symbol: string, options: OptionsData, config: Config)
    requires config.minVega.GetOr(0.02) >= 0.0
    ensures GenerateBsmContext(symbol, options, config).Ok?
  {
  }

  // ---------------------------------------------------------------------
  // Dispatch
  // ---------------------------------------------------------------------

  /** One input item; every key may be missing. */
  datatype Input = Input(symbol: Option<string>, mode: Option<string>, candles: Option<seq<Candle>>,
                         optionsData: Option<OptionsData>)

  datatype Output = ProxyOutput(proxy: ProxySignal) | RealOutput(analysis: RealSignal)

  const NoOptions: OptionsData := OptionsData(None, None, None, None)

  /** `process_input` with volatility-history segments of `width` closes:
      the proxy path for mode "proxy" (the default), the real-options path
      for any other mode; the symbol defaults to "UNKNOWN", missing candles
      to none and missing options data to all-absent. Either path's error is
      passed on unchanged. */
  function ProcessInputWith(data: Input, config: Config, sqrt: real -> real, width: nat): (r: Result<Output>)
    ensures var symbol := data.symbol.GetOr("UNKNOWN");
            var proxy := ProxySignalWith(symbol, data.candles.GetOr([]), config, sqrt, width);
            var fromOptions := GenerateBsmContext(symbol, data.optionsData.GetOr(NoOptions), config);
            && (r.Ok? ==> (r.value.ProxyOutput? <==> data.mode.GetOr("proxy") == "proxy"))
            && (data.mode.GetOr("proxy") == "proxy" ==>
                  (r.Err? <==> proxy.Err?) && (r.Err? ==> r.error == proxy.error)
                  && (r.Ok? ==> proxy == Ok(r.value.proxy)))
            && (data.mode.GetOr("proxy") != "proxy" ==>
                  (r.Err? <==> fromOptions.Err?) && (r.Err? ==> r.error == fromOptions.error)
                  && (r.Ok? ==> fromOptions == Ok(r.value.analysis)))
  {
    var symbol := data.symbol.GetOr("UNKNOWN");
    if data.mode.GetOr("proxy") == "proxy" then
      match ProxySignalWith(symbol, data.candles.GetOr([]), config, sqrt, width)
      case Err(e) => Err(e)
      case Ok(p) => Ok(ProxyOutput(p))
    else
      match GenerateBsmContext(symbol, data.optionsData.GetOr(NoOptions), config)
      case Err(e) => Err(e)
      case Ok(s) => Ok(RealOutput(s))
  }

  /** `process_input` as written: the proxy path cuts the history into
      20-close segments. */
  function ProcessInput(data: Input, config: Config, sqrt: real -> real): (r: Result<Output>)
    ensures r == ProcessInputWith(data, config, sqrt, 20)
    ensures r.Ok? && r.value.ProxyOutput? && r.value.proxy.Proxy? ==>
              r.value.proxy.ctx.ivRank == 50.0 && r.value.proxy.score == 0.0
  {
    AsWrittenProxyIsNeutral(data.symbol.GetOr("UNKNOWN"), data.candles.GetOr([]), config, sqrt);
    ProcessInputWith(data, config, sqrt, 20)
  }

  /** `process_input` with the corrected 21-close segments. */
  function ProcessInputCorrected(data: Input, config: Config, sqrt: real -> real): (r: Result<Output>)
    ensures r == ProcessInputWith(data, config, sqrt, SegmentWidth)
  {
    ProcessInputWith(data, config, sqrt, SegmentWidth)
  }

  /** An item without mode or candles is a proxy item short of candles,
      whatever the segment width. */
  lemma BareInputIsShortProxy(symbol: Option<string>, config: Config, sqrt: real -> real, width: nat)
    ensures ProcessInputWith(Input(symbol, None, None, None), config, sqrt, width)
            == Ok(ProxyOutput(InsufficientCandles(symbol.GetOr("UNKNOWN"))))
  {
  }

  /** The default configuration behaves exactly like a configuration with
      every key missing: its values are the fallbacks at each use. */
  lemma DefaultConfigIsFallbacks(data: Input, sqrt: real -> real, width: nat)
    ensures ProcessInputWith(data, DefaultConfig, sqrt, width) == ProcessInputWith(data, EmptyConfig, sqrt, width)
  {
  }
}
