/** The position sizer: a risk budget turned into a position, capped at the
    deployable share of capital, rounded to the instrument's lot increment,
    raised to the instrument minimum, then checked against the reserve rule.
    Every value is exact; the two-decimal rounding of the reported numbers is
    not modelled. */
module PositionSizer {
  import opened Common

  // ---------------------------------------------------------------------
  // Instrument constraints and lot rounding
  // ---------------------------------------------------------------------

  datatype Constraints = Constraints(minSize: real, increment: real)

  /** `get_instrument_constraints`: the table entry, `(0.01, 0.01)` otherwise. */
  function InstrumentConstraints(instrumentType: string): (c: Constraints)
    ensures instrumentType == "forex" ==> c == Constraints(0.01, 0.01)
    ensures instrumentType == "crypto" ==> c == Constraints(0.001, 0.001)
    ensures instrumentType == "stocks" ==> c == Constraints(1.0, 1.0)
    ensures instrumentType == "indices" ==> c == Constraints(0.1, 0.1)
    ensures instrumentType == "metals" ==> c == Constraints(0.01, 0.01)
    ensures instrumentType !in ["forex", "crypto", "stocks", "indices", "metals"] ==> c == Constraints(0.01, 0.01)
    ensures c.minSize > 0.0 && c.increment > 0.0
  {
    if instrumentType == "crypto" then Constraints(0.001, 0.001)
    else if instrumentType == "stocks" then Constraints(1.0, 1.0)
    else if instrumentType == "indices" then Constraints(0.1, 0.1)
    else Constraints(0.01, 0.01)
  }

  predicate IsEven(k: int) {
    k % 2 == 0
  }

  /** Python's `round(x)` on a number: the nearest integer, ties to the even one. */
  function RoundHalfEven(x: real): (k: int)
    ensures -0.5 <= (k as real) - x <= 0.5
    ensures (k as real) - x == 0.5 || (k as real) - x == -0.5 ==> IsEven(k)
  {
    var f := x.Floor;
    var frac := x - f as real;
    if frac < 0.5 then f
    else if frac > 0.5 then f + 1
    else if IsEven(f) then f
    else f + 1
  }

  /** `round_to_increment`: unchanged for a non-positive increment, otherwise
      the nearest whole multiple of the increment. */
  function RoundToIncrement(value: real, increment: real): (r: real)
    ensures increment <= 0.0 ==> r == value
  {
    if increment <= 0.0 then value
    else (RoundHalfEven(value / increment) as real) * increment
  }

  /** A positive increment gives a whole multiple of it, at most half an
      increment away from the value. */
  lemma RoundToIncrementMultiple(value: real, increment: real)
    requires increment > 0.0
    ensures var q := RoundToIncrement(value, increment) / increment; q == q.Floor as real
    ensures -increment / 2.0 <= RoundToIncrement(value, increment) - value <= increment / 2.0
  {
    var q := value / increment;
    var k := RoundHalfEven(q);
    var r := RoundToIncrement(value, increment);
    assert r == (k as real) * increment;
    assert r / increment == k as real;
    assert q * increment == value;
    var d := (k as real) - q;
    ScaleBounds(d, increment);
    assert d * increment == (k as real) * increment - q * increment;
    assert d * increment == r - value;
  }

  lemma ScaleBounds(d: real, t: real)
    requires t > 0.0 && -0.5 <= d <= 0.5
    ensures -t / 2.0 <= d * t <= t / 2.0
  {
  }

  /** An exact multiple is left alone. */
  lemma RoundToIncrementExact(k: int, increment: real)
    requires increment > 0.0
    ensures RoundToIncrement((k as real) * increment, increment) == (k as real) * increment
  {
    assert ((k as real) * increment) / increment == k as real;
  }

  // ---------------------------------------------------------------------
  // Warnings
  // ---------------------------------------------------------------------

  datatype Warning = ReserveTooLow | RiskTooHigh | BelowMinimumSize

  /** The position of each warning in the order `get_warnings` appends them. */
  function Rank(w: Warning): nat {
    match w
    case ReserveTooLow => 0
    case RiskTooHigh => 1
    case BelowMinimumSize => 2
  }

  /** `get_warnings`: the three conditional appends, in order. The message of
      the risk warning divides by the capital, so a zero capital with a
      positive risk raises. */
  function GetWarnings(reservePct: real, riskUsd: real, capital: real, positionUnits: real, minUnits: real)
    : (r: Result<seq<Warning>>)
    ensures r.Err? <==> riskUsd > capital * 0.05 && capital == 0.0
    ensures r.Ok? ==> (ReserveTooLow in r.value <==> reservePct < 0.60)
    ensures r.Ok? ==> (RiskTooHigh in r.value <==> riskUsd > capital * 0.05)
    ensures r.Ok? ==> (BelowMinimumSize in r.value <==> positionUnits < minUnits)
    ensures r.Ok? ==> |r.value| <= 3
    ensures r.Ok? ==> forall i, j :: 0 <= i < j < |r.value| ==> Rank(r.value[i]) < Rank(r.value[j])
  {
    var w1 := if reservePct < 0.60 then [ReserveTooLow] else [];
    if riskUsd > capital * 0.05 && capital == 0.0 then Err(DivisionByZero)
    else
      var w2 := if riskUsd > capital * 0.05 then w1 + [RiskTooHigh] else w1;
      var w3 := if positionUnits < minUnits then w2 + [BelowMinimumSize] else w2;
      Ok(w3)
  }

  // ---------------------------------------------------------------------
  // The sizing computation
  // ---------------------------------------------------------------------

  datatype Inputs = Inputs(
    availableCapital: real,
    currentPrice: real,
    stopLossPct: real,
    maxRiskPct: real,
    minReservePct: real,
    instrumentType: string,
    sizeMultiplier: real)

  /** The defaults of the keyword arguments. */
  function WithDefaults(capital: real, price: real, stopLossPct: real): (i: Inputs)
    ensures i.maxRiskPct == 0.02 && i.minReservePct == 0.60
    ensures i.instrumentType == "forex" && i.sizeMultiplier == 1.0
  {
    Inputs(capital, price, stopLossPct, 0.02, 0.60, "forex", 1.0)
  }

  /** The result record, every amount before the output rounding and every
      percentage as a percentage. */
  datatype Sizing = Sizing(
    positionSizeUsd: real,
    positionSizeUnits: real,
    riskAmountUsd: real,
    riskPctOfCapital: real,
    stopLossPct: real,
    takeProfitPct: real,
    takeProfitUsd: real,
    reserveAfterEntry: real,
    reservePctAfterEntry: real,
    maxDeployable: real,
    meetsReserveRequirement: bool,
    warnings: seq<Warning>)

  function MaxDeployable(i: Inputs): real {
    i.availableCapital * (1.0 - i.minReservePct)
  }

  function RiskAmount(i: Inputs): real {
    i.availableCapital * i.maxRiskPct * i.sizeMultiplier
  }

  /** A missing or non-positive stop distance becomes 2%. */
  function EffectiveStop(stopLossPct: real): (s: real)
    ensures s > 0.0
    ensures stopLossPct > 0.0 ==> s == stopLossPct
    ensures stopLossPct <= 0.0 ==> s == 0.02
  {
    if stopLossPct <= 0.0 then 0.02 else stopLossPct
  }

  /** `(position_size_usd, position_size_units)` before lot rounding. */
  function CappedPosition(i: Inputs): (p: (real, real))
    requires i.currentPrice != 0.0
  {
    Capped(RiskAmount(i), i.currentPrice, EffectiveStop(i.stopLossPct), MaxDeployable(i))
  }

  /** Units then dollars from the risk budget and the stop distance, with the
      cap at the deployable amount; the price must be non-zero. */
  function Capped(risk: real, price: real, stop: real, cap: real): (p: (real, real))
    requires price != 0.0 && stop != 0.0
  {
    var units := risk / (price * stop);
    var usd := units * price;
    if usd > cap then (cap, cap / price) else (usd, units)
  }

  lemma CappedIsMin(risk: real, price: real, stop: real, cap: real)
    requires price != 0.0 && stop != 0.0
    ensures Capped(risk, price, stop, cap).0 == MinReal(risk / stop, cap)
    ensures Capped(risk, price, stop, cap).1 * price == Capped(risk, price, stop, cap).0
  {
    CancelPrice(risk, price, stop);
    if (risk / (price * stop)) * price > cap {
      assert (cap / price) * price == cap;
    }
  }

  /** The dollar size before rounding is the risk budget over the stop, capped
      at the deployable amount, and the units are that over the price. */
  lemma CappedPositionIsMin(i: Inputs)
    requires i.currentPrice != 0.0
    ensures CappedPosition(i).0 == MinReal(RiskAmount(i) / EffectiveStop(i.stopLossPct), MaxDeployable(i))
    ensures CappedPosition(i).0 <= MaxDeployable(i)
    ensures CappedPosition(i).1 * i.currentPrice == CappedPosition(i).0
  {
    CappedIsMin(RiskAmount(i), i.currentPrice, EffectiveStop(i.stopLossPct), MaxDeployable(i));
  }

  lemma CancelPrice(risk: real, p: real, s: real)
    requires p != 0.0 && s != 0.0
    ensures (risk / (p * s)) * p == risk / s
  {
  }

  /** With capital 1000, the default 2% risk and 60% reserve and a 2% stop,
      the budget alone would deploy 1000, and the cap brings it to 400. */
  lemma CappedPositionExample(price: real)
    requires price > 0.0
    ensures RiskAmount(WithDefaults(1000.0, price, 0.02)) / 0.02 == 1000.0
    ensures CappedPosition(WithDefaults(1000.0, price, 0.02)).0 == 400.0
  {
    CappedPositionIsMin(WithDefaults(1000.0, price, 0.02));
  }

  /** The units after lot rounding and the minimum-size bump. */
  function FinalUnits(i: Inputs): (u: real)
    requires i.currentPrice != 0.0
    ensures u >= InstrumentConstraints(i.instrumentType).minSize
  {
    var c := InstrumentConstraints(i.instrumentType);
    var rounded := RoundToIncrement(CappedPosition(i).1, c.increment);
    if rounded < c.minSize then c.minSize else rounded
  }

  /** The rounded units are kept when they reach the minimum, and the minimum
      replaces them otherwise: an undersized position is raised, not skipped. */
  lemma FinalUnitsBump(i: Inputs)
    requires i.currentPrice != 0.0
    ensures var c := InstrumentConstraints(i.instrumentType);
            var rounded := RoundToIncrement(CappedPosition(i).1, c.increment);
            FinalUnits(i) == MaxReal(rounded, c.minSize)
  {
  }

  /** The reserve fraction after entry, 0 without positive capital. */
  function ReserveFraction(capital: real, finalUsd: real): (f: real)
    ensures capital <= 0.0 ==> f == 0.0
    ensures capital > 0.0 ==> f * capital == capital - finalUsd
  {
    if capital > 0.0 then (capital - finalUsd) / capital else 0.0
  }

  /** The reported record for `units` of the instrument and the warnings. */
  function SizingOf(i: Inputs, units: real, warnings: seq<Warning>): Sizing
  {
    var stop := EffectiveStop(i.stopLossPct);
    var finalUsd := units * i.currentPrice;
    var finalRisk := finalUsd * stop;
    var takeProfitPct := stop * 2.0;
    var reservePct := ReserveFraction(i.availableCapital, finalUsd);
    Sizing(
      finalUsd,
      units,
      finalRisk,
      if i.availableCapital > 0.0 then (finalRisk / i.availableCapital) * 100.0 else 0.0,
      stop * 100.0,
      takeProfitPct * 100.0,
      finalUsd * takeProfitPct,
      i.availableCapital - finalUsd,
      reservePct * 100.0,
      MaxDeployable(i),
      reservePct >= i.minReservePct,
      warnings)
  }

  /** The warnings for `units` of the instrument. */
  function SizingWarningsOf(i: Inputs, units: real): Result<seq<Warning>>
  {
    var finalUsd := units * i.currentPrice;
    GetWarnings(ReserveFraction(i.availableCapital, finalUsd), finalUsd * EffectiveStop(i.stopLossPct),
                i.availableCapital, units, InstrumentConstraints(i.instrumentType).minSize)
  }

  /** `calculate_position_size`. A zero price raises when the stop distance
      is divided into the budget; a zero capital raises in the risk warning. */
  function CalculatePositionSize(i: Inputs): (r: Result<Sizing>)
    ensures i.currentPrice == 0.0 ==> r == Err(DivisionByZero)
    ensures r.Err? ==> r.error == DivisionByZero
    ensures r.Ok? ==> SizingWarningsOf(i, FinalUnits(i)).Ok?
                      && r.value.positionSizeUnits == FinalUnits(i)
                      && r.value.warnings == SizingWarningsOf(i, FinalUnits(i)).value
  {
    if i.currentPrice == 0.0 then Err(DivisionByZero)
    else
      var units := FinalUnits(i);
      var w := SizingWarningsOf(i, units);
      if w.Err? then Err(w.error) else Ok(SizingOf(i, units, w.value))
  }

  /** A successful sizing is the record for the final units. */
  lemma SizingIsRecord(i: Inputs)
    requires CalculatePositionSize(i).Ok?
    ensures i.currentPrice != 0.0
    ensures SizingWarningsOf(i, FinalUnits(i)).Ok?
    ensures CalculatePositionSize(i).value == SizingOf(i, FinalUnits(i), SizingWarningsOf(i, FinalUnits(i)).value)
  {
  }

  lemma PositiveProduct(a: real, b: real)
    requires a > 0.0 && b > 0.0
    ensures a * b > 0.0
  {
  }

  lemma NegativeProduct(a: real, b: real)
    requires a > 0.0 && b < 0.0
    ensures a * b < 0.0
  {
  }

  /** The sizer fails on exactly two inputs: a zero price, and a zero capital
      with a positive price (the final risk is then positive and the risk
      warning divides by the capital). */
  lemma SizingErrors(i: Inputs)
    ensures CalculatePositionSize(i).Err? <==>
              i.currentPrice == 0.0 || (i.availableCapital == 0.0 && i.currentPrice > 0.0)
  {
    if i.currentPrice != 0.0 {
      var stop := EffectiveStop(i.stopLossPct);
      var units := FinalUnits(i);
      var finalUsd := units * i.currentPrice;
      if i.currentPrice > 0.0 {
        PositiveProduct(units, i.currentPrice);
        PositiveProduct(finalUsd, stop);
      } else {
        NegativeProduct(units, i.currentPrice);
        assert finalUsd < 0.0;
        assert finalUsd * stop == stop * finalUsd;
        NegativeProduct(stop, finalUsd);
      }
    }
  }

  /** The amounts reported for `units`, in terms of the inputs. */
  lemma SizingOfAmounts(i: Inputs, units: real, w: seq<Warning>)
    ensures var s := SizingOf(i, units, w);
            var stop := EffectiveStop(i.stopLossPct);
            && s.positionSizeUnits == units
            && s.positionSizeUsd == units * i.currentPrice
            && s.riskAmountUsd == s.positionSizeUsd * stop
            && s.stopLossPct == stop * 100.0
            && s.takeProfitPct == 2.0 * s.stopLossPct
            && s.takeProfitUsd == s.positionSizeUsd * (2.0 * stop)
            && s.maxDeployable == i.availableCapital * (1.0 - i.minReservePct)
            && s.warnings == w
  {
  }

  /** The reserve reported for `units`: what is left of the capital, its share
      as a percentage (zero without positive capital) and the reserve test
      against the required share. */
  lemma SizingOfReserve(i: Inputs, units: real, w: seq<Warning>)
    ensures var s := SizingOf(i, units, w);
            && s.reserveAfterEntry == i.availableCapital - s.positionSizeUsd
            && (i.availableCapital > 0.0 ==>
                  s.reservePctAfterEntry * i.availableCapital == (i.availableCapital - s.positionSizeUsd) * 100.0)
            && (i.availableCapital > 0.0 ==> s.riskPctOfCapital * i.availableCapital == s.riskAmountUsd * 100.0)
            && (i.availableCapital <= 0.0 ==> s.reservePctAfterEntry == 0.0 && s.riskPctOfCapital == 0.0)
            && (s.meetsReserveRequirement <==> s.reservePctAfterEntry >= i.minReservePct * 100.0)
  {
    var s := SizingOf(i, units, w);
    var f := ReserveFraction(i.availableCapital, units * i.currentPrice);
    assert s.reservePctAfterEntry == f * 100.0;
    if i.availableCapital > 0.0 {
      assert f * i.availableCapital == i.availableCapital - s.positionSizeUsd;
      assert (f * 100.0) * i.availableCapital == (f * i.availableCapital) * 100.0;
      var q := s.riskAmountUsd / i.availableCapital;
      assert s.riskPctOfCapital == q * 100.0;
      assert q * i.availableCapital == s.riskAmountUsd;
      assert (q * 100.0) * i.availableCapital == (q * i.availableCapital) * 100.0;
    }
  }

  /** A successful sizing holds at least the instrument minimum. */
  lemma SizingAtLeastMinimum(i: Inputs)
    requires CalculatePositionSize(i).Ok?
    ensures CalculatePositionSize(i).value.positionSizeUnits >= InstrumentConstraints(i.instrumentType).minSize
  {
    SizingIsRecord(i);
  }

  /** The warnings of a successful sizing: the reserve one against the fixed
      60% whatever the required reserve, the risk one above 5% of capital,
      and never the size one, because the units were raised to the minimum. */
  lemma SizingWarnings(i: Inputs)
    requires CalculatePositionSize(i).Ok?
    ensures var s := CalculatePositionSize(i).value;
            && (ReserveTooLow in s.warnings <==> s.reservePctAfterEntry < 60.0)
            && (RiskTooHigh in s.warnings <==> s.riskAmountUsd > i.availableCapital * 0.05)
            && BelowMinimumSize !in s.warnings
  {
    SizingIsRecord(i);
  }
}
