/** The LinUCB contextual bandit that chooses a strategy variant: the fixed
    action table, context fitting, the market-regime classifier, the regime
    filter with its always-present SKIP action, first-maximum selection over
    UCB scores, and the per-action state (A, b) that `Update` changes in place. */
module Bandit {
  import opened Common

  datatype Strategy =
    | OrbVwap | SmaRsiAtr | DonchianBreakout | BollingerSqueeze
    | MacdCrossover | StochOversold | VolumeBreakout | Skip

  datatype StopStyle = BaseStop | TightStop | WideStop | NoStop

  /** Regimes the classifier returns, plus `NoRegime`, the tag of SKIP. */
  datatype Regime = Trending | Ranging | Breakout | Compression | Momentum | Unknown | NoRegime

  datatype Action = Action(id: nat, strategy: Strategy, sizeMult: real, stopStyle: StopStyle, regime: Regime)

  const NumActions: nat := 14
  const SkipId: nat := 13

  /** The fixed action table, in list order. */
  const Actions: seq<Action> := [
    Action(0, OrbVwap, 1.0, BaseStop, Trending),
    Action(1, OrbVwap, 0.5, TightStop, Trending),
    Action(2, OrbVwap, 1.5, WideStop, Trending),
    Action(3, SmaRsiAtr, 1.0, BaseStop, Ranging),
    Action(4, SmaRsiAtr, 0.5, TightStop, Ranging),
    Action(5, SmaRsiAtr, 1.5, WideStop, Ranging),
    Action(6, DonchianBreakout, 1.0, BaseStop, Breakout),
    Action(7, DonchianBreakout, 0.5, TightStop, Breakout),
    Action(8, DonchianBreakout, 1.5, WideStop, Breakout),
    Action(9, BollingerSqueeze, 1.0, BaseStop, Compression),
    Action(10, MacdCrossover, 1.0, BaseStop, Momentum),
    Action(11, StochOversold, 1.0, BaseStop, Ranging),
    Action(12, VolumeBreakout, 1.0, BaseStop, Breakout),
    Action(13, Skip, 0.0, NoStop, NoRegime)
  ]

  predicate IsActionId(aid: int) {
    0 <= aid < NumActions
  }

  /** Every action's id is its position in the table, and the last one is SKIP,
      the only action without a regime. */
  lemma ActionTable()
    ensures |Actions| == NumActions
    ensures forall i :: 0 <= i < |Actions| ==> Actions[i].id == i
    ensures Actions[SkipId].strategy == Skip && Actions[SkipId].sizeMult == 0.0
    ensures forall i :: 0 <= i < |Actions| ==> (Actions[i].regime == NoRegime <==> i == SkipId)
    ensures forall i :: 0 <= i < |Actions| ==> Actions[i].regime != Unknown
  {
  }

  // ---------------------------------------------------------------------
  // Vectors and matrices
  // ---------------------------------------------------------------------

  type Vector = seq<real>
  type Matrix = seq<seq<real>>

  ghost predicate IsSquare(m: Matrix, n: nat) {
    |m| == n && forall i :: 0 <= i < n ==> |m[i]| == n
  }

  ghost predicate Symmetric(m: Matrix, n: nat) {
    IsSquare(m, n) && forall i, j :: 0 <= i < n && 0 <= j < n ==> m[i][j] == m[j][i]
  }

  function Zeros(n: nat): (v: Vector)
    ensures |v| == n && forall i :: 0 <= i < n ==> v[i] == 0.0
  {
    seq(n, _ => 0.0)
  }

  /** Row `i` of the n-by-n identity. */
  function Unit(n: nat, i: nat): (v: Vector)
    ensures |v| == n && forall j :: 0 <= j < n ==> v[j] == if j == i then 1.0 else 0.0
  {
    seq(n, j => if j == i then 1.0 else 0.0)
  }

  function Identity(n: nat): (m: Matrix)
    ensures IsSquare(m, n) && forall i :: 0 <= i < n ==> m[i] == Unit(n, i)
  {
    seq(n, i requires 0 <= i < n => Unit(n, i))
  }

  function VecAdd(a: Vector, c: Vector): (v: Vector)
    requires |a| == |c|
    ensures |v| == |a| && forall i :: 0 <= i < |a| ==> v[i] == a[i] + c[i]
  {
    seq(|a|, i requires 0 <= i < |a| => a[i] + c[i])
  }

  function Scale(k: real, a: Vector): (v: Vector)
    ensures |v| == |a| && forall i :: 0 <= i < |a| ==> v[i] == k * a[i]
  {
    seq(|a|, i requires 0 <= i < |a| => k * a[i])
  }

  /** The running sum `a[0]*c[0] + ... + a[k-1]*c[k-1]`, added left to right. */
  function SumProducts(a: Vector, c: Vector, k: nat): real
    requires k <= |a| && k <= |c|
  {
    if k == 0 then 0.0 else SumProducts(a, c, k - 1) + a[k - 1] * c[k - 1]
  }

  function MinLen(a: Vector, c: Vector): nat {
    if |a| <= |c| then |a| else |c|
  }

  /** `dot_product`: the sum over `zip(a, c)`, so the longer one is cut short. */
  function Dot(a: Vector, c: Vector): real
  {
    SumProducts(a, c, MinLen(a, c))
  }

  /** `matrix_multiply`: entry i is the sum of `m[i][j] * x[j]` for `j < |x|`;
      every row must be at least as long as `x`. */
  function MatVec(m: Matrix, x: Vector): (r: Vector)
    requires forall i :: 0 <= i < |m| ==> |m[i]| >= |x|
    ensures |r| == |m| && forall i :: 0 <= i < |m| ==> r[i] == Dot(m[i], x)
  {
    seq(|m|, i requires 0 <= i < |m| => Dot(m[i], x))
  }

  /** The quadratic form `v . (m v)`. */
  function Quad(m: Matrix, v: Vector): real
    requires forall i :: 0 <= i < |m| ==> |m[i]| >= |v|
  {
    Dot(v, MatVec(m, v))
  }

  /** The new `A` of an update: `m + x x^T`. */
  function AddOuter(m: Matrix, x: Vector): (r: Matrix)
    requires IsSquare(m, |x|)
    ensures IsSquare(r, |x|)
    ensures forall i, j :: 0 <= i < |x| && 0 <= j < |x| ==> r[i][j] == m[i][j] + x[i] * x[j]
  {
    seq(|x|, i requires 0 <= i < |x| => seq(|x|, j requires 0 <= j < |x| => m[i][j] + x[i] * x[j]))
  }

  /** The new `b` of an update: `v + r x`. */
  function AddScaled(v: Vector, reward: real, x: Vector): (r: Vector)
    requires |v| == |x|
    ensures |r| == |x| && forall i :: 0 <= i < |x| ==> r[i] == v[i] + reward * x[i]
  {
    seq(|x|, i requires 0 <= i < |x| => v[i] + reward * x[i])
  }

  lemma {:induction false} SumProductsComm(a: Vector, c: Vector, k: nat)
    requires k <= |a| && k <= |c|
    ensures SumProducts(a, c, k) == SumProducts(c, a, k)
  {
    if k > 0 {
      SumProductsComm(a, c, k - 1);
    }
  }

  lemma DotComm(a: Vector, c: Vector)
    ensures Dot(a, c) == Dot(c, a)
  {
    SumProductsComm(a, c, MinLen(a, c));
  }

  lemma {:induction false} SumProductsZerosLeft(n: nat, c: Vector, k: nat)
    requires k <= n && k <= |c|
    ensures SumProducts(Zeros(n), c, k) == 0.0
  {
    if k > 0 {
      SumProductsZerosLeft(n, c, k - 1);
    }
  }

  lemma DotZerosLeft(n: nat, c: Vector)
    ensures Dot(Zeros(n), c) == 0.0
  {
    SumProductsZerosLeft(n, c, MinLen(Zeros(n), c));
  }

  lemma {:induction false} SumProductsAddLeft(a: Vector, a': Vector, c: Vector, k: nat)
    requires |a| == |a'| && k <= |a| && k <= |c|
    ensures SumProducts(VecAdd(a, a'), c, k) == SumProducts(a, c, k) + SumProducts(a', c, k)
  {
    if k > 0 {
      SumProductsAddLeft(a, a', c, k - 1);
      var s := VecAdd(a, a');
      assert s[k - 1] * c[k - 1] == a[k - 1] * c[k - 1] + a'[k - 1] * c[k - 1];
    }
  }

  lemma DotAddLeft(a: Vector, a': Vector, c: Vector)
    requires |a| == |a'|
    ensures Dot(VecAdd(a, a'), c) == Dot(a, c) + Dot(a', c)
  {
    SumProductsAddLeft(a, a', c, MinLen(a, c));
  }

  lemma Distribute(k: real, p: real, q: real, d: real)
    ensures d * k + (k * p) * q == k * (d + p * q)
  {
  }

  lemma {:induction false} SumProductsScaleLeft(t: real, a: Vector, c: Vector, k: nat)
    requires k <= |a| && k <= |c|
    ensures SumProducts(Scale(t, a), c, k) == t * SumProducts(a, c, k)
  {
    if k > 0 {
      SumProductsScaleLeft(t, a, c, k - 1);
      Distribute(t, a[k - 1], c[k - 1], SumProducts(a, c, k - 1));
    }
  }

  lemma DotScaleLeft(t: real, a: Vector, c: Vector)
    ensures Dot(Scale(t, a), c) == t * Dot(a, c)
  {
    SumProductsScaleLeft(t, a, c, MinLen(a, c));
  }

  lemma {:induction false} SumProductsUnit(n: nat, i: nat, x: Vector, k: nat)
    requires i < n && |x| == n && k <= n
    ensures SumProducts(Unit(n, i), x, k) == if i < k then x[i] else 0.0
  {
    if k > 0 {
      SumProductsUnit(n, i, x, k - 1);
    }
  }

  /** The dot product with row `i` of the identity picks entry `i`. */
  lemma DotUnit(n: nat, i: nat, x: Vector)
    requires i < n && |x| == n
    ensures Dot(Unit(n, i), x) == x[i]
  {
    SumProductsUnit(n, i, x, n);
  }

  /** Multiplying by the identity gives the vector back. */
  lemma IdentityMatVec(x: Vector)
    ensures MatVec(Identity(|x|), x) == x
  {
    forall i | 0 <= i < |x| ensures MatVec(Identity(|x|), x)[i] == x[i] {
      DotUnit(|x|, i, x);
    }
  }

  lemma SquareNonNegative(t: real)
    ensures t * t >= 0.0
  {
    if t < 0.0 { assert (-t) * (-t) == t * t; }
  }

  lemma SquarePositive(t: real)
    requires t != 0.0
    ensures t * t > 0.0
  {
    if t < 0.0 { assert (-t) * (-t) == t * t; }
  }

  /** Non-negative terms give a non-negative running sum. */
  lemma {:induction false} SumProductsNonNegative(a: Vector, c: Vector, k: nat)
    requires k <= |a| && k <= |c|
    requires forall i :: 0 <= i < k ==> a[i] * c[i] >= 0.0
    ensures SumProducts(a, c, k) >= 0.0
  {
    if k > 0 {
      SumProductsNonNegative(a, c, k - 1);
    }
  }

  /** Non-negative terms, one of them positive, give a positive running sum. */
  lemma {:induction false} SumProductsPositive(a: Vector, c: Vector, k: nat, j: nat)
    requires j < k <= |a| && k <= |c|
    requires forall i :: 0 <= i < k ==> a[i] * c[i] >= 0.0
    requires a[j] * c[j] > 0.0
    ensures SumProducts(a, c, k) > 0.0
  {
    if j == k - 1 {
      SumProductsNonNegative(a, c, k - 1);
    } else {
      SumProductsPositive(a, c, k - 1, j);
    }
  }

  lemma SquaresNonNegative(a: Vector)
    ensures forall i :: 0 <= i < |a| ==> a[i] * a[i] >= 0.0
  {
    forall i | 0 <= i < |a| ensures a[i] * a[i] >= 0.0 {
      SquareNonNegative(a[i]);
    }
  }

  lemma DotSelfNonNegative(a: Vector)
    ensures Dot(a, a) >= 0.0
  {
    SquaresNonNegative(a);
    SumProductsNonNegative(a, a, |a|);
  }

  /** Only the zero vector has a zero dot product with itself. */
  lemma DotSelfZero(a: Vector)
    requires Dot(a, a) == 0.0
    ensures a == Zeros(|a|)
  {
    forall j | 0 <= j < |a| ensures a[j] == 0.0 {
      if a[j] != 0.0 {
        SquaresNonNegative(a);
        SquarePositive(a[j]);
        SumProductsPositive(a, a, |a|, j);
      }
    }
  }

  /** `(m + x x^T) v == m v + (x . v) x`. */
  lemma MatVecAddOuter(m: Matrix, x: Vector, v: Vector)
    requires IsSquare(m, |x|) && |v| == |x|
    ensures MatVec(AddOuter(m, x), v) == VecAdd(MatVec(m, v), Scale(Dot(x, v), x))
  {
    var n := |x|;
    var m' := AddOuter(m, x);
    forall i | 0 <= i < n
      ensures MatVec(m', v)[i] == VecAdd(MatVec(m, v), Scale(Dot(x, v), x))[i]
    {
      assert m'[i] == VecAdd(m[i], Scale(x[i], x));
      DotAddLeft(m[i], Scale(x[i], x), v);
      DotScaleLeft(x[i], x, v);
    }
  }

  /** An update adds the square of `x . v` to the quadratic form. */
  lemma QuadAddOuter(m: Matrix, x: Vector, v: Vector)
    requires IsSquare(m, |x|) && |v| == |x|
    ensures Quad(AddOuter(m, x), v) == Quad(m, v) + Dot(Scale(Dot(x, v), x), v)
  {
    ScaledSelfDot(x, v);
    QuadAfterUpdate(m, x, v);
  }

  lemma ScaledSelfDot(x: Vector, v: Vector)
    ensures Dot(Scale(Dot(x, v), x), v) == Dot(x, v) * Dot(x, v)
  {
    DotScaleLeft(Dot(x, v), x, v);
  }

  lemma QuadAfterUpdate(m: Matrix, x: Vector, v: Vector)
    requires IsSquare(m, |x|) && |v| == |x|
    ensures Quad(AddOuter(m, x), v) == Quad(m, v) + Dot(Scale(Dot(x, v), x), v)
  {
    var p := MatVec(m, v);
    var s := Scale(Dot(x, v), x);
    var q := VecAdd(p, s);
    MatVecAddOuter(m, x, v);
    assert Quad(AddOuter(m, x), v) == Dot(v, q);
    DotComm(v, q);
    DotAddLeft(p, s, v);
    DotComm(p, v);
  }

  /** `m` is symmetric and `v . (m v) >= v . v` for every `v`: the matrix is
      positive definite, which is what keeps it invertible. */
  ghost predicate Regular(m: Matrix, n: nat) {
    Symmetric(m, n) && Dominates(m, n)
  }

  /** `v . (m v) >= v . v` for every length-n `v`. */
  ghost predicate Dominates(m: Matrix, n: nat)
    requires IsSquare(m, n)
  {
    forall v {:trigger Quad(m, v)} :: |v| == n ==> Quad(m, v) >= Dot(v, v)
  }

  lemma IdentityQuad(v: Vector)
    ensures Quad(Identity(|v|), v) == Dot(v, v)
  {
    IdentityMatVec(v);
  }

  lemma IdentityIsRegular(n: nat)
    ensures Regular(Identity(n), n)
  {
    assert Symmetric(Identity(n), n);
    forall v | |v| == n ensures Quad(Identity(n), v) >= Dot(v, v) {
      IdentityQuad(v);
    }
  }

  lemma AddNonNegative(a: real, p: real)
    requires p >= 0.0
    ensures a + p >= a
  {
  }

  /** An update never lowers the quadratic form. */
  lemma QuadGrows(m: Matrix, x: Vector, v: Vector)
    requires IsSquare(m, |x|) && |v| == |x|
    ensures Quad(AddOuter(m, x), v) >= Quad(m, v)
  {
    QuadAfterUpdate(m, x, v);
    ScaledSelfDotNonNegative(x, v);
  }

  lemma ScaledSelfDotNonNegative(x: Vector, v: Vector)
    ensures Dot(Scale(Dot(x, v), x), v) >= 0.0
  {
    ScaledSelfDot(x, v);
    SquareNonNegative(Dot(x, v));
  }

  lemma AddOuterSymmetric(m: Matrix, x: Vector)
    requires Symmetric(m, |x|)
    ensures Symmetric(AddOuter(m, x), |x|)
  {
    var r := AddOuter(m, x);
    forall i, j | 0 <= i < |x| && 0 <= j < |x| ensures r[i][j] == r[j][i] {
      assert x[i] * x[j] == x[j] * x[i];
    }
  }

  lemma AddOuterDiagonal(m: Matrix, x: Vector)
    requires IsSquare(m, |x|)
    ensures forall i :: 0 <= i < |x| ==> AddOuter(m, x)[i][i] >= m[i][i]
  {
    forall i | 0 <= i < |x| ensures AddOuter(m, x)[i][i] >= m[i][i] {
      SquareNonNegative(x[i]);
      AddNonNegative(m[i][i], x[i] * x[i]);
    }
  }

  lemma AddOuterDominates(m: Matrix, x: Vector)
    requires IsSquare(m, |x|) && Dominates(m, |x|)
    ensures Dominates(AddOuter(m, x), |x|)
  {
    forall v | |v| == |x| ensures Quad(AddOuter(m, x), v) >= Dot(v, v) {
      QuadGrows(m, x, v);
    }
  }

  /** `A += x x^T` keeps `A` symmetric, positive definite and never lowers a
      diagonal entry. */
  lemma AddOuterKeepsRegular(m: Matrix, x: Vector)
    requires Regular(m, |x|)
    ensures Regular(AddOuter(m, x), |x|)
    ensures forall i :: 0 <= i < |x| ==> AddOuter(m, x)[i][i] >= m[i][i]
  {
    AddOuterSymmetric(m, x);
    AddOuterDominates(m, x);
    AddOuterDiagonal(m, x);
  }

  /** A regular matrix has every diagonal entry at least 1. */
  lemma RegularDiagonal(m: Matrix, n: nat, i: nat)
    requires Regular(m, n) && i < n
    ensures m[i][i] >= 1.0
  {
    var e := Unit(n, i);
    assert Quad(m, e) >= Dot(e, e);
    DotUnit(n, i, e);
    var p := MatVec(m, e);
    DotUnit(n, i, p);
    assert Quad(m, e) == p[i];
    DotComm(m[i], e);
    DotUnit(n, i, m[i]);
  }

  /** A regular matrix sends only the zero vector to zero, so it is invertible. */
  lemma RegularIsNonSingular(m: Matrix, n: nat, v: Vector)
    requires Regular(m, n) && |v| == n
    requires MatVec(m, v) == Zeros(n)
    ensures v == Zeros(n)
  {
    assert Quad(m, v) >= Dot(v, v);
    DotComm(v, Zeros(n));
    DotZerosLeft(n, v);
    DotSelfNonNegative(v);
    DotSelfZero(v);
  }

  /** `A` after a run of updates with contexts `xs`, oldest first. */
  function ApplyUpdates(m: Matrix, xs: seq<Vector>): Matrix
    requires IsSquare(m, |m|)
    requires forall k :: 0 <= k < |xs| ==> |xs[k]| == |m|
    decreases |xs|
  {
    if |xs| == 0 then m else ApplyUpdates(AddOuter(m, xs[0]), xs[1..])
  }

  /** Any number of updates from the identity leaves `A` symmetric, positive
      definite (hence invertible) and with every diagonal entry at least 1. */
  lemma {:induction false} UpdatesStayRegular(m: Matrix, xs: seq<Vector>)
    requires Regular(m, |m|)
    requires forall k :: 0 <= k < |xs| ==> |xs[k]| == |m|
    ensures Regular(ApplyUpdates(m, xs), |m|)
    ensures forall i :: 0 <= i < |m| ==> ApplyUpdates(m, xs)[i][i] >= 1.0
    decreases |xs|
  {
    if |xs| == 0 {
      forall i | 0 <= i < |m| ensures m[i][i] >= 1.0 {
        RegularDiagonal(m, |m|, i);
      }
    } else {
      AddOuterKeepsRegular(m, xs[0]);
      UpdatesStayRegular(AddOuter(m, xs[0]), xs[1..]);
    }
  }

  lemma UpdatesFromIdentity(n: nat, xs: seq<Vector>)
    requires forall k :: 0 <= k < |xs| ==> |xs[k]| == n
    ensures Regular(ApplyUpdates(Identity(n), xs), n)
    ensures forall i :: 0 <= i < n ==> ApplyUpdates(Identity(n), xs)[i][i] >= 1.0
  {
    IdentityIsRegular(n);
    UpdatesStayRegular(Identity(n), xs);
  }

  // ---------------------------------------------------------------------
  // Context fitting and regime detection
  // ---------------------------------------------------------------------

  /** `(context + [0.0] * n)[:n]`: exactly `n` entries, the given ones first,
      zeros after. */
  function FitContext(context: Vector, n: nat): (r: Vector)
    ensures |r| == n
    ensures forall i :: 0 <= i < n && i < |context| ==> r[i] == context[i]
    ensures forall i :: |context| <= i < n ==> r[i] == 0.0
  {
    (context + Zeros(n))[..n]
  }

  lemma FitContextIdempotent(context: Vector, n: nat)
    ensures FitContext(FitContext(context, n), n) == FitContext(context, n)
    ensures |context| == n ==> FitContext(context, n) == context
  {
  }

  /** The market regime of a context, first matching rule wins. */
  function DetectMarketRegime(c: Vector): (r: Regime)
    ensures r != NoRegime
    ensures r == Unknown <==> |c| < 10
    ensures r == Breakout <==> |c| >= 10 && c[2] > 0.02 && c[3] > 1.5
    ensures r == Trending <==> |c| >= 10 && !(c[2] > 0.02 && c[3] > 1.5)
                               && Abs(c[1] - 1.0) > 0.02 && c[2] > 0.015
    ensures r == Compression <==> |c| >= 10 && !(c[2] > 0.02 && c[3] > 1.5)
                                  && !(Abs(c[1] - 1.0) > 0.02 && c[2] > 0.015)
                                  && c[2] < 0.01 && c[3] < 0.8
    ensures r == Ranging <==> |c| >= 10 && !(c[2] > 0.02 && c[3] > 1.5)
                              && !(Abs(c[1] - 1.0) > 0.02 && c[2] > 0.015)
                              && !(c[2] < 0.01 && c[3] < 0.8)
                              && (c[0] < 30.0 || c[0] > 70.0) && Abs(c[1] - 1.0) < 0.01
  {
    if |c| < 10 then Unknown
    else
      var rsi, smaRatio, atrPct, volumeRatio := c[0], c[1], c[2], c[3];
      if atrPct > 0.02 && volumeRatio > 1.5 then Breakout
      else if Abs(smaRatio - 1.0) > 0.02 && atrPct > 0.015 then Trending
      else if atrPct < 0.01 && volumeRatio < 0.8 then Compression
      else if (rsi < 30.0 || rsi > 70.0) && Abs(smaRatio - 1.0) < 0.01 then Ranging
      else Momentum
  }

  /** An action survives the regime filter when it matches or has no regime. */
  predicate Kept(a: Action, regime: Regime) {
    a.regime == regime || a.regime == NoRegime
  }

  /** The ids `k ..` of the actions of `acts` that the filter keeps, in order. */
  function KeptIdsFrom(acts: seq<Action>, k: nat, regime: Regime): (r: seq<nat>)
    requires k <= |acts|
    ensures forall t :: 0 <= t < |r| ==> k <= r[t] < |acts|
    ensures forall s, t :: 0 <= s < t < |r| ==> r[s] < r[t]
    decreases |acts| - k
  {
    if k == |acts| then []
    else if Kept(acts[k], regime) then [k] + KeptIdsFrom(acts, k + 1, regime)
    else KeptIdsFrom(acts, k + 1, regime)
  }

  /** The ids of `regime_actions`, in table order. */
  function RegimeActionIds(regime: Regime): (r: seq<nat>)
    ensures forall t :: 0 <= t < |r| ==> IsActionId(r[t])
    ensures forall s, t :: 0 <= s < t < |r| ==> r[s] < r[t]
  {
    KeptIdsFrom(Actions, 0, regime)
  }

  lemma {:induction false} KeptIdsFromExact(acts: seq<Action>, k: nat, regime: Regime, id: nat)
    requires k <= id < |acts|
    ensures id in KeptIdsFrom(acts, k, regime) <==> Kept(acts[id], regime)
    decreases |acts| - k
  {
    var r := KeptIdsFrom(acts, k, regime);
    if id == k {
      if !Kept(acts[k], regime) && id in r {
        var t :| 0 <= t < |r| && r[t] == id;
        assert false;
      }
    } else {
      KeptIdsFromExact(acts, k + 1, regime, id);
    }
  }

  /** The filter keeps exactly the actions of the regime and the ones with
      no regime. */
  lemma RegimeActionIdsExact(regime: Regime, id: nat)
    requires IsActionId(id)
    ensures id in RegimeActionIds(regime) <==> Kept(Actions[id], regime)
  {
    KeptIdsFromExact(Actions, 0, regime, id);
  }

  /** In a strictly increasing sequence, a smaller value sits earlier. */
  lemma IncreasingOrder(r: seq<nat>, s: nat, t: nat)
    requires forall i, j :: 0 <= i < j < |r| ==> r[i] < r[j]
    requires s < |r| && t < |r| && r[s] < r[t]
    ensures s < t
  {
  }

  /** A strictly increasing sequence of values between `lo` and `hi` has at
      most `hi - lo + 1` entries. */
  lemma {:induction false} IncreasingLength(r: seq<nat>, lo: nat, hi: nat)
    requires lo <= hi + 1
    requires forall t :: 0 <= t < |r| ==> lo <= r[t] <= hi
    requires forall s, t :: 0 <= s < t < |r| ==> r[s] < r[t]
    ensures |r| <= hi + 1 - lo
  {
    if |r| > 0 {
      var tail := r[1..];
      forall t | 0 <= t < |tail| ensures r[0] + 1 <= tail[t] <= hi {
        assert tail[t] == r[t + 1];
      }
      IncreasingLength(tail, r[0] + 1, hi);
    }
  }

  /** SKIP survives every filter, so the list is never empty and the
      fall-back to the whole table never happens; a regime of a classified
      context keeps its own strategies too. */
  lemma RegimeActionsKeepSkip(regime: Regime)
    ensures SkipId in RegimeActionIds(regime)
    ensures |RegimeActionIds(regime)| > 0
    ensures regime == Unknown ==> RegimeActionIds(regime) == [SkipId]
  {
    RegimeActionIdsExact(regime, SkipId);
    if regime == Unknown {
      var r := RegimeActionIds(regime);
      ActionTable();
      forall t | 0 <= t < |r| ensures r[t] == SkipId {
        RegimeActionIdsExact(regime, r[t]);
      }
      IncreasingLength(r, SkipId, SkipId);
      assert r[0] == SkipId;
    }
  }

  // ---------------------------------------------------------------------
  // UCB score
  // ---------------------------------------------------------------------

  /** The UCB of one action: `theta . x + alpha * sqrt(max(0, x . (Ainv x)))`
      with `theta = Ainv b`. The inverse and the square root are inputs. */
  function Ucb(inv: Matrix, bv: Vector, x: Vector, alpha: real, sqrt: real -> real): (u: real)
    requires forall i :: 0 <= i < |inv| ==> |inv[i]| >= |bv| && |inv[i]| >= |x|
    ensures alpha >= 0.0 && (forall y :: y >= 0.0 ==> sqrt(y) >= 0.0) ==> u >= Dot(MatVec(inv, bv), x)
    ensures alpha == 0.0 ==> u == Dot(MatVec(inv, bv), x)
  {
    Dot(MatVec(inv, bv), x) + Bonus(alpha, sqrt, Dot(x, MatVec(inv, x)))
  }

  /** The exploration bonus `alpha * sqrt(max(0, q))` for the variance term
      `q`: a negative term counts as zero, and with a non-negative `alpha` and
      square root the bonus never lowers a score. */
  function Bonus(alpha: real, sqrt: real -> real, q: real): (r: real)
    ensures q >= 0.0 ==> r == alpha * sqrt(q)
    ensures q < 0.0 ==> r == alpha * sqrt(0.0)
    ensures alpha >= 0.0 && (forall y :: y >= 0.0 ==> sqrt(y) >= 0.0) ==> r >= 0.0
  {
    alpha * sqrt(MaxReal(0.0, q))
  }

  /** With `A` the identity and `b` zero, the expected reward vanishes and
      only the exploration bonus remains. */
  lemma FreshUcb(n: nat, x: Vector, alpha: real, sqrt: real -> real)
    requires |x| == n
    ensures Ucb(Identity(n), Zeros(n), x, alpha, sqrt) == alpha * sqrt(Dot(x, x))
  {
    IdentityMatVec(Zeros(n));
    IdentityMatVec(x);
    DotZerosLeft(n, x);
    DotSelfNonNegative(x);
  }

  /** The double loop of `update`, `m[i][j] += x[i] * x[j]`: the inner loop
      over `j` adds `x[i] * x` to row `i`. */
  method AddOuterLoop(m0: Matrix, x: Vector) returns (m: Matrix)
    requires IsSquare(m0, |x|)
    ensures m == AddOuter(m0, x)
  {
    var n := |x|;
    m := m0;
    var i := 0;
    while i < n
      invariant 0 <= i <= n && |m| == n
      invariant forall r :: 0 <= r < i ==> m[r] == AddScaled(m0[r], x[r], x)
      invariant forall r :: i <= r < n ==> m[r] == m0[r]
    {
      var row := AddScaledLoop(m[i], x[i], x);
      m := m[i := row];
      i := i + 1;
    }
    forall r | 0 <= r < n ensures m[r] == AddOuter(m0, x)[r] {
      assert forall c :: 0 <= c < n ==> m[r][c] == AddOuter(m0, x)[r][c];
    }
  }

  /** The loop of `update` over `b`: `v[i] += reward * x[i]`. */
  method AddScaledLoop(v0: Vector, reward: real, x: Vector) returns (v: Vector)
    requires |v0| == |x|
    ensures v == AddScaled(v0, reward, x)
  {
    v := v0;
    var i := 0;
    while i < |x|
      invariant 0 <= i <= |x| && |v| == |x|
      invariant forall r :: 0 <= r < i ==> v[r] == v0[r] + reward * x[r]
      invariant forall r :: i <= r < |x| ==> v[r] == v0[r]
    {
      v := v[i := v[i] + reward * x[i]];
      i := i + 1;
    }
  }

  /** The selection loop of `select_action`: starting from minus infinity,
      a score replaces the best only when strictly larger, so the result is
      the first position of the maximum. */
  method FirstMaxIndex(s: seq<real>) returns (k: nat)
    requires |s| > 0
    ensures k < |s|
    ensures forall t :: 0 <= t < |s| ==> s[t] <= s[k]
    ensures forall t :: 0 <= t < k ==> s[t] < s[k]
  {
    k := 0;
    var t := 1;
    while t < |s|
      invariant 1 <= t <= |s| && k < t
      invariant forall u :: 0 <= u < t ==> s[u] <= s[k]
      invariant forall u :: 0 <= u < k ==> s[u] < s[k]
    {
      if s[t] > s[k] {
        k := t;
      }
      t := t + 1;
    }
  }

  // ---------------------------------------------------------------------
  // The bandit state
  // ---------------------------------------------------------------------

  /** The serialised state: `to_dict` without its clock-based `updated_at`. */
  datatype Snapshot = Snapshot(nFeatures: nat, alpha: real, a: map<int, Matrix>, b: map<int, Vector>)

  /** A snapshot holding an n-by-n `A` and a length-n `b` for every action id. */
  ghost predicate WellShaped(s: Snapshot) {
    Shaped(s.nFeatures, s.a, s.b)
  }

  ghost predicate Shaped(n: nat, a: map<int, Matrix>, b: map<int, Vector>) {
    && (forall id :: id in a <==> IsActionId(id))
    && (forall id :: id in b <==> IsActionId(id))
    && (forall id :: id in a ==> IsSquare(a[id], n))
    && (forall id :: id in b ==> |b[id]| == n)
  }

  class LinUCBBandit {
    const nFeatures: nat
    const alpha: real
    var A: map<int, Matrix>
    var b: map<int, Vector>

    ghost predicate Valid()
      reads this
    {
      Shaped(nFeatures, A, b)
    }

    /** Every `A` is still symmetric positive definite. */
    ghost predicate Regularised()
      reads this
    {
      Valid() && forall id :: id in A ==> Regular(A[id], nFeatures)
    }

    /** `__init__`: identity `A` and zero `b` for every action. */
    constructor (n: nat, alpha0: real)
      ensures nFeatures == n && alpha == alpha0
      ensures Valid() && Regularised()
      ensures forall id :: IsActionId(id) ==> A[id] == Identity(n) && b[id] == Zeros(n)
    {
      nFeatures := n;
      alpha := alpha0;
      var a0: map<int, Matrix> := map[];
      var b0: map<int, Vector> := map[];
      var k := 0;
      while k < |Actions|
        invariant 0 <= k <= |Actions| == NumActions
        invariant forall id :: id in a0 <==> 0 <= id < k
        invariant forall id :: id in b0 <==> 0 <= id < k
        invariant forall id :: id in a0 ==> a0[id] == Identity(n)
        invariant forall id :: id in b0 ==> b0[id] == Zeros(n)
      {
        var aid := Actions[k].id;
        a0 := a0[aid := Identity(n)];
        b0 := b0[aid := Zeros(n)];
        k := k + 1;
      }
      A := a0;
      b := b0;
      new;
      IdentityIsRegular(n);
    }

    /** `from_dict`: the loaded state is exactly the snapshot's. */
    constructor FromDict(s: Snapshot)
      ensures ToDict() == s
      ensures WellShaped(s) ==> Valid()
    {
      nFeatures := s.nFeatures;
      alpha := s.alpha;
      A := s.a;
      b := s.b;
    }

    /** `to_dict` without the timestamp. */
    function ToDict(): (s: Snapshot)
      reads this
      ensures s.nFeatures == nFeatures && s.alpha == alpha && s.a == A && s.b == b
      ensures WellShaped(s) <==> Valid()
    {
      Snapshot(nFeatures, alpha, A, b)
    }

    /** `update`: `A[aid] += x x^T` and `b[aid] += reward * x` for the fitted
        context `x`, entry by entry; every other action keeps its state.
        An unknown id raises before anything is written (unless there are no
        features, when the loops do nothing) and is reported as `ok == false`. */
    method Update(aid: int, context: Vector, reward: real) returns (ok: bool)
      requires Valid()
      modifies this
      ensures Valid()
      ensures ok <==> IsActionId(aid) || nFeatures == 0
      ensures var x := FitContext(context, nFeatures);
              if IsActionId(aid) then
                && A == old(A)[aid := AddOuter(old(A)[aid], x)]
                && b == old(b)[aid := AddScaled(old(b)[aid], reward, x)]
              else A == old(A) && b == old(b)
      ensures old(Regularised()) ==> Regularised()
    {
      var n := nFeatures;
      var x := FitContext(context, n);
      if !IsActionId(aid) {
        ok := n == 0;
        return;
      }
      ok := true;
      // The Python lists are updated in place through the dict; the model
      // runs the same loops on the action's matrix and vector and stores
      // them back.
      var m := AddOuterLoop(A[aid], x);
      A := A[aid := m];
      var v := AddScaledLoop(b[aid], reward, x);
      b := b[aid := v];
      if old(Regularised()) {
        AddOuterKeepsRegular(old(A)[aid], x);
      }
    }

    /** The non-exploring branch of `select_action`: over the actions kept for
        the context's regime, in table order, the first one with the largest
        UCB (a later score replaces the best only when strictly larger, and the
        first one always replaces the initial minus infinity). The inverses of the `A` matrices and the square root are inputs. */
    method SelectAction(context: Vector, inv: map<int, Matrix>, sqrt: real -> real)
      returns (aid: nat, regime: Regime, ucb: real)
      requires Valid()
      requires forall id :: IsActionId(id) ==> id in inv && IsSquare(inv[id], nFeatures)
      ensures Valid() && IsActionId(aid)
      ensures regime == DetectMarketRegime(FitContext(context, nFeatures))
      ensures aid in RegimeActionIds(regime)
      ensures ucb == Score(inv, FitContext(context, nFeatures), sqrt, aid)
      ensures forall t :: 0 <= t < |RegimeActionIds(regime)| ==>
                Score(inv, FitContext(context, nFeatures), sqrt, RegimeActionIds(regime)[t]) <= ucb
      ensures forall t :: 0 <= t < |RegimeActionIds(regime)| && RegimeActionIds(regime)[t] < aid ==>
                Score(inv, FitContext(context, nFeatures), sqrt, RegimeActionIds(regime)[t]) < ucb
    {
      var x := FitContext(context, nFeatures);
      regime := DetectMarketRegime(x);
      var ids := RegimeActionIds(regime);
      RegimeActionsKeepSkip(regime);
      var scores := ScoreActions(ids, x, inv, sqrt);
      var best := FirstMaxIndex(scores);
      aid, ucb := ids[best], scores[best];
      forall t | 0 <= t < |ids| && ids[t] < aid
        ensures Score(inv, x, sqrt, ids[t]) < ucb
      {
        IncreasingOrder(ids, t, best);
      }
    }

    /** The scores of `action_scores`, one per id, in the order of `ids`. */
    method ScoreActions(ids: seq<nat>, x: Vector, inv: map<int, Matrix>, sqrt: real -> real)
      returns (scores: seq<real>)
      requires Valid() && |x| == nFeatures
      requires forall t :: 0 <= t < |ids| ==> IsActionId(ids[t])
      requires forall id :: IsActionId(id) ==> id in inv && IsSquare(inv[id], nFeatures)
      ensures |scores| == |ids|
      ensures forall t :: 0 <= t < |ids| ==> scores[t] == Score(inv, x, sqrt, ids[t])
    {
      scores := [];
      var k := 0;
      while k < |ids|
        invariant 0 <= k <= |ids| && |scores| == k
        invariant forall t :: 0 <= t < k ==> scores[t] == Score(inv, x, sqrt, ids[t])
      {
        scores := scores + [Score(inv, x, sqrt, ids[k])];
        k := k + 1;
      }
    }

    /** The UCB of action `id` for the fitted context `x`. */
    function Score(inv: map<int, Matrix>, x: Vector, sqrt: real -> real, id: int): (s: real)
      reads this
      requires Valid() && |x| == nFeatures && IsActionId(id)
      requires forall id :: IsActionId(id) ==> id in inv && IsSquare(inv[id], nFeatures)
      ensures id in b && |b[id]| == nFeatures && IsSquare(inv[id], nFeatures)
      ensures alpha >= 0.0 && (forall y :: y >= 0.0 ==> sqrt(y) >= 0.0) ==> s >= Dot(MatVec(inv[id], b[id]), x)
      ensures alpha == 0.0 ==> s == Dot(MatVec(inv[id], b[id]), x)
    {
      assert id in b && |b[id]| == nFeatures && IsSquare(inv[id], nFeatures);
      Ucb(inv[id], b[id], x, alpha, sqrt)
    }
  }
}
