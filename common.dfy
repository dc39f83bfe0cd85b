/** Helpers shared by the trading-core modules: failure-carrying results and
    the real-valued sequence functions that Python's builtins provide
    (sum, statistics.mean, min, max, abs and the `s[-k:]` slice). */
module Common {

  datatype Option<+T> = None | Some(value: T) {
    /** Python's `d.get(key, default)` on a key that may be missing. */
    function GetOr(default: T): T {
      match this
      case Some(v) => v
      case None => default
    }
  }

  /** The exceptions the modelled code can raise on some input: Python's
      `ZeroDivisionError`, an `IndexError` from reading past the end of a
      list, `statistics.mean` of an empty list, and `max`/`min` of an empty
      list. */
  datatype Error = DivisionByZero | IndexOutOfRange | MeanOfEmpty | MaxOfEmpty

  datatype Result<+T> = Ok(value: T) | Err(error: Error)

  function Abs(x: real): (r: real)
    ensures r >= 0.0 && (r == x || r == -x)
  {
    if x < 0.0 then -x else x
  }

  function MaxReal(x: real, y: real): (r: real)
    ensures r >= x && r >= y && (r == x || r == y)
  {
    if x >= y then x else y
  }

  function MinReal(x: real, y: real): (r: real)
    ensures r <= x && r <= y && (r == x || r == y)
  {
    if x <= y then x else y
  }

  /** Python's `max(lo, min(hi, x))`. */
  function Clamp(lo: real, hi: real, x: real): (r: real)
    requires lo <= hi
    ensures lo <= r <= hi
    ensures lo <= x <= hi ==> r == x
  {
    MaxReal(lo, MinReal(hi, x))
  }

  /** Python's `sum(s)`. */
  function Sum(s: seq<real>): real
  {
    if |s| == 0 then 0.0 else s[0] + Sum(s[1..])
  }

  /** `statistics.mean(s)`, which raises on an empty list. */
  function Mean(s: seq<real>): real
    requires |s| > 0
  {
    Sum(s) / (|s| as real)
  }

  /** `sum((v - avg) ** 2 for v in vs)`. */
  function SquaredDeviations(vs: seq<real>, avg: real): real {
    if |vs| == 0 then 0.0 else (vs[0] - avg) * (vs[0] - avg) + SquaredDeviations(vs[1..], avg)
  }

  /** Python's `max(s)`, which raises on an empty list. */
  function SeqMax(s: seq<real>): (r: real)
    requires |s| > 0
    ensures forall i :: 0 <= i < |s| ==> s[i] <= r
    ensures exists i :: 0 <= i < |s| && s[i] == r
  {
    if |s| == 1 then s[0] else MaxReal(s[0], SeqMax(s[1..]))
  }

  /** Python's `min(s)`, which raises on an empty list. */
  function SeqMin(s: seq<real>): (r: real)
    requires |s| > 0
    ensures forall i :: 0 <= i < |s| ==> r <= s[i]
    ensures exists i :: 0 <= i < |s| && s[i] == r
  {
    if |s| == 1 then s[0] else MinReal(s[0], SeqMin(s[1..]))
  }

  /** Python's slice `s[-k:]` for `k >= 0`: the last `k` elements, the whole
      sequence when it is shorter, and (since `-0 == 0`) all of it for `k == 0`. */
  function PyTail<T>(s: seq<T>, k: nat): (r: seq<T>)
    ensures k == 0 ==> r == s
    ensures k > 0 ==> |r| == if k <= |s| then k else |s|
    ensures forall i :: 0 <= i < |r| ==> r[i] == s[|s| - |r| + i]
  {
    if k == 0 || k >= |s| then s else s[|s| - k..]
  }

  /** A tail of a non-empty sequence is non-empty and ends where it ends. */
  lemma PyTailLast<T>(s: seq<T>, k: nat)
    requires |s| > 0
    ensures |PyTail(s, k)| > 0 && PyTail(s, k)[|PyTail(s, k)| - 1] == s[|s| - 1]
  {
  }

  /** Python's slice `s[:k]`: the first `k` elements for `k >= 0`, all but
      the last `-k` for `k < 0`, and never more than the sequence holds. */
  function PyPrefix<T>(s: seq<T>, k: int): (r: seq<T>)
    ensures k >= 0 ==> |r| == if k <= |s| then k else |s|
    ensures k < 0 ==> |r| == if -k <= |s| then |s| + k else 0
    ensures forall i :: 0 <= i < |r| ==> r[i] == s[i]
  {
    if k >= |s| then s
    else if k >= 0 then s[..k]
    else if -k <= |s| then s[..|s| + k]
    else []
  }

  lemma {:induction false} SumAppend(s: seq<real>, x: real)
    ensures Sum(s + [x]) == Sum(s) + x
  {
    if |s| == 0 {
      assert s + [x] == [x];
    } else {
      assert (s + [x])[1..] == s[1..] + [x];
      SumAppend(s[1..], x);
    }
  }

  lemma {:induction false} SumNonNegative(s: seq<real>)
    requires forall i :: 0 <= i < |s| ==> s[i] >= 0.0
    ensures Sum(s) >= 0.0
  {
    if |s| > 0 {
      SumNonNegative(s[1..]);
    }
  }

  /** A sum of non-negative terms is zero only when every term is. */
  lemma {:induction false} SumZeroMeansAllZero(s: seq<real>)
    requires forall i :: 0 <= i < |s| ==> s[i] >= 0.0
    requires Sum(s) == 0.0
    ensures forall i :: 0 <= i < |s| ==> s[i] == 0.0
  {
    if |s| > 0 {
      SumNonNegative(s[1..]);
      SumZeroMeansAllZero(s[1..]);
      forall i | 0 <= i < |s| ensures s[i] == 0.0 {
        if i > 0 { assert s[i] == s[1..][i - 1]; }
      }
    }
  }

  /** Every term between `lo` and `hi` puts the sum between `n*lo` and `n*hi`. */
  lemma {:induction false} SumBounds(s: seq<real>, lo: real, hi: real)
    requires forall i :: 0 <= i < |s| ==> lo <= s[i] <= hi
    ensures (|s| as real) * lo <= Sum(s) <= (|s| as real) * hi
  {
    if |s| > 0 {
      SumBounds(s[1..], lo, hi);
    }
  }

  /** Dividing by a positive real keeps an inequality that a product bounds. */
  lemma DivBounds(a: real, n: real, lo: real, hi: real)
    requires n > 0.0
    requires n * lo <= a <= n * hi
    ensures lo <= a / n <= hi
  {
    assert (a / n) * n == a;
  }

  /** Scaling into [lo, hi] sends the ends to 0 and 1. */
  lemma RatioAtEnds(x: real, lo: real, hi: real)
    requires lo < hi
    ensures x == lo ==> (x - lo) / (hi - lo) == 0.0
    ensures x == hi ==> (x - lo) / (hi - lo) == 1.0
  {
    var d := hi - lo;
    if x == hi {
      DivBounds(d, d, 1.0, 1.0);
    }
  }

  /** Dividing by a positive real keeps the order. */
  lemma DivMonotone(a: real, b: real, d: real)
    requires d > 0.0 && a <= b
    ensures a / d <= b / d
  {
    var x := a / d;
    var y := b / d;
    assert x * d == a && y * d == b;
  }

  /** A non-negative amount over a positive one is non-negative. */
  lemma RatioNonNegative(a: real, b: real)
    requires a >= 0.0
    ensures b > 0.0 ==> a / b >= 0.0
  {
    if b > 0.0 {
      assert (a / b) * b == a;
    }
  }

  /** Every element between `lo` and `hi` puts the mean there too. */
  lemma MeanBounds(s: seq<real>, lo: real, hi: real)
    requires |s| > 0
    requires forall i :: 0 <= i < |s| ==> lo <= s[i] <= hi
    ensures lo <= Mean(s) <= hi
  {
    SumBounds(s, lo, hi);
    DivBounds(Sum(s), |s| as real, lo, hi);
  }

  /** The mean lies between the smallest and the largest element. */
  lemma MeanBetweenMinAndMax(s: seq<real>)
    requires |s| > 0
    ensures SeqMin(s) <= Mean(s) <= SeqMax(s)
  {
    MeanBounds(s, SeqMin(s), SeqMax(s));
  }

  lemma MeanNonNegative(s: seq<real>)
    requires |s| > 0
    requires forall i :: 0 <= i < |s| ==> s[i] >= 0.0
    ensures Mean(s) >= 0.0
  {
    SumNonNegative(s);
  }
}
