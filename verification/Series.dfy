/** Price series and the sums and window extremes the indicators of shared/indicators/canonical.ts
    are defined by.  Numbers are reals; an undefined indicator value is None. */
module Series {
  import opened Basics

  datatype Candle = Candle(high: real, low: real, close: real, volume: real, tsMs: Option<int>)

  /** xs[lo] + ... + xs[hi - 1] */
  function Sum(xs: seq<real>, lo: nat, hi: nat): real
    requires lo <= hi <= |xs|
    decreases hi
  {
    if lo == hi then 0.0 else Sum(xs, lo, hi - 1) + xs[hi - 1]
  }

  lemma {:induction false} SumOfPrefix(xs: seq<real>, k: nat, lo: nat, hi: nat)
    requires lo <= hi <= k <= |xs|
    ensures Sum(xs[..k], lo, hi) == Sum(xs, lo, hi)
    decreases hi
  {
    if lo < hi { SumOfPrefix(xs, k, lo, hi - 1); }
  }

  lemma {:induction false} SumSplit(xs: seq<real>, lo: nat, mid: nat, hi: nat)
    requires lo <= mid <= hi <= |xs|
    ensures Sum(xs, lo, hi) == Sum(xs, lo, mid) + Sum(xs, mid, hi)
    decreases hi
  {
    if mid < hi { SumSplit(xs, lo, mid, hi - 1); }
  }

  lemma {:induction false} SumBounds(xs: seq<real>, lo: nat, hi: nat, a: real, b: real)
    requires lo <= hi <= |xs| && forall j | lo <= j < hi :: a <= xs[j] <= b
    ensures a * (hi - lo) as real <= Sum(xs, lo, hi) <= b * (hi - lo) as real
    decreases hi
  {
    if lo < hi {
      SumBounds(xs, lo, hi - 1, a, b);
      var n := (hi - 1 - lo) as real;
      assert (hi - lo) as real == n + 1.0;
      Distribute(a, n, 1.0);
      Distribute(b, n, 1.0);
    }
  }

  /** The largest of xs[lo..hi]. */
  function Highest(xs: seq<real>, lo: nat, hi: nat): real
    requires lo < hi <= |xs|
    decreases hi
  {
    if lo + 1 == hi then xs[lo] else Max(Highest(xs, lo, hi - 1), xs[hi - 1])
  }

  /** The smallest of xs[lo..hi]. */
  function Lowest(xs: seq<real>, lo: nat, hi: nat): real
    requires lo < hi <= |xs|
    decreases hi
  {
    if lo + 1 == hi then xs[lo] else Min(Lowest(xs, lo, hi - 1), xs[hi - 1])
  }

  /** They are the window's greatest and least elements. */
  lemma {:induction false} ExtremesAre(xs: seq<real>, lo: nat, hi: nat)
    requires lo < hi <= |xs|
    ensures forall j | lo <= j < hi :: Lowest(xs, lo, hi) <= xs[j] <= Highest(xs, lo, hi)
    ensures Highest(xs, lo, hi) in xs[lo..hi] && Lowest(xs, lo, hi) in xs[lo..hi]
    decreases hi
  {
    var window := xs[lo..hi];
    if lo + 1 == hi {
      assert window[0] == xs[lo];
    } else {
      ExtremesAre(xs, lo, hi - 1);
      assert window == xs[lo..hi - 1] + [xs[hi - 1]];
    }
  }

  lemma {:induction false} ExtremesOfPrefix(xs: seq<real>, k: nat, lo: nat, hi: nat)
    requires lo < hi <= k <= |xs|
    ensures Highest(xs[..k], lo, hi) == Highest(xs, lo, hi)
    ensures Lowest(xs[..k], lo, hi) == Lowest(xs, lo, hi)
    decreases hi
  {
    if lo + 1 < hi { ExtremesOfPrefix(xs, k, lo, hi - 1); }
  }

  function Highs(candles: seq<Candle>): (r: seq<real>)
    ensures |r| == |candles| && forall i | 0 <= i < |r| :: r[i] == candles[i].high
  {
    seq(|candles|, i requires 0 <= i < |candles| => candles[i].high)
  }

  function Lows(candles: seq<Candle>): (r: seq<real>)
    ensures |r| == |candles| && forall i | 0 <= i < |r| :: r[i] == candles[i].low
  {
    seq(|candles|, i requires 0 <= i < |candles| => candles[i].low)
  }

  lemma PrefixHighsLows(candles: seq<Candle>, k: nat)
    requires k <= |candles|
    ensures Highs(candles[..k]) == Highs(candles)[..k] && Lows(candles[..k]) == Lows(candles)[..k]
  {
  }

  /** A bar whose close lies between its low and its high. */
  predicate Proper(c: Candle) {
    c.low <= c.close <= c.high
  }
}
