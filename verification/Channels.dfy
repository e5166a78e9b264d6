/** Bollinger bands, Donchian channels, the stochastic oscillator and the session VWAP of
    shared/indicators/canonical.ts. */
module Channels {
  import opened Basics
  import opened Series
  import IstClock
  import M = MovingAverages

  // ------------------------------------------------------------------ Bollinger bands

  /** The square root the bands are computed with. */
  type Root = real -> real

  ghost predicate IsRoot(sqrt: Root) {
    forall x :: x >= 0.0 ==> sqrt(x) >= 0.0 && sqrt(x) * sqrt(x) == x
  }

  datatype Bands = Bands(upper: real, middle: real, lower: real, width: Option<real>)

  function Square(x: real): real {
    x * x
  }

  /** Sum of squared deviations of closes[lo..hi] from mid. */
  function SquaredDeviations(closes: seq<real>, mid: real, lo: nat, hi: nat): real
    requires lo <= hi <= |closes|
    decreases hi
  {
    if lo == hi then 0.0
    else SquaredDeviations(closes, mid, lo, hi - 1) + Square(closes[hi - 1] - mid)
  }

  function MakeBands(mid: real, sd: real, multiplier: real): Bands {
    var up, low := mid + sd * multiplier, mid - sd * multiplier;
    Bands(up, mid, low, if mid != 0.0 then Some((up - low) / mid) else None)
  }

  function BandsAt(closes: seq<real>, period: int, multiplier: real, sqrt: Root, i: nat): Option<Bands>
    requires i < |closes|
  {
    if period <= 0 || i < period - 1 then None
    else
      var mid := Sum(closes, i - period + 1, i + 1) / period as real;
      Some(MakeBands(mid, sqrt(SquaredDeviations(closes, mid, i - period + 1, i + 1) / period as real), multiplier))
  }

  lemma {:induction false} DeviationsOfPrefix(closes: seq<real>, mid: real, k: nat, lo: nat, hi: nat)
    requires lo <= hi <= k <= |closes|
    ensures SquaredDeviations(closes[..k], mid, lo, hi) == SquaredDeviations(closes, mid, lo, hi)
    decreases hi
  {
    if lo < hi { DeviationsOfPrefix(closes, mid, k, lo, hi - 1); }
  }

  lemma BandsNoLookahead(closes: seq<real>, period: int, multiplier: real, sqrt: Root, k: nat, i: nat)
    requires i < k <= |closes|
    ensures BandsAt(closes[..k], period, multiplier, sqrt, i) == BandsAt(closes, period, multiplier, sqrt, i)
  {
    if period > 0 && i >= period - 1 {
      var lo := i - period + 1;
      SumOfPrefix(closes, k, lo, i + 1);
      DeviationsOfPrefix(closes, Sum(closes, lo, i + 1) / period as real, k, lo, i + 1);
    }
  }

  /** Number of closes[lo..hi] strictly above `up` or strictly below `low`. */
  function Outside(closes: seq<real>, up: real, low: real, lo: nat, hi: nat): nat
    requires lo <= hi <= |closes|
    decreases hi
  {
    if lo == hi then 0
    else Outside(closes, up, low, lo, hi - 1) + (if closes[hi - 1] > up || closes[hi - 1] < low then 1 else 0)
  }

  lemma Grows(x: real, a: real, b: real)
    requires x >= 0.0 && a >= b
    ensures x * a >= x * b
  {
  }

  lemma GrowsStrictly(x: real, a: real, b: real)
    requires x > 0.0 && a > b
    ensures x * a > x * b
  {
  }

  lemma BetweenSquares(d: real, b: real, dd: real, db: real, bb: real)
    requires d > b >= 0.0 && dd == d * d && db == d * b && bb == b * b
    ensures dd > bb
  {
    GreaterSquare(d, b, dd, db);
    LesserSquare(d, b, db, bb);
  }

  lemma GreaterSquare(d: real, b: real, dd: real, db: real)
    requires d > b >= 0.0 && dd == d * d && db == d * b
    ensures dd > db
  {
    GrowsStrictly(d, d, b);
  }

  lemma LesserSquare(d: real, b: real, db: real, bb: real)
    requires d > b >= 0.0 && db == d * b && bb == b * b
    ensures db >= bb
  {
    Grows(b, d, b);
  }

  lemma SquareExceeds(d: real, b: real)
    requires b >= 0.0
    ensures Square(d) >= 0.0
    ensures d > b || d < -b ==> Square(d) > Square(b)
  {
    assert Square(-d) == Square(d);
    if d > b { BetweenSquares(d, b, Square(d), d * b, Square(b)); }
    if d < -b { BetweenSquares(-d, b, Square(-d), -d * b, Square(b)); }
  }

  lemma OneMore(n: nat, x: real)
    ensures (n + 1) as real * x == n as real * x + x
  {
  }

  /** Each close outside the band of half-width b contributes more than b squared. */
  lemma {:induction false} OutsideWeighs(closes: seq<real>, mid: real, b: real, bb: real, lo: nat, hi: nat)
    requires lo <= hi <= |closes| && b >= 0.0 && bb == Square(b)
    ensures var n := Outside(closes, mid + b, mid - b, lo, hi);
      && SquaredDeviations(closes, mid, lo, hi) >= n as real * bb
      && (n > 0 ==> SquaredDeviations(closes, mid, lo, hi) > n as real * bb)
    decreases hi
  {
    if lo < hi {
      OutsideWeighs(closes, mid, b, bb, lo, hi - 1);
      SquareExceeds(closes[hi - 1] - mid, b);
      OneMore(Outside(closes, mid + b, mid - b, lo, hi - 1), bb);
    }
  }

  lemma {:induction false} DeviationsNonNegative(closes: seq<real>, mid: real, lo: nat, hi: nat)
    requires lo <= hi <= |closes|
    ensures SquaredDeviations(closes, mid, lo, hi) >= 0.0
    decreases hi
  {
    if lo < hi {
      DeviationsNonNegative(closes, mid, lo, hi - 1);
      SquareExceeds(closes[hi - 1] - mid, 0.0);
    }
  }

  lemma Cancel(v: real, x: real, y: real)
    requires v >= 0.0 && v * x < v * y
    ensures x < y
  {
  }

  lemma CancelVariance(n: real, m: real, sd: real, p: real)
    requires n * Square(sd * m) < sd * sd * p
    ensures n * (m * m) < p
  {
    var v := sd * sd;
    assert Square(sd * m) == v * (m * m);
    assert n * (v * (m * m)) == v * (n * (m * m));
    Cancel(v, n * (m * m), p);
  }

  /** Main result (Chebyshev): for any positive multiplier m, the number of the window's closes strictly
      outside the bands, times m squared, is below the period. */
  lemma FewClosesOutside(closes: seq<real>, period: int, multiplier: real, sqrt: Root, i: nat)
    requires IsRoot(sqrt) && multiplier > 0.0 && i < |closes|
    requires BandsAt(closes, period, multiplier, sqrt, i).Some?
    ensures var bands := BandsAt(closes, period, multiplier, sqrt, i).value;
      Outside(closes, bands.upper, bands.lower, i - period + 1, i + 1) as real * (multiplier * multiplier)
        < period as real
  {
    var lo := i - period + 1;
    var mid := Sum(closes, lo, i + 1) / period as real;
    var total := SquaredDeviations(closes, mid, lo, i + 1);
    DeviationsNonNegative(closes, mid, lo, i + 1);
    RootOfMean(sqrt, total, period as real);
    var sd := sqrt(total / period as real);
    var bands := BandsAt(closes, period, multiplier, sqrt, i).value;
    assert bands == MakeBands(mid, sd, multiplier);
    FewOutsideDeviation(closes, mid, sd, bands, multiplier, lo, i + 1, period as real);
  }

  lemma FewOutsideDeviation(closes: seq<real>, mid: real, sd: real, bands: Bands, m: real, lo: nat, hi: nat, p: real)
    requires lo <= hi <= |closes| && sd >= 0.0 && m > 0.0 && p > 0.0
    requires sd * sd * p == SquaredDeviations(closes, mid, lo, hi) && bands == MakeBands(mid, sd, m)
    ensures Outside(closes, bands.upper, bands.lower, lo, hi) as real * (m * m) < p
  {
    hide SquaredDeviations, Outside, Square;
    HalfWidth(sd, m);
    var b := sd * m;
    OutsideWeighs(closes, mid, b, Square(b), lo, hi);
    var n := Outside(closes, mid + b, mid - b, lo, hi);
    if n > 0 { CancelVariance(n as real, m, sd, p); }
  }

  lemma RootOfMean(sqrt: Root, total: real, p: real)
    requires IsRoot(sqrt) && total >= 0.0 && p > 0.0
    ensures sqrt(total / p) >= 0.0 && sqrt(total / p) * sqrt(total / p) * p == total
  {
    assert total / p >= 0.0;
    assert total / p * p == total;
  }

  lemma HalfWidth(sd: real, m: real)
    requires sd >= 0.0 && m > 0.0
    ensures sd * m >= 0.0
  {
  }

  function Squares(xs: seq<real>): (r: seq<real>)
    ensures |r| == |xs| && forall j | 0 <= j < |r| :: r[j] == xs[j] * xs[j]
  {
    seq(|xs|, j requires 0 <= j < |xs| => xs[j] * xs[j])
  }

  ghost predicate Expands(total: real, squares: real, sum: real, mid: real, n: real) {
    total == squares - 2.0 * mid * sum + n * (mid * mid)
  }

  lemma {:induction false} DeviationsExpand(closes: seq<real>, mid: real, lo: nat, hi: nat)
    requires lo <= hi <= |closes|
    ensures Expands(SquaredDeviations(closes, mid, lo, hi), Sum(Squares(closes), lo, hi), Sum(closes, lo, hi), mid,
                    (hi - lo) as real)
    decreases hi
  {
    if lo == hi {
      NothingExpands(mid);
    } else {
      hide Expands;
      DeviationsExpand(closes, mid, lo, hi - 1);
      NextSums(closes, mid, lo, hi);
      hide *;
      ExpandNext(closes[hi - 1], mid,
                 SquaredDeviations(closes, mid, lo, hi - 1), SquaredDeviations(closes, mid, lo, hi),
                 Sum(Squares(closes), lo, hi - 1), Sum(Squares(closes), lo, hi),
                 Sum(closes, lo, hi - 1), Sum(closes, lo, hi), (hi - 1 - lo) as real, (hi - lo) as real);
    }
  }

  lemma NothingExpands(mid: real)
    ensures Expands(0.0, 0.0, 0.0, mid, 0.0)
  {
  }

  lemma NextSums(closes: seq<real>, mid: real, lo: nat, hi: nat)
    requires lo < hi <= |closes|
    ensures var x := closes[hi - 1];
      && Sum(closes, lo, hi) == Sum(closes, lo, hi - 1) + x
      && Sum(Squares(closes), lo, hi) == Sum(Squares(closes), lo, hi - 1) + x * x
      && SquaredDeviations(closes, mid, lo, hi) == SquaredDeviations(closes, mid, lo, hi - 1) + Square(x - mid)
  {
    hide Square;
  }

  lemma ExpandNext(x: real, mid: real, total: real, total': real, squares: real, squares': real,
                   sum: real, sum': real, n: real, n': real)
    requires Expands(total, squares, sum, mid, n)
    requires total' == total + Square(x - mid) && squares' == squares + x * x && sum' == sum + x && n' == n + 1.0
    ensures Expands(total', squares', sum', mid, n')
  {
    assert Square(x - mid) == x * x - 2.0 * mid * x + mid * mid;
    Distribute(2.0 * mid, sum, x);
    Distribute(mid * mid, n, 1.0);
  }

  lemma MeanOfSquares(total: real, sum: real, squares: real, mid: real, n: real)
    requires n > 0.0 && mid * n == sum && Expands(total, squares, sum, mid, n)
    ensures total == squares - mid * sum
  {
    assert n * (mid * mid) == mid * (mid * n);
  }

  lemma HalfSpread(mid: real, sd: real, m: real)
    ensures var bands := MakeBands(mid, sd, m); var half := (bands.upper - bands.lower) / 2.0;
      half == sd * m && half * half == m * m * (sd * sd) && (bands.upper + bands.lower) / 2.0 == mid
  {
    var x := sd * m;
    assert x * x == m * m * (sd * sd);
  }

  /** Main result, how wide the bands are: they lie evenly about the SMA, apart by twice the multiplier times
      the standard deviation, whose square is the mean of the squares less the square of the mean. */
  lemma BandsAre(closes: seq<real>, period: int, multiplier: real, sqrt: Root, i: nat)
    requires IsRoot(sqrt) && i < |closes| && BandsAt(closes, period, multiplier, sqrt, i).Some?
    ensures var bands, lo := BandsAt(closes, period, multiplier, sqrt, i).value, i - period + 1;
      var half := (bands.upper - bands.lower) / 2.0;
      && M.SmaAt(closes, period, i) == Some(bands.middle) && (bands.upper + bands.lower) / 2.0 == bands.middle
      && half * half * period as real ==
           multiplier * multiplier * (Sum(Squares(closes), lo, i + 1) - bands.middle * Sum(closes, lo, i + 1))
      && bands.width == (if bands.middle != 0.0 then Some((bands.upper - bands.lower) / bands.middle) else None)
      && (multiplier >= 0.0 ==> bands.upper >= bands.lower)
  {
    hide IsRoot, SquaredDeviations, Sum, Squares, Expands;
    var lo, p := i - period + 1, period as real;
    var sum := Sum(closes, lo, i + 1);
    var mid := sum / p;
    var total := SquaredDeviations(closes, mid, lo, i + 1);
    DeviationsNonNegative(closes, mid, lo, i + 1);
    RootOfMean(sqrt, total, p);
    var sd := sqrt(total / p);
    HalfSpread(mid, sd, multiplier);
    if multiplier >= 0.0 { Product(sd, multiplier); }
    DeviationsExpand(closes, mid, lo, i + 1);
    assert mid * p == sum;
    MeanOfSquares(total, sum, Sum(Squares(closes), lo, i + 1), mid, p);
    assert multiplier * multiplier * (sd * sd) * p == multiplier * multiplier * (sd * sd * p);
  }

  // ------------------------------------------------------------------ Donchian channels

  /** (upper, middle, lower): the window's highest high and lowest low, and half their sum. */
  function DonchianAt(candles: seq<Candle>, period: int, i: nat): Option<(real, real, real)>
    requires i < |candles|
  {
    if period <= 0 || i < period - 1 then None
    else
      var h, l := Highest(Highs(candles), i - period + 1, i + 1), Lowest(Lows(candles), i - period + 1, i + 1);
      Some((h, (h + l) / 2.0, l))
  }

  lemma DonchianNoLookahead(candles: seq<Candle>, period: int, k: nat, i: nat)
    requires i < k <= |candles|
    ensures DonchianAt(candles[..k], period, i) == DonchianAt(candles, period, i)
  {
    if period > 0 && i >= period - 1 {
      PrefixHighsLows(candles, k);
      ExtremesOfPrefix(Highs(candles), k, i - period + 1, i + 1);
      ExtremesOfPrefix(Lows(candles), k, i - period + 1, i + 1);
    }
  }

  /** Main result: the channel is the tightest that holds the window's bars: its edges bound every high and
      low of the last `period` bars and are attained, and its middle is halfway. */
  lemma DonchianIsTight(candles: seq<Candle>, period: int, i: nat)
    requires i < |candles|
    ensures match DonchianAt(candles, period, i)
      case None => period <= 0 || i < period - 1
      case Some((upper, middle, lower)) =>
        && period > 0 && i >= period - 1 && middle == (upper + lower) / 2.0
        && (forall j | i - period < j <= i :: candles[j].high <= upper && lower <= candles[j].low)
        && (exists j | i - period < j <= i :: candles[j].high == upper)
        && (exists j | i - period < j <= i :: candles[j].low == lower)
  {
    if period > 0 && i >= period - 1 {
      hide Highest, Lowest;
      HighestIsHigh(candles, i - period + 1, i + 1);
      LowestIsLow(candles, i - period + 1, i + 1);
    }
  }

  lemma HighestIsHigh(candles: seq<Candle>, lo: nat, hi: nat)
    requires lo < hi <= |candles|
    ensures forall j | lo <= j < hi :: candles[j].high <= Highest(Highs(candles), lo, hi)
    ensures exists j | lo <= j < hi :: candles[j].high == Highest(Highs(candles), lo, hi)
  {
    hide Highest;
    ExtremesAre(Highs(candles), lo, hi);
    var window := Highs(candles)[lo..hi];
    var k :| 0 <= k < |window| && window[k] == Highest(Highs(candles), lo, hi);
    assert candles[lo + k].high == window[k];
    forall j | lo <= j < hi ensures candles[j].high <= Highest(Highs(candles), lo, hi) {
      assert Highs(candles)[j] == candles[j].high;
    }
  }

  lemma LowestIsLow(candles: seq<Candle>, lo: nat, hi: nat)
    requires lo < hi <= |candles|
    ensures forall j | lo <= j < hi :: Lowest(Lows(candles), lo, hi) <= candles[j].low
    ensures exists j | lo <= j < hi :: candles[j].low == Lowest(Lows(candles), lo, hi)
  {
    hide Lowest;
    ExtremesAre(Lows(candles), lo, hi);
    var window := Lows(candles)[lo..hi];
    var k :| 0 <= k < |window| && window[k] == Lowest(Lows(candles), lo, hi);
    assert candles[lo + k].low == window[k];
    forall j | lo <= j < hi ensures Lowest(Lows(candles), lo, hi) <= candles[j].low {
      assert Lows(candles)[j] == candles[j].low;
    }
  }

  // ------------------------------------------------------------------ Stochastic oscillator

  /** Where in its range the close lies, in percent. */
  function Position(close: real, h: real, l: real): real {
    if h - l > 0.0 then (close - l) / (h - l) * 100.0 else 50.0
  }

  function PercentK(candles: seq<Candle>, period: int, i: nat): real
    requires period >= 1 && period - 1 <= i < |candles|
  {
    var h, l := Highest(Highs(candles), i - period + 1, i + 1), Lowest(Lows(candles), i - period + 1, i + 1);
    Position(candles[i].close, h, l)
  }

  function StochasticAt(candles: seq<Candle>, period: int, i: nat): Option<real>
    requires i < |candles|
  {
    if period <= 0 || i < period - 1 then None else Some(PercentK(candles, period, i))
  }

  /** %K from its first defined bar on. */
  function KValues(candles: seq<Candle>, period: int): (ks: seq<real>)
    requires period >= 1
    ensures |ks| == if |candles| < period then 0 else |candles| - (period - 1)
    ensures forall j | 0 <= j < |ks| :: ks[j] == PercentK(candles, period, period - 1 + j)
  {
    if |candles| < period then []
    else
      seq(|candles| - (period - 1), j requires 0 <= j < |candles| - (period - 1) =>
        PercentK(candles, period, period - 1 + j))
  }

  /** %D: the SMA of %K, aligned with the bars. */
  function PercentDAt(candles: seq<Candle>, kPeriod: int, dPeriod: int, i: nat): Option<real>
    requires i < |candles|
  {
    if kPeriod <= 0 || i < kPeriod - 1 then None else M.SmaAt(KValues(candles, kPeriod), dPeriod, i - (kPeriod - 1))
  }

  lemma PercentKOfPrefix(candles: seq<Candle>, period: int, k: nat, i: nat)
    requires period >= 1 && period - 1 <= i < k <= |candles|
    ensures PercentK(candles[..k], period, i) == PercentK(candles, period, i)
  {
    PrefixHighsLows(candles, k);
    ExtremesOfPrefix(Highs(candles), k, i - period + 1, i + 1);
    ExtremesOfPrefix(Lows(candles), k, i - period + 1, i + 1);
  }

  lemma KValuesOfPrefix(candles: seq<Candle>, period: int, k: nat)
    requires 1 <= period <= k <= |candles|
    ensures KValues(candles[..k], period) == KValues(candles, period)[..k - (period - 1)]
  {
    hide PercentK;
    var first := period - 1;
    forall j | 0 <= j < k - first ensures KValues(candles[..k], period)[j] == KValues(candles, period)[j] {
      PercentKOfPrefix(candles, period, k, first + j);
    }
  }

  lemma StochasticNoLookahead(candles: seq<Candle>, kPeriod: int, dPeriod: int, k: nat, i: nat)
    requires i < k <= |candles|
    ensures StochasticAt(candles[..k], kPeriod, i) == StochasticAt(candles, kPeriod, i)
    ensures PercentDAt(candles[..k], kPeriod, dPeriod, i) == PercentDAt(candles, kPeriod, dPeriod, i)
  {
    if kPeriod > 0 && i >= kPeriod - 1 {
      hide PercentK;
      var first := kPeriod - 1;
      PercentKOfPrefix(candles, kPeriod, k, i);
      KValuesOfPrefix(candles, kPeriod, k);
      M.SmaNoLookahead(KValues(candles, kPeriod), dPeriod, k - first, i - first);
    }
  }

  lemma {:induction false} SumOfSlice(xs: seq<real>, lo: nat, hi: nat, n: nat)
    requires lo + n <= hi <= |xs|
    ensures Sum(xs[lo..hi], 0, n) == Sum(xs, lo, lo + n)
    decreases n
  {
    if n > 0 { SumOfSlice(xs, lo, hi, n - 1); }
  }

  /** Main result, %D: it is there from the bar on that completes dPeriod values of %K, and is the mean of the
      last dPeriod of them, each at its own bar. */
  lemma PercentDIsMean(candles: seq<Candle>, kPeriod: int, dPeriod: int, i: nat) returns (last: seq<real>)
    requires i < |candles|
    ensures PercentDAt(candles, kPeriod, dPeriod, i).Some? <==>
      kPeriod >= 1 && dPeriod >= 1 && i + 2 >= kPeriod + dPeriod
    ensures PercentDAt(candles, kPeriod, dPeriod, i).Some? ==>
      && |last| == dPeriod
      && (forall j | 0 <= j < dPeriod :: StochasticAt(candles, kPeriod, i + 1 - dPeriod + j) == Some(last[j]))
      && PercentDAt(candles, kPeriod, dPeriod, i).value == Sum(last, 0, dPeriod) / dPeriod as real
  {
    last := [];
    if PercentDAt(candles, kPeriod, dPeriod, i).Some? {
      last := LastPercentK(candles, kPeriod, dPeriod, i);
    }
  }

  lemma LastPercentK(candles: seq<Candle>, kPeriod: int, dPeriod: int, i: nat) returns (last: seq<real>)
    requires i < |candles| && kPeriod >= 1 && dPeriod >= 1 && i + 2 >= kPeriod + dPeriod
    ensures |last| == dPeriod
    ensures forall j | 0 <= j < dPeriod :: StochasticAt(candles, kPeriod, i + 1 - dPeriod + j) == Some(last[j])
    ensures PercentDAt(candles, kPeriod, dPeriod, i) == Some(Sum(last, 0, dPeriod) / dPeriod as real)
  {
    var ks, end := KValues(candles, kPeriod), i - (kPeriod - 1) + 1;
    last := ks[end - dPeriod..end];
    hide PercentK, Sum;
    forall j | 0 <= j < dPeriod ensures StochasticAt(candles, kPeriod, i + 1 - dPeriod + j) == Some(last[j]) {
      assert last[j] == ks[end - dPeriod + j] == PercentK(candles, kPeriod, kPeriod - 1 + (end - dPeriod + j));
    }
    SumOfSlice(ks, end - dPeriod, end, dPeriod);
    MeanOfLast(ks, dPeriod, end - 1);
  }

  lemma MeanOfLast(ks: seq<real>, period: int, e: nat)
    requires period >= 1 && period - 1 <= e < |ks|
    ensures M.SmaAt(ks, period, e) == Some(Sum(ks, e - period + 1, e + 1) / period as real)
  {
  }

  /** When the bands and %K are there: never for a period below 1, else from the first complete window on. */
  lemma WarmUp(closes: seq<real>, candles: seq<Candle>, period: int, multiplier: real, sqrt: Root, i: nat)
    ensures i < |closes| ==> (BandsAt(closes, period, multiplier, sqrt, i).Some? <==> period >= 1 && i + 1 >= period)
    ensures i < |candles| ==> (StochasticAt(candles, period, i).Some? <==> period >= 1 && i + 1 >= period)
  {
  }

  /** Main result, what %K measures: it and the Donchian channel of the same window give the close back; in a
      window without any range it is 50. */
  lemma PercentKGivesClose(candles: seq<Candle>, period: int, i: nat)
    requires i < |candles| && StochasticAt(candles, period, i).Some?
    ensures DonchianAt(candles, period, i).Some?
    ensures var k := StochasticAt(candles, period, i).value;
      var (upper, _, lower) := DonchianAt(candles, period, i).value;
      if upper > lower then lower + k / 100.0 * (upper - lower) == candles[i].close else k == 50.0
  {
    hide Highest, Lowest;
    var (upper, _, lower) := DonchianAt(candles, period, i).value;
    if upper > lower { PositionInverse(candles[i].close, upper, lower); }
  }

  lemma PositionInverse(close: real, h: real, l: real)
    requires h > l
    ensures l + Position(close, h, l) / 100.0 * (h - l) == close
  {
    var q := (close - l) / (h - l);
    assert q * (h - l) == close - l;
    assert q * 100.0 / 100.0 == q;
  }

  /** On bars with low <= close <= high, %K lies in [0, 100]. */
  lemma PercentKBounds(candles: seq<Candle>, period: int, i: nat)
    requires period >= 1 && period - 1 <= i < |candles| && Proper(candles[i])
    ensures 0.0 <= PercentK(candles, period, i) <= 100.0
  {
    hide Highest, Lowest, Position;
    var h, l := Highest(Highs(candles), i - period + 1, i + 1), Lowest(Lows(candles), i - period + 1, i + 1);
    ExtremesAre(Highs(candles), i - period + 1, i + 1);
    ExtremesAre(Lows(candles), i - period + 1, i + 1);
    assert Highs(candles)[i] <= h && l <= Lows(candles)[i];
    PositionBetween(candles[i].close, h, l);
  }

  lemma PositionBetween(close: real, h: real, l: real)
    requires l <= close <= h
    ensures 0.0 <= Position(close, h, l) <= 100.0
  {
    if h - l > 0.0 { RatioBetween(close - l, h - l); }
  }

  lemma RatioBetween(x: real, y: real)
    requires 0.0 <= x <= y && y > 0.0
    ensures 0.0 <= x / y <= 1.0
  {
  }

  // ------------------------------------------------------------------ VWAP

  function IstDay(c: Candle): Option<int> {
    if c.tsMs.None? then None else Some(IstClock.IstDay(c.tsMs.value))
  }

  /** The session in force after bar i: the IST day of the last bar so far that carries a time. */
  function Session(candles: seq<Candle>, i: nat): Option<int>
    requires i < |candles|
  {
    if IstDay(candles[i]).Some? then IstDay(candles[i]) else if i == 0 then None else Session(candles, i - 1)
  }

  /** The first bar of the session bar i belongs to. */
  function SessionStart(candles: seq<Candle>, i: nat): (start: nat)
    requires i < |candles|
    ensures start <= i
  {
    if i == 0 then 0
    else if IstDay(candles[i]).Some? && Session(candles, i - 1) != IstDay(candles[i]) then i
    else SessionStart(candles, i - 1)
  }

  function Typical(c: Candle): real {
    (c.high + c.low + c.close) / 3.0
  }

  function Turnover(c: Candle): real {
    Typical(c) * c.volume
  }

  function PriceVolume(candles: seq<Candle>, lo: nat, hi: nat): real
    requires lo <= hi <= |candles|
    decreases hi
  {
    if lo == hi then 0.0 else PriceVolume(candles, lo, hi - 1) + Turnover(candles[hi - 1])
  }

  function Volume(candles: seq<Candle>, lo: nat, hi: nat): real
    requires lo <= hi <= |candles|
    decreases hi
  {
    if lo == hi then 0.0 else Volume(candles, lo, hi - 1) + candles[hi - 1].volume
  }

  /** The volume-weighted typical price since the session began. */
  function VwapAt(candles: seq<Candle>, i: nat): Option<real>
    requires i < |candles|
  {
    var start := SessionStart(candles, i);
    var volume := Volume(candles, start, i + 1);
    if volume > 0.0 then Some(PriceVolume(candles, start, i + 1) / volume) else None
  }

  function Volumes(candles: seq<Candle>): (r: seq<real>)
    ensures |r| == |candles| && forall j | 0 <= j < |r| :: r[j] == candles[j].volume
  {
    seq(|candles|, j requires 0 <= j < |candles| => candles[j].volume)
  }

  /** High plus low plus close, times volume. */
  function Weighted(candles: seq<Candle>): (r: seq<real>)
    ensures |r| == |candles|
    ensures forall j | 0 <= j < |r| ::
      r[j] == (candles[j].high + candles[j].low + candles[j].close) * candles[j].volume
  {
    seq(|candles|, j requires 0 <= j < |candles| =>
      (candles[j].high + candles[j].low + candles[j].close) * candles[j].volume)
  }

  lemma {:induction false} TotalsAreSums(candles: seq<Candle>, lo: nat, hi: nat)
    requires lo <= hi <= |candles|
    ensures Volume(candles, lo, hi) == Sum(Volumes(candles), lo, hi)
    ensures 3.0 * PriceVolume(candles, lo, hi) == Sum(Weighted(candles), lo, hi)
    decreases hi
  {
    if lo < hi {
      TotalsAreSums(candles, lo, hi - 1);
      ThreeTimes(candles[hi - 1]);
    }
  }

  lemma ThreeTimes(c: Candle)
    ensures 3.0 * Turnover(c) == (c.high + c.low + c.close) * c.volume
  {
    var sum := c.high + c.low + c.close;
    assert sum / 3.0 * 3.0 == sum;
    assert 3.0 * (sum / 3.0 * c.volume) == sum / 3.0 * 3.0 * c.volume;
  }

  /** Main result, what the VWAP is: over the session's bars, the sum of (high + low + close) times volume is
      three times it times the sum of the volumes; it is there exactly when that sum is positive. */
  lemma VwapIsWeightedMean(candles: seq<Candle>, i: nat)
    requires i < |candles|
    ensures var start := SessionStart(candles, i);
      var volume := Sum(Volumes(candles), start, i + 1);
      && (VwapAt(candles, i).Some? <==> volume > 0.0)
      && (volume > 0.0 ==> VwapAt(candles, i).value * 3.0 * volume == Sum(Weighted(candles), start, i + 1))
  {
    hide PriceVolume, Volume, Sum, SessionStart;
    var start := SessionStart(candles, i);
    TotalsAreSums(candles, start, i + 1);
    var volume, traded := Volume(candles, start, i + 1), PriceVolume(candles, start, i + 1);
    if volume > 0.0 { TripleMean(traded, volume); }
  }

  lemma TripleMean(traded: real, volume: real)
    requires volume > 0.0
    ensures traded / volume * 3.0 * volume == 3.0 * traded
  {
    var q := traded / volume;
    assert q * volume == traded;
  }

  /** A session is one IST day: its timed bars share the day, and it began where the day changed. */
  lemma {:induction false} SessionIsOneDay(candles: seq<Candle>, i: nat)
    requires i < |candles|
    ensures var start := SessionStart(candles, i);
      && (forall j | start <= j <= i :: IstDay(candles[j]).Some? && Session(candles, start).Some? ==>
            IstDay(candles[j]) == Session(candles, i))
      && (start > 0 ==> IstDay(candles[start]).Some? && Session(candles, start - 1) != IstDay(candles[start]))
  {
    if i > 0 && SessionStart(candles, i) != i {
      SessionIsOneDay(candles, i - 1);
      SessionSurvives(candles, SessionStart(candles, i), i - 1);
    }
  }

  /** Once a session has a day it keeps having one. */
  lemma {:induction false} SessionSurvives(candles: seq<Candle>, start: nat, i: nat)
    requires start <= i < |candles|
    ensures Session(candles, start).Some? ==> Session(candles, i).Some?
  {
    if start < i { SessionSurvives(candles, start, i - 1); }
  }

  lemma {:induction false} SessionOfPrefix(candles: seq<Candle>, k: nat, i: nat)
    requires i < k <= |candles|
    ensures Session(candles[..k], i) == Session(candles, i)
    ensures SessionStart(candles[..k], i) == SessionStart(candles, i)
  {
    if i > 0 { SessionOfPrefix(candles, k, i - 1); }
  }

  lemma {:induction false} TotalsOfPrefix(candles: seq<Candle>, k: nat, lo: nat, hi: nat)
    requires lo <= hi <= k <= |candles|
    ensures PriceVolume(candles[..k], lo, hi) == PriceVolume(candles, lo, hi)
    ensures Volume(candles[..k], lo, hi) == Volume(candles, lo, hi)
    decreases hi
  {
    if lo < hi { TotalsOfPrefix(candles, k, lo, hi - 1); }
  }

  lemma VwapNoLookahead(candles: seq<Candle>, k: nat, i: nat)
    requires i < k <= |candles|
    ensures VwapAt(candles[..k], i) == VwapAt(candles, i)
  {
    SessionOfPrefix(candles, k, i);
    TotalsOfPrefix(candles, k, SessionStart(candles, i), i + 1);
  }

  lemma TurnoverBetween(c: Candle, lo: real, hi: real)
    requires lo <= Typical(c) <= hi && c.volume >= 0.0
    ensures lo * c.volume <= Turnover(c) <= hi * c.volume
  {
  }

  lemma NextTotals(candles: seq<Candle>, lo: nat, hi: nat)
    requires lo <= hi <= |candles|
    ensures Volume(candles, lo, hi) == if lo == hi then 0.0 else Volume(candles, lo, hi - 1) + candles[hi - 1].volume
    ensures PriceVolume(candles, lo, hi) ==
      if lo == hi then 0.0 else PriceVolume(candles, lo, hi - 1) + Turnover(candles[hi - 1])
  {
  }

  lemma AddBetween(volume: real, traded: real, v: real, t: real, volume': real, traded': real, lo: real, hi: real)
    requires lo * volume <= traded <= hi * volume && lo * v <= t <= hi * v
    requires volume' == volume + v && traded' == traded + t
    ensures lo * volume' <= traded' <= hi * volume'
  {
    Distribute(lo, volume, v);
    Distribute(hi, volume, v);
  }

  lemma {:induction false} TotalsBetween(candles: seq<Candle>, lo: nat, hi: nat, low: real, high: real)
    requires lo <= hi <= |candles|
    requires forall j | lo <= j < hi :: candles[j].volume >= 0.0 && low <= Typical(candles[j]) <= high
    ensures low * Volume(candles, lo, hi) <= PriceVolume(candles, lo, hi) <= high * Volume(candles, lo, hi)
    decreases hi
  {
    hide Turnover, Typical, Volume, PriceVolume;
    NextTotals(candles, lo, hi);
    if lo < hi {
      TotalsBetween(candles, lo, hi - 1, low, high);
      var c := candles[hi - 1];
      TurnoverBetween(c, low, high);
      AddBetween(Volume(candles, lo, hi - 1), PriceVolume(candles, lo, hi - 1), c.volume, Turnover(c),
                 Volume(candles, lo, hi), PriceVolume(candles, lo, hi), low, high);
    }
  }

  lemma TypicalBetween(candles: seq<Candle>, lo: nat, hi: nat, j: nat)
    requires lo <= j < hi <= |candles| && Proper(candles[j])
    ensures Lowest(Lows(candles), lo, hi) <= Typical(candles[j]) <= Highest(Highs(candles), lo, hi)
  {
    ExtremesAre(Highs(candles), lo, hi);
    ExtremesAre(Lows(candles), lo, hi);
    assert Lowest(Lows(candles), lo, hi) <= Lows(candles)[j] && Highs(candles)[j] <= Highest(Highs(candles), lo, hi);
  }

  /** Main result: for non-negative volumes and bars with low <= close <= high the VWAP lies between the
      session's lowest low and highest high. */
  lemma VwapWithinSession(candles: seq<Candle>, i: nat)
    requires i < |candles| && VwapAt(candles, i).Some?
    requires forall c <- candles :: c.volume >= 0.0 && Proper(c)
    ensures var start := SessionStart(candles, i);
      Lowest(Lows(candles), start, i + 1) <= VwapAt(candles, i).value <= Highest(Highs(candles), start, i + 1)
  {
    hide Highest, Lowest, PriceVolume, Volume, Turnover, Typical, Session, SessionStart;
    var start := SessionStart(candles, i);
    var low, high := Lowest(Lows(candles), start, i + 1), Highest(Highs(candles), start, i + 1);
    forall j | start <= j <= i ensures candles[j].volume >= 0.0 && low <= Typical(candles[j]) <= high {
      assert Proper(candles[j]);
      TypicalBetween(candles, start, i + 1, j);
    }
    TotalsBetween(candles, start, i + 1, low, high);
    QuotientBetween(PriceVolume(candles, start, i + 1), low, high, Volume(candles, start, i + 1));
  }
}
