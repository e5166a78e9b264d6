/** The Wilder-smoothed indicators of shared/indicators/canonical.ts: RSI, ATR and ADX with its
    directional indicators. */
module Wilder {
  import opened Basics
  import opened Series
  import M = MovingAverages

  function Step(prev: real, x: real, period: real): real
    requires period != 0.0
  {
    (prev * (period - 1.0) + x) / period
  }

  function Mean(xs: seq<real>, lo: nat, period: int): real
    requires period >= 1 && lo + period <= |xs|
  {
    Sum(xs, lo, lo + period) / period as real
  }

  /** Wilder's average of xs: the mean of xs[first..first + period], then
      (previous * (period - 1) + x) / period for each later x. */
  function Average(xs: seq<real>, period: int, first: nat, i: nat): real
    requires period >= 1 && first + period - 1 <= i < |xs|
    decreases i
  {
    if i == first + period - 1 then Mean(xs, first, period)
    else Step(Average(xs, period, first, i - 1), xs[i], period as real)
  }

  lemma {:induction false} AverageOfPrefix(xs: seq<real>, period: int, first: nat, k: nat, i: nat)
    requires period >= 1 && first + period - 1 <= i < k <= |xs|
    ensures Average(xs[..k], period, first, i) == Average(xs, period, first, i)
    decreases i
  {
    if i == first + period - 1 { SumOfPrefix(xs, k, first, first + period); }
    else { AverageOfPrefix(xs, period, first, k, i - 1); }
  }

  /** One Wilder step stays between bounds its inputs respect. */
  lemma StepBetween(prev: real, x: real, p: real, lo: real, hi: real)
    requires p >= 1.0 && lo <= prev <= hi && lo <= x <= hi
    ensures lo <= Step(prev, x, p) <= hi
  {
    Product(prev - lo, p - 1.0);
    Product(hi - prev, p - 1.0);
    QuotientBetween(prev * (p - 1.0) + x, lo, hi, p);
  }

  lemma {:induction false} AverageAdds(xs: seq<real>, ys: seq<real>, zs: seq<real>, period: int, first: nat, i: nat)
    requires period >= 1 && first + period - 1 <= i < |xs| && |ys| == |zs| == |xs|
    requires forall j | first <= j <= i :: xs[j] == ys[j] + zs[j]
    ensures Average(xs, period, first, i) == Average(ys, period, first, i) + Average(zs, period, first, i)
    decreases i
  {
    hide Step, Sum;
    if i == first + period - 1 {
      SumAdds(xs, ys, zs, first, first + period);
      QuotientAdds(Sum(ys, first, first + period), Sum(zs, first, first + period), period as real);
    } else {
      AverageAdds(xs, ys, zs, period, first, i - 1);
      StepAdds(Average(ys, period, first, i - 1), ys[i], Average(zs, period, first, i - 1), zs[i], period as real);
    }
  }

  lemma {:induction false} SumAdds(xs: seq<real>, ys: seq<real>, zs: seq<real>, lo: nat, hi: nat)
    requires lo <= hi <= |xs| && |ys| == |zs| == |xs| && forall j | lo <= j < hi :: xs[j] == ys[j] + zs[j]
    ensures Sum(xs, lo, hi) == Sum(ys, lo, hi) + Sum(zs, lo, hi)
    decreases hi
  {
    if lo < hi { SumAdds(xs, ys, zs, lo, hi - 1); }
  }

  lemma QuotientAdds(a: real, b: real, p: real)
    requires p != 0.0
    ensures (a + b) / p == a / p + b / p
  {
  }

  lemma StepAdds(a: real, x: real, b: real, y: real, p: real)
    requires p != 0.0
    ensures Step(a + b, x + y, p) == Step(a, x, p) + Step(b, y, p)
  {
    Distribute(p - 1.0, a, b);
    QuotientAdds(a * (p - 1.0) + x, b * (p - 1.0) + y, p);
  }

  /** Wilder's average over p bars is, but for its seed, the EMA over 2p - 1: their difference shrinks by the
      factor 1 - 1/p each bar. */
  lemma {:induction false} AverageIsSlowEma(xs: seq<real>, period: int, i: nat)
    requires period >= 1 && 2 * period - 2 <= i < |xs|
    ensures var slow, s := 2 * period - 1, 2 * period - 2;
      Average(xs, period, 0, i) - M.Ema(xs, slow, i) ==
        M.Pow(1.0 - 1.0 / period as real, i - s) * (Average(xs, period, 0, s) - M.Ema(xs, slow, s))
    decreases i
  {
    hide Step, M.Pow, M.Smoothing, Sum, M.Blend;
    var slow, s, x := 2 * period - 1, 2 * period - 2, 1.0 - 1.0 / period as real;
    if i == s {
      PowNothing(x);
    } else {
      AverageIsSlowEma(xs, period, i - 1);
      M.PowNext(x, i - 1 - s);
      SlowSmoothing(period);
      StepApart(Average(xs, period, 0, i - 1), M.Ema(xs, slow, i - 1), xs[i], period as real);
      Reassociate(x, M.Pow(x, i - 1 - s), Average(xs, period, 0, s) - M.Ema(xs, slow, s));
    }
  }

  lemma PowNothing(x: real)
    ensures M.Pow(x, 0) == 1.0
  {
  }

  lemma SlowSmoothing(period: int)
    requires period >= 1
    ensures M.Smoothing(2 * period - 1) == 1.0 / period as real
  {
  }

  lemma StepApart(a: real, e: real, x: real, p: real)
    requires p != 0.0
    ensures Step(a, x, p) - M.Blend(1.0 / p, x, e) == (1.0 - 1.0 / p) * (a - e)
  {
    var k := 1.0 / p;
    assert k * p == 1.0;
    assert Step(a, x, p) == (a * (p - 1.0) + x) * k;
    assert (a * (p - 1.0) + x) * k == a * (p * k) - a * k + x * k;
  }

  lemma Reassociate(x: real, y: real, z: real)
    ensures x * y * z == x * (y * z)
  {
  }

  // ------------------------------------------------------------------ RSI

  /** Per-bar gains (bar 0 has none). */
  function Gains(closes: seq<real>): (g: seq<real>)
    ensures |g| == |closes| && forall i | 0 <= i < |g| :: g[i] >= 0.0
  {
    seq(|closes|, i requires 0 <= i < |closes| => if i == 0 then 0.0 else Max(closes[i] - closes[i - 1], 0.0))
  }

  function Losses(closes: seq<real>): (g: seq<real>)
    ensures |g| == |closes| && forall i | 0 <= i < |g| :: g[i] >= 0.0
  {
    seq(|closes|, i requires 0 <= i < |closes| => if i == 0 then 0.0 else Max(closes[i - 1] - closes[i], 0.0))
  }

  function Strength(gain: real, loss: real): real
    requires gain >= 0.0 && loss >= 0.0
  {
    if loss == 0.0 then 100.0 else if gain == 0.0 then 0.0 else 100.0 - 100.0 / (1.0 + gain / loss)
  }

  lemma {:induction false} AverageNonNegative(xs: seq<real>, period: int, first: nat, i: nat)
    requires period >= 1 && first + period - 1 <= i < |xs| && forall j | first <= j <= i :: xs[j] >= 0.0
    ensures Average(xs, period, first, i) >= 0.0
    decreases i
  {
    if i == first + period - 1 {
      SumNonNegative(xs, first, first + period);
      QuotientBetween(Sum(xs, first, first + period), 0.0, Sum(xs, first, first + period), period as real);
    } else {
      AverageNonNegative(xs, period, first, i - 1);
      Product(Average(xs, period, first, i - 1), period as real - 1.0);
    }
  }

  /** Every value keeps at least its share of the average it enters. */
  lemma AverageKeepsShare(xs: seq<real>, period: int, first: nat, i: nat)
    requires period >= 1 && first + period - 1 <= i < |xs| && forall j | first <= j <= i :: xs[j] >= 0.0
    ensures Average(xs, period, first, i) * period as real >= xs[i]
  {
    hide Sum, Step;
    if i == first + period - 1 {
      MeanKeepsShare(xs, first, period);
    } else {
      AverageNonNegative(xs, period, first, i - 1);
      StepKeepsShare(Average(xs, period, first, i - 1), xs[i], period as real);
    }
  }

  lemma MeanKeepsShare(xs: seq<real>, lo: nat, period: int)
    requires period >= 1 && lo + period <= |xs| && forall j | lo <= j < lo + period :: xs[j] >= 0.0
    ensures Mean(xs, lo, period) * period as real >= xs[lo + period - 1]
  {
    SumNonNegative(xs, lo, lo + period - 1);
    assert Sum(xs, lo, lo + period) == Sum(xs, lo, lo + period - 1) + xs[lo + period - 1];
    TimesOf(Sum(xs, lo, lo + period), period as real);
  }

  lemma StepKeepsShare(prev: real, x: real, p: real)
    requires prev >= 0.0 && p >= 1.0
    ensures Step(prev, x, p) * p >= x
  {
    Product(prev, p - 1.0);
    TimesOf(prev * (p - 1.0) + x, p);
  }

  lemma TimesOf(x: real, p: real)
    requires p != 0.0
    ensures x / p * p == x
  {
  }

  lemma {:induction false} SumNonNegative(xs: seq<real>, lo: nat, hi: nat)
    requires lo <= hi <= |xs| && forall j | lo <= j < hi :: xs[j] >= 0.0
    ensures Sum(xs, lo, hi) >= 0.0
    decreases hi
  {
    if lo < hi { SumNonNegative(xs, lo, hi - 1); }
  }

  function RsiAt(closes: seq<real>, period: int, i: nat): Option<real>
    requires i < |closes|
  {
    if period <= 0 || i < period then None
    else
      AverageNonNegative(Gains(closes), period, 1, i);
      AverageNonNegative(Losses(closes), period, 1, i);
      Some(Strength(Average(Gains(closes), period, 1, i), Average(Losses(closes), period, 1, i)))
  }

  lemma RsiNoLookahead(closes: seq<real>, period: int, k: nat, i: nat)
    requires i < k <= |closes|
    ensures RsiAt(closes[..k], period, i) == RsiAt(closes, period, i)
  {
    if period > 0 && i >= period {
      assert Gains(closes[..k]) == Gains(closes)[..k];
      assert Losses(closes[..k]) == Losses(closes)[..k];
      AverageOfPrefix(Gains(closes), period, 1, k, i);
      AverageOfPrefix(Losses(closes), period, 1, k, i);
    }
  }

  lemma StrengthBounds(gain: real, loss: real)
    requires gain >= 0.0 && loss >= 0.0
    ensures 0.0 <= Strength(gain, loss) <= 100.0
  {
    if loss != 0.0 && gain != 0.0 {
      var ratio := gain / loss;
      assert ratio > 0.0;
      assert 0.0 < 100.0 / (1.0 + ratio) <= 100.0;
    }
  }

  /** The bar-to-bar changes, signed, and their sizes. */
  function Changes(closes: seq<real>): (r: seq<real>)
    ensures |r| == |closes| && forall i | 1 <= i < |r| :: r[i] == closes[i] - closes[i - 1]
  {
    seq(|closes|, i requires 0 <= i < |closes| => if i == 0 then 0.0 else closes[i] - closes[i - 1])
  }

  function Sizes(xs: seq<real>): (r: seq<real>)
    ensures |r| == |xs| && forall i | 0 <= i < |r| :: r[i] == Abs(xs[i])
  {
    seq(|xs|, i requires 0 <= i < |xs| => Abs(xs[i]))
  }

  lemma StrengthIs(gain: real, loss: real)
    requires gain >= 0.0 && loss >= 0.0
    ensures gain + loss > 0.0 ==> Strength(gain, loss) == 100.0 * gain / (gain + loss)
    ensures gain + loss == 0.0 ==> Strength(gain, loss) == 100.0
  {
    if loss > 0.0 && gain > 0.0 {
      var q := gain / loss;
      assert q * loss == gain && q > 0.0;
      assert (1.0 + q) * loss == gain + loss;
      var inverse := 1.0 / (1.0 + q);
      assert inverse * (1.0 + q) == 1.0;
      assert inverse * (gain + loss) == inverse * (1.0 + q) * loss == loss;
      assert 100.0 / (1.0 + q) == 100.0 * inverse;
      assert (100.0 - 100.0 * inverse) * (gain + loss) == 100.0 * gain;
    } else if gain > 0.0 {
      assert 100.0 * gain / gain == 100.0;
    }
  }

  lemma HalfShare(gain: real, loss: real)
    requires gain + loss > 0.0
    ensures 100.0 * gain / (gain + loss) == 50.0 + 50.0 * ((gain - loss) / (gain + loss))
  {
    var size := gain + loss;
    var g, l := gain / size, loss / size;
    QuotientAdds(gain, loss, size);
    assert size / size == 1.0;
    QuotientAdds(gain - loss, loss, size);
    assert gain - loss + loss == gain;
    M.DivideProduct(100.0, gain, size);
    var x := (gain - loss) / size;
    assert g + l == 1.0 && x == g - l;
    assert 50.0 + 50.0 * x == 100.0 * g;
    assert 100.0 * gain / size == 100.0 * g;
  }

  lemma MovesAdd(closes: seq<real>)
    ensures forall j | 1 <= j < |closes| ::
      && Gains(closes)[j] == Changes(closes)[j] + Losses(closes)[j]
      && Sizes(Changes(closes))[j] == Gains(closes)[j] + Losses(closes)[j]
  {
  }

  lemma AveragesOfMoves(closes: seq<real>, period: int, i: nat)
    requires period >= 1 && period <= i < |closes|
    ensures var gain, loss := Average(Gains(closes), period, 1, i), Average(Losses(closes), period, 1, i);
      && gain == Average(Changes(closes), period, 1, i) + loss
      && Average(Sizes(Changes(closes)), period, 1, i) == gain + loss
  {
    var gains, losses, changes, sizes := Gains(closes), Losses(closes), Changes(closes), Sizes(Changes(closes));
    MovesAdd(closes);
    hide *;
    AverageAdds(gains, changes, losses, period, 1, i);
    AverageAdds(sizes, gains, losses, period, 1, i);
  }

  /** Main result, what the RSI measures: 50 plus 50 times the average change over the average size of a
      change, both Wilder's; and 100 on a flat series. */
  lemma RsiIsRelativeChange(closes: seq<real>, period: int, i: nat)
    requires i < |closes| && RsiAt(closes, period, i).Some?
    ensures var change, size := Average(Changes(closes), period, 1, i), Average(Sizes(Changes(closes)), period, 1, i);
      RsiAt(closes, period, i).value == if size > 0.0 then 50.0 + 50.0 * (change / size) else 100.0
  {
    hide Strength, Average, Sum;
    var gains, losses := Gains(closes), Losses(closes);
    var gain, loss := Average(gains, period, 1, i), Average(losses, period, 1, i);
    AverageNonNegative(gains, period, 1, i);
    AverageNonNegative(losses, period, 1, i);
    AveragesOfMoves(closes, period, i);
    StrengthIs(gain, loss);
    if gain + loss > 0.0 { HalfShare(gain, loss); }
  }

  /** Wherever it is defined the RSI lies in [0, 100]. */
  lemma RsiInRange(closes: seq<real>, period: int, i: nat)
    requires i < |closes| && RsiAt(closes, period, i).Some?
    ensures 0.0 <= RsiAt(closes, period, i).value <= 100.0
  {
    hide Strength, Average;
    AverageNonNegative(Gains(closes), period, 1, i);
    AverageNonNegative(Losses(closes), period, 1, i);
    StrengthBounds(Average(Gains(closes), period, 1, i), Average(Losses(closes), period, 1, i));
  }

  // ------------------------------------------------------------------ ATR

  function TrueRange(candles: seq<Candle>, i: nat): real
    requires i < |candles|
  {
    var c := candles[i];
    if i == 0 then c.high - c.low else Range(c.high, c.low, candles[i - 1].close)
  }

  function Range(high: real, low: real, prevClose: real): real {
    Max(Max(high - low, Abs(high - prevClose)), Abs(low - prevClose))
  }

  function TrueRanges(candles: seq<Candle>): (r: seq<real>)
    ensures |r| == |candles| && forall i | 0 <= i < |r| :: r[i] == TrueRange(candles, i)
  {
    seq(|candles|, i requires 0 <= i < |candles| => TrueRange(candles, i))
  }

  function AtrAt(candles: seq<Candle>, period: int, i: nat): Option<real>
    requires i < |candles|
  {
    if period <= 0 || i < period - 1 then None else Some(Average(TrueRanges(candles), period, 0, i))
  }

  lemma AtrNoLookahead(candles: seq<Candle>, period: int, k: nat, i: nat)
    requires i < k <= |candles|
    ensures AtrAt(candles[..k], period, i) == AtrAt(candles, period, i)
  {
    if period > 0 && i >= period - 1 {
      assert TrueRanges(candles[..k]) == TrueRanges(candles)[..k];
      AverageOfPrefix(TrueRanges(candles), period, 0, k, i);
    }
  }

  /** The true range is the extent of the bar together with the close before it. */
  lemma TrueRangeIsExtent(candles: seq<Candle>, i: nat)
    requires 0 < i < |candles| && candles[i].low <= candles[i].high
    ensures var c, before := candles[i], candles[i - 1].close;
      TrueRanges(candles)[i] == Max(c.high, before) - Min(c.low, before)
    ensures TrueRanges(candles)[0] == candles[0].high - candles[0].low
  {
  }

  /** A bar's true range covers its own range. */
  lemma RangesCover(candles: seq<Candle>)
    requires forall c <- candles :: c.low <= c.high
    ensures forall j | 0 <= j < |candles| ::
      TrueRanges(candles)[j] >= candles[j].high - candles[j].low && TrueRanges(candles)[j] >= 0.0
  {
    forall j | 0 <= j < |candles|
      ensures TrueRanges(candles)[j] >= candles[j].high - candles[j].low && TrueRanges(candles)[j] >= 0.0
    {
      assert candles[j] in candles;
    }
  }

  /** The ATR of bars whose low is at most their high is non-negative. */
  lemma AtrNonNegative(candles: seq<Candle>, period: int, i: nat)
    requires i < |candles| && AtrAt(candles, period, i).Some?
    requires forall c <- candles :: c.low <= c.high
    ensures AtrAt(candles, period, i).value >= 0.0
  {
    AverageNonNegative(TrueRanges(candles), period, 0, i);
  }

  /** The ATR times the period is at least the bar's own range. */
  lemma AtrCovers(candles: seq<Candle>, period: int, i: nat)
    requires 1 <= period && period - 1 <= i < |candles| && forall c <- candles :: c.low <= c.high
    ensures Average(TrueRanges(candles), period, 0, i) * period as real >= candles[i].high - candles[i].low
  {
    hide Average, TrueRange;
    RangesCover(candles);
    AverageKeepsShare(TrueRanges(candles), period, 0, i);
  }

  // ------------------------------------------------------------------ ADX

  function PlusMove(candles: seq<Candle>, i: nat): real
    requires i < |candles|
  {
    if i == 0 then 0.0
    else
      var up, down := candles[i].high - candles[i - 1].high, candles[i - 1].low - candles[i].low;
      if up > down && up > 0.0 then up else 0.0
  }

  function MinusMove(candles: seq<Candle>, i: nat): real
    requires i < |candles|
  {
    if i == 0 then 0.0
    else
      var up, down := candles[i].high - candles[i - 1].high, candles[i - 1].low - candles[i].low;
      if down > up && down > 0.0 then down else 0.0
  }

  function PlusMoves(candles: seq<Candle>): (r: seq<real>)
    ensures |r| == |candles| && forall i | 0 <= i < |r| :: r[i] == PlusMove(candles, i)
  {
    seq(|candles|, i requires 0 <= i < |candles| => PlusMove(candles, i))
  }

  function MinusMoves(candles: seq<Candle>): (r: seq<real>)
    ensures |r| == |candles| && forall i | 0 <= i < |r| :: r[i] == MinusMove(candles, i)
  {
    seq(|candles|, i requires 0 <= i < |candles| => MinusMove(candles, i))
  }

  /** Wilder's running sum: xs[1] + ... + xs[period], then previous - previous / period + x. */
  function Smoothed(xs: seq<real>, period: int, i: nat): real
    requires period >= 1 && period <= i < |xs|
    decreases i
  {
    if i == period then Sum(xs, 1, period + 1)
    else Smoothed(xs, period, i - 1) - Smoothed(xs, period, i - 1) / period as real + xs[i]
  }

  lemma {:induction false} SmoothedOfPrefix(xs: seq<real>, period: int, k: nat, i: nat)
    requires period >= 1 && period <= i < k <= |xs|
    ensures Smoothed(xs[..k], period, i) == Smoothed(xs, period, i)
    decreases i
  {
    if i == period { SumOfPrefix(xs, k, 1, period + 1); } else { SmoothedOfPrefix(xs, period, k, i - 1); }
  }

  function Share(part: real, whole: real): real
    requires whole != 0.0
  {
    part / whole * 100.0
  }

  /** +DI and -DI at i, or None where the smoothed true range is zero. */
  function Directional(candles: seq<Candle>, period: int, i: nat): Option<(real, real)>
    requires period >= 1 && period <= i < |candles|
  {
    var range := Smoothed(TrueRanges(candles), period, i);
    if range == 0.0 then None
    else Some((Share(Smoothed(PlusMoves(candles), period, i), range),
               Share(Smoothed(MinusMoves(candles), period, i), range)))
  }

  /** plusDI[i] and minusDI[i]; the code returns early unless there are 2 * period bars. */
  function DiAt(candles: seq<Candle>, period: int, i: nat): Option<(real, real)>
    requires i < |candles|
  {
    if period <= 0 || |candles| < 2 * period || i < period then None else Directional(candles, period, i)
  }

  function Index(di: (real, real)): real {
    var sum := di.0 + di.1;
    if sum != 0.0 then Abs(di.0 - di.1) / sum * 100.0 else 0.0
  }

  function DxAt(candles: seq<Candle>, period: int, i: nat): Option<real>
    requires period >= 1 && period <= i < |candles|
  {
    var di := Directional(candles, period, i);
    if di.None? then None else Some(Index(di.value))
  }

  /** DX as a plain number, zero where undefined. */
  function DxValues(candles: seq<Candle>, period: int): (r: seq<real>)
    requires period >= 1
    ensures |r| == |candles|
    ensures forall i | period <= i < |r| ::
      r[i] == if DxAt(candles, period, i).Some? then DxAt(candles, period, i).value else 0.0
  {
    seq(|candles|, i requires 0 <= i < |candles| =>
      if i < period then 0.0
      else if DxAt(candles, period, i).Some? then DxAt(candles, period, i).value else 0.0)
  }

  /** The running ADX: the mean of the first `period` DX values, smoothed by each defined DX after. */
  function AdxValue(candles: seq<Candle>, period: int, i: nat): real
    requires period >= 1 && 2 * period - 1 <= i < |candles|
    decreases i
  {
    if i == 2 * period - 1 then Sum(DxValues(candles, period), period, 2 * period) / period as real
    else
      var prev, dx := AdxValue(candles, period, i - 1), DxAt(candles, period, i);
      if dx.Some? then Step(prev, dx.value, period as real) else prev
  }

  /** All of the first `period` DX values are defined. */
  predicate Seeded(candles: seq<Candle>, period: int)
    requires period >= 1 && 2 * period <= |candles|
  {
    forall j | period <= j < 2 * period :: DxAt(candles, period, j).Some?
  }

  function AdxAt(candles: seq<Candle>, period: int, i: nat): Option<real>
    requires i < |candles|
  {
    if period <= 0 || i < 2 * period - 1 || !Seeded(candles, period) || DxAt(candles, period, i).None? then None
    else Some(AdxValue(candles, period, i))
  }

  lemma DirectionalOfPrefix(candles: seq<Candle>, period: int, k: nat, i: nat)
    requires period >= 1 && period <= i < k <= |candles|
    ensures Directional(candles[..k], period, i) == Directional(candles, period, i)
  {
    assert TrueRanges(candles[..k]) == TrueRanges(candles)[..k];
    assert PlusMoves(candles[..k]) == PlusMoves(candles)[..k];
    assert MinusMoves(candles[..k]) == MinusMoves(candles)[..k];
    SmoothedOfPrefix(TrueRanges(candles), period, k, i);
    SmoothedOfPrefix(PlusMoves(candles), period, k, i);
    SmoothedOfPrefix(MinusMoves(candles), period, k, i);
  }

  /** Main result: because of the early return, +DI and -DI are not free of look-ahead. Computed on the
      first k bars they have the full series' value exactly when both series are long enough, or the
      value is undefined anyway. */
  lemma DiLookahead(candles: seq<Candle>, period: int, k: nat, i: nat)
    requires i < k <= |candles| && period >= 1
    ensures DiAt(candles[..k], period, i) == DiAt(candles, period, i) <==>
      || k >= 2 * period
      || |candles| < 2 * period
      || i < period
      || Smoothed(TrueRanges(candles), period, i) == 0.0
  {
    if i >= period { DirectionalOfPrefix(candles, period, k, i); }
  }

  /** Such a series exists: three bars with period 2 give no +DI where four bars do. */
  lemma DiLooksAhead()
    ensures var bar := Candle(2.0, 1.0, 1.5, 0.0, None);
      var candles := [bar, bar, bar, bar];
      DiAt(candles[..3], 2, 2) == None && DiAt(candles, 2, 2) == Some((0.0, 0.0))
  {
    var bar := Candle(2.0, 1.0, 1.5, 0.0, None);
    var candles := [bar, bar, bar, bar];
    var tr := TrueRanges(candles);
    assert Sum(tr, 1, 3) == Sum(tr, 1, 2) + tr[2] && Sum(tr, 1, 2) == Sum(tr, 1, 1) + tr[1];
    var plus := PlusMoves(candles);
    assert Sum(plus, 1, 3) == Sum(plus, 1, 2) + plus[2] && Sum(plus, 1, 2) == Sum(plus, 1, 1) + plus[1];
    var minus := MinusMoves(candles);
    assert Sum(minus, 1, 3) == Sum(minus, 1, 2) + minus[2] && Sum(minus, 1, 2) == Sum(minus, 1, 1) + minus[1];
  }

  lemma {:induction false} AdxValueOfPrefix(candles: seq<Candle>, period: int, k: nat, i: nat)
    requires period >= 1 && 2 * period - 1 <= i < k <= |candles|
    ensures AdxValue(candles[..k], period, i) == AdxValue(candles, period, i)
    decreases i
  {
    DirectionalOfPrefix(candles, period, k, i);
    if i == 2 * period - 1 {
      forall j | period <= j < k ensures DxValues(candles[..k], period)[j] == DxValues(candles, period)[j] {
        DirectionalOfPrefix(candles, period, k, j);
      }
      assert DxValues(candles[..k], period) == DxValues(candles, period)[..k];
      SumOfPrefix(DxValues(candles, period), k, period, 2 * period);
    } else {
      AdxValueOfPrefix(candles, period, k, i - 1);
      assert DxAt(candles[..k], period, i) == DxAt(candles, period, i);
    }
  }

  /** The ADX itself has no look-ahead. */
  lemma AdxNoLookahead(candles: seq<Candle>, period: int, k: nat, i: nat)
    requires i < k <= |candles|
    ensures AdxAt(candles[..k], period, i) == AdxAt(candles, period, i)
  {
    if period > 0 && i >= 2 * period - 1 {
      forall j | period <= j < k ensures DxAt(candles[..k], period, j) == DxAt(candles, period, j) {
        DirectionalOfPrefix(candles, period, k, j);
      }
      AdxValueOfPrefix(candles, period, k, i);
    }
  }

  // ------------------------------------------------------------------ what the directional indicators measure

  /** The low does not fall from the bar before, or by less than the high rises. */
  predicate UpBar(candles: seq<Candle>, j: nat)
    requires 1 <= j < |candles|
  {
    var c, before := candles[j], candles[j - 1];
    c.low >= before.low || before.low - c.low < c.high - before.high
  }

  /** By how much the high rises, zero where it does not. */
  function HighGain(candles: seq<Candle>, j: nat): real
    requires j < |candles|
  {
    if j == 0 then 0.0 else Max(candles[j].high - candles[j - 1].high, 0.0)
  }

  function HighGains(candles: seq<Candle>): (r: seq<real>)
    ensures |r| == |candles| && forall j | 0 <= j < |r| :: r[j] == HighGain(candles, j)
  {
    seq(|candles|, j requires 0 <= j < |candles| => HighGain(candles, j))
  }

  /** Some high rose where the indicator at bar i still feels it: anywhere up to it, at it for a period of one. */
  ghost predicate HighRose(candles: seq<Candle>, period: int, i: nat)
    requires i < |candles|
  {
    exists j | 1 <= j <= i :: HighGains(candles)[j] > 0.0 && (period > 1 || j == i)
  }

  lemma {:induction false} SmoothedOfSame(xs: seq<real>, ys: seq<real>, period: int, i: nat)
    requires period >= 1 && period <= i < |xs| && |ys| == |xs| && forall j | 1 <= j <= i :: xs[j] == ys[j]
    ensures Smoothed(xs, period, i) == Smoothed(ys, period, i)
    decreases i
  {
    if i == period { SumOfSame(xs, ys, 1, period + 1); } else { SmoothedOfSame(xs, ys, period, i - 1); }
  }

  lemma {:induction false} SumOfSame(xs: seq<real>, ys: seq<real>, lo: nat, hi: nat)
    requires lo <= hi <= |xs| && |ys| == |xs| && forall j | lo <= j < hi :: xs[j] == ys[j]
    ensures Sum(xs, lo, hi) == Sum(ys, lo, hi)
    decreases hi
  {
    if lo < hi { SumOfSame(xs, ys, lo, hi - 1); }
  }

  lemma {:induction false} SumSign(xs: seq<real>, lo: nat, hi: nat)
    requires lo <= hi <= |xs| && forall j | lo <= j < hi :: xs[j] >= 0.0
    ensures Sum(xs, lo, hi) >= 0.0
    ensures Sum(xs, lo, hi) > 0.0 <==> exists j | lo <= j < hi :: xs[j] > 0.0
    decreases hi
  {
    if lo < hi { SumSign(xs, lo, hi - 1); }
  }

  lemma PositiveProduct(x: real, y: real)
    requires x > 0.0 && y > 0.0
    ensures x * y > 0.0
  {
  }

  lemma Remains(s: real, p: real)
    requires s >= 0.0 && p >= 1.0
    ensures s - s / p >= 0.0
    ensures s - s / p > 0.0 <==> s > 0.0 && p > 1.0
  {
    var q := s / p;
    assert q * p == s;
    if s == 0.0 {
      assert q == 0.0;
    } else {
      assert q > 0.0;
      assert s - q == q * (p - 1.0);
      Product(q, p - 1.0);
      if p > 1.0 { PositiveProduct(q, p - 1.0); } else { assert p == 1.0 && q == s; }
    }
  }

  /** A smoothed sum of non-negative values is positive exactly when one it still feels is. */
  lemma {:induction false} SmoothedSign(xs: seq<real>, period: int, i: nat)
    requires period >= 1 && period <= i < |xs| && forall j | 1 <= j <= i :: xs[j] >= 0.0
    ensures Smoothed(xs, period, i) >= 0.0
    ensures Smoothed(xs, period, i) > 0.0 <==> exists j | 1 <= j <= i :: xs[j] > 0.0 && (period > 1 || j == i)
    decreases i
  {
    hide Sum;
    if i == period {
      SumSign(xs, 1, period + 1);
    } else {
      SmoothedSign(xs, period, i - 1);
      Remains(Smoothed(xs, period, i - 1), period as real);
    }
  }

  lemma UpMoves(candles: seq<Candle>, j: nat)
    requires 1 <= j < |candles| && UpBar(candles, j)
    ensures PlusMoves(candles)[j] == HighGains(candles)[j] && MinusMoves(candles)[j] == 0.0
  {
  }

  lemma ShareOf(part: real, whole: real)
    requires part >= 0.0 && whole > 0.0
    ensures Share(part, whole) * whole == 100.0 * part
    ensures Share(part, whole) > 0.0 <==> part > 0.0
    ensures part == 0.0 ==> Share(part, whole) == 0.0
  {
    var q := part / whole;
    assert q * whole == part;
    assert q > 0.0 <==> part > 0.0;
    assert q * 100.0 * whole == 100.0 * (q * whole);
  }

  /** Where the indicators are defined the smoothed true range is positive. */
  lemma RangePositive(candles: seq<Candle>, period: int, i: nat)
    requires i < |candles| && DiAt(candles, period, i).Some? && forall c <- candles :: c.low <= c.high
    ensures Smoothed(TrueRanges(candles), period, i) > 0.0
  {
    RangesCover(candles);
    SmoothedSign(TrueRanges(candles), period, i);
  }

  /** Main result, which indicator says "up": while every bar so far is an up bar, -DI is zero and +DI is the
      smoothed rises of the highs in percent of the smoothed true range, so positive exactly when some high
      rose that it still feels. */
  lemma RisingMarket(candles: seq<Candle>, period: int, i: nat)
    requires i < |candles| && DiAt(candles, period, i).Some? && forall c <- candles :: c.low <= c.high
    requires forall j | 1 <= j <= i :: UpBar(candles, j)
    ensures var (plus, minus) := DiAt(candles, period, i).value;
      && minus == 0.0
      && plus * Smoothed(TrueRanges(candles), period, i) == 100.0 * Smoothed(HighGains(candles), period, i)
      && (plus > 0.0 <==> HighRose(candles, period, i))
  {
    hide *;
    DiAre(candles, period, i);
    RangePositive(candles, period, i);
    UpSmoothed(candles, period, i);
    SharesUp(Smoothed(PlusMoves(candles), period, i), Smoothed(MinusMoves(candles), period, i),
             Smoothed(HighGains(candles), period, i), Smoothed(TrueRanges(candles), period, i));
  }

  lemma SharesUp(plus: real, minus: real, gains: real, range: real)
    requires plus == gains >= 0.0 && minus == 0.0 && range > 0.0
    ensures Share(minus, range) == 0.0 && Share(plus, range) * range == 100.0 * gains
    ensures Share(plus, range) > 0.0 <==> plus > 0.0
  {
    ShareOf(plus, range);
    ShareOf(minus, range);
  }

  lemma DiAre(candles: seq<Candle>, period: int, i: nat)
    requires i < |candles| && DiAt(candles, period, i).Some?
    ensures period >= 1 && period <= i
    ensures var range := Smoothed(TrueRanges(candles), period, i);
      && range != 0.0
      && DiAt(candles, period, i) == Some((Share(Smoothed(PlusMoves(candles), period, i), range),
                                           Share(Smoothed(MinusMoves(candles), period, i), range)))
  {
  }

  lemma UpSmoothed(candles: seq<Candle>, period: int, i: nat)
    requires period >= 1 && period <= i < |candles| && forall j | 1 <= j <= i :: UpBar(candles, j)
    ensures Smoothed(MinusMoves(candles), period, i) == 0.0
    ensures Smoothed(PlusMoves(candles), period, i) == Smoothed(HighGains(candles), period, i) >= 0.0
    ensures Smoothed(PlusMoves(candles), period, i) > 0.0 <==> HighRose(candles, period, i)
  {
    hide Smoothed, UpBar, PlusMoves, MinusMoves;
    var plus, minus, gains := PlusMoves(candles), MinusMoves(candles), HighGains(candles);
    forall j | 1 <= j <= i ensures plus[j] == gains[j] && minus[j] == 0.0 { UpMoves(candles, j); }
    hide HighGains, HighGain;
    SmoothedOfSame(plus, gains, period, i);
    forall j | 1 <= j <= i ensures gains[j] >= 0.0 { GainNonNegative(candles, j); }
    SmoothedSign(gains, period, i);
    SmoothedSign(minus, period, i);
  }

  lemma GainNonNegative(candles: seq<Candle>, j: nat)
    requires j < |candles|
    ensures HighGain(candles, j) >= 0.0
  {
  }

  function Mirror(c: Candle): Candle {
    c.(high := -c.low, low := -c.high, close := -c.close)
  }

  /** The same market seen upside down. */
  function Mirrored(candles: seq<Candle>): (r: seq<Candle>)
    ensures |r| == |candles| && forall j | 0 <= j < |r| :: r[j] == Mirror(candles[j])
  {
    seq(|candles|, j requires 0 <= j < |candles| => Mirror(candles[j]))
  }

  lemma MirroredMoves(candles: seq<Candle>)
    ensures TrueRanges(Mirrored(candles)) == TrueRanges(candles)
    ensures PlusMoves(Mirrored(candles)) == MinusMoves(candles)
    ensures MinusMoves(Mirrored(candles)) == PlusMoves(candles)
  {
    forall j | 0 <= j < |candles| ensures TrueRanges(Mirrored(candles))[j] == TrueRanges(candles)[j] { }
  }

  /** Main result: upside down, +DI and -DI change places and ADX stays. What holds of +DI in a rising market
      holds of -DI in a falling one. */
  lemma UpsideDown(candles: seq<Candle>, period: int, i: nat)
    requires i < |candles|
    ensures DiAt(Mirrored(candles), period, i) ==
      match DiAt(candles, period, i)
      case None => None
      case Some((plus, minus)) => Some((minus, plus))
    ensures AdxAt(Mirrored(candles), period, i) == AdxAt(candles, period, i)
  {
    hide AdxValue, DxAt, DxValues;
    if period >= 1 {
      if i >= period { MirroredDi(candles, period, i); }
      MirroredDxs(candles, period);
      if i >= 2 * period - 1 { MirroredAdx(candles, period, i); }
    }
  }

  lemma MirroredDi(candles: seq<Candle>, period: int, i: nat)
    requires period >= 1 && period <= i < |candles|
    ensures Directional(Mirrored(candles), period, i) ==
      match Directional(candles, period, i)
      case None => None
      case Some((plus, minus)) => Some((minus, plus))
    ensures DxAt(Mirrored(candles), period, i) == DxAt(candles, period, i)
  {
    hide Smoothed, Share, Mirrored;
    MirroredMoves(candles);
  }

  lemma MirroredDxs(candles: seq<Candle>, period: int)
    requires period >= 1
    ensures forall j | period <= j < |candles| :: DxAt(Mirrored(candles), period, j) == DxAt(candles, period, j)
    ensures DxValues(Mirrored(candles), period) == DxValues(candles, period)
  {
    hide DxAt;
    forall j | period <= j < |candles| ensures DxAt(Mirrored(candles), period, j) == DxAt(candles, period, j) {
      MirroredDi(candles, period, j);
    }
  }

  lemma {:induction false} MirroredAdx(candles: seq<Candle>, period: int, i: nat)
    requires period >= 1 && 2 * period - 1 <= i < |candles|
    requires DxValues(Mirrored(candles), period) == DxValues(candles, period)
    requires forall j | period <= j < |candles| :: DxAt(Mirrored(candles), period, j) == DxAt(candles, period, j)
    ensures AdxValue(Mirrored(candles), period, i) == AdxValue(candles, period, i)
    decreases i
  {
    hide DxAt, DxValues, Sum, Step, Mirrored;
    if i > 2 * period - 1 { MirroredAdx(candles, period, i - 1); }
  }

  /** The true range cancels: DX is the imbalance of the smoothed moves alone, in percent. */
  lemma DxIsImbalance(candles: seq<Candle>, period: int, i: nat)
    requires period >= 1 && period <= i < |candles| && DxAt(candles, period, i).Some? && AllProper(candles)
    ensures var plus, minus := Smoothed(PlusMoves(candles), period, i), Smoothed(MinusMoves(candles), period, i);
      && DxAt(candles, period, i).value * (plus + minus) == 100.0 * Abs(plus - minus)
      && (plus + minus == 0.0 ==> DxAt(candles, period, i).value == 0.0)
  {
    hide Smoothed, PlusMoves, MinusMoves, TrueRanges;
    var plus, minus := Smoothed(PlusMoves(candles), period, i), Smoothed(MinusMoves(candles), period, i);
    var range := Smoothed(TrueRanges(candles), period, i);
    MovesAreShares(candles, period, i);
    ImbalanceOf(plus, minus, range);
  }

  lemma MovesAreShares(candles: seq<Candle>, period: int, i: nat)
    requires period >= 1 && period <= i < |candles| && DxAt(candles, period, i).Some? && AllProper(candles)
    ensures Smoothed(PlusMoves(candles), period, i) >= 0.0 && Smoothed(MinusMoves(candles), period, i) >= 0.0
    ensures Smoothed(TrueRanges(candles), period, i) > 0.0
  {
    var tr, plus, minus := TrueRanges(candles), PlusMoves(candles), MinusMoves(candles);
    forall j | 1 <= j <= i ensures 0.0 <= plus[j] && 0.0 <= minus[j] && plus[j] + minus[j] <= tr[j] {
      assert Proper(candles[j]) && Proper(candles[j - 1]);
      MovesFitRange(candles, j);
    }
    SmoothedFit(tr, plus, minus, period, i);
  }

  lemma ImbalanceOf(plus: real, minus: real, range: real)
    requires plus >= 0.0 && minus >= 0.0 && range > 0.0
    ensures Index((Share(plus, range), Share(minus, range))) * (plus + minus) == 100.0 * Abs(plus - minus)
    ensures plus + minus == 0.0 ==> Index((Share(plus, range), Share(minus, range))) == 0.0
  {
    var p, m := Share(plus, range), Share(minus, range);
    ShareOf(plus, range);
    ShareOf(minus, range);
    var q := 100.0 / range;
    assert q * range == 100.0 && q > 0.0;
    assert p == plus * q && m == minus * q by { Cancel(p, plus * q, range); Cancel(m, minus * q, range); }
    ImbalanceBy(plus, minus, q);
  }

  lemma Cancel(x: real, y: real, z: real)
    requires z != 0.0 && x * z == y * z
    ensures x == y
  {
  }

  lemma ImbalanceBy(plus: real, minus: real, q: real)
    requires plus >= 0.0 && minus >= 0.0 && q > 0.0
    ensures Index((plus * q, minus * q)) * (plus + minus) == 100.0 * Abs(plus - minus)
  {
    var s, d := plus + minus, Abs(plus - minus);
    Distribute(q, plus, minus);
    SizeTimes(plus, minus, q);
    if s > 0.0 {
      PositiveProduct(q, s);
      RatioOf(d, s, q);
    }
  }

  lemma SizeTimes(x: real, y: real, q: real)
    requires q > 0.0
    ensures Abs(x * q - y * q) == q * Abs(x - y)
  {
    assert x * q - y * q == q * (x - y);
    if x >= y { Product(q, x - y); } else { Product(q, y - x); }
  }

  lemma RatioOf(d: real, s: real, q: real)
    requires s > 0.0 && q > 0.0 && q * s != 0.0
    ensures q * d / (q * s) * 100.0 * s == 100.0 * d
  {
    var r := q * d / (q * s);
    assert r * (q * s) == q * d;
    assert q * (r * s) == q * d;
    Cancel(r * s, d, q);
    assert r * 100.0 * s == 100.0 * (r * s);
  }

  /** Main result: while every DX so far is defined, ADX is Wilder's average of them, from the first on. */
  lemma {:induction false} AdxIsAverage(candles: seq<Candle>, period: int, i: nat)
    requires period >= 1 && 2 * period - 1 <= i < |candles|
    requires forall j | period <= j <= i :: DxAt(candles, period, j).Some?
    ensures AdxAt(candles, period, i) == Some(Average(DxValues(candles, period), period, period, i))
    decreases i
  {
    if i > 2 * period - 1 { AdxIsAverage(candles, period, i - 1); }
  }

  /** Some true range is positive where the indicators at bar i still feel it. */
  ghost predicate Moved(candles: seq<Candle>, period: int, i: nat)
    requires i < |candles|
  {
    exists j | 1 <= j <= i :: TrueRanges(candles)[j] > 0.0 && (period > 1 || j == i)
  }

  /** When RSI and ATR are there: from the bar on that completes `period` changes or bars. */
  lemma WarmUp(closes: seq<real>, candles: seq<Candle>, period: int, i: nat)
    ensures i < |closes| ==> (RsiAt(closes, period, i).Some? <==> period >= 1 && i >= period)
    ensures i < |candles| ==> (AtrAt(candles, period, i).Some? <==> period >= 1 && i + 1 >= period)
  {
  }

  /** When +DI and -DI are there: from the bar on that completes `period` changes, where the market moved, in a
      series of at least twice the period; and ADX from the bar on that completes `period` such pairs. */
  lemma DirectionalWarmUp(candles: seq<Candle>, period: int, i: nat)
    requires i < |candles| && forall c <- candles :: c.low <= c.high
    ensures DiAt(candles, period, i).Some? <==>
      period >= 1 && |candles| >= 2 * period && i >= period && Moved(candles, period, i)
    ensures AdxAt(candles, period, i).Some? <==>
      && period >= 1 && i + 1 >= 2 * period && DiAt(candles, period, i).Some?
      && forall j | period <= j < 2 * period :: DiAt(candles, period, j).Some?
  {
    hide Smoothed, Share, TrueRanges, TrueRange, AdxValue;
    if period >= 1 && i >= period {
      RangesCover(candles);
      SmoothedSign(TrueRanges(candles), period, i);
    }
    if period >= 1 && |candles| >= 2 * period {
      forall j | period <= j < |candles| ensures DxAt(candles, period, j).Some? <==> DiAt(candles, period, j).Some? { }
    }
  }

  /** The smoothed sum is `period` times Wilder's average. */
  lemma {:induction false} SmoothedIsAverage(xs: seq<real>, period: int, i: nat)
    requires period >= 1 && period <= i < |xs|
    ensures Smoothed(xs, period, i) == period as real * Average(xs, period, 1, i)
    decreases i
  {
    hide Sum, Step;
    if i == period {
      TimesOf(Sum(xs, 1, period + 1), period as real);
    } else {
      SmoothedIsAverage(xs, period, i - 1);
      StepTimes(Smoothed(xs, period, i - 1), Average(xs, period, 1, i - 1), xs[i], period as real);
    }
  }

  lemma StepTimes(s: real, a: real, x: real, p: real)
    requires p != 0.0 && s == p * a
    ensures s - s / p + x == p * Step(a, x, p)
  {
    TimesOf(a * (p - 1.0) + x, p);
    assert s / p == a;
  }

  // ------------------------------------------------------------------ ADX bounds

  /** At each bar the two moves together fit in the true range. */
  lemma MovesFitRange(candles: seq<Candle>, i: nat)
    requires 1 <= i < |candles| && Proper(candles[i]) && Proper(candles[i - 1])
    ensures 0.0 <= PlusMove(candles, i) && 0.0 <= MinusMove(candles, i)
    ensures PlusMove(candles, i) + MinusMove(candles, i) <= TrueRange(candles, i)
  {
  }

  lemma {:induction false} SumsFit(tr: seq<real>, plus: seq<real>, minus: seq<real>, lo: nat, hi: nat)
    requires lo <= hi <= |tr| && |plus| == |minus| == |tr|
    requires forall j | lo <= j < hi :: 0.0 <= plus[j] && 0.0 <= minus[j] && plus[j] + minus[j] <= tr[j]
    ensures 0.0 <= Sum(plus, lo, hi) && 0.0 <= Sum(minus, lo, hi)
    ensures Sum(plus, lo, hi) + Sum(minus, lo, hi) <= Sum(tr, lo, hi)
    decreases hi
  {
    if lo < hi { SumsFit(tr, plus, minus, lo, hi - 1); }
  }

  lemma DecayFits(p: real, m: real, t: real, period: real)
    requires 0.0 <= p && 0.0 <= m && p + m <= t && period >= 1.0
    ensures 0.0 <= p - p / period && 0.0 <= m - m / period
    ensures (p - p / period) + (m - m / period) <= t - t / period
  {
    var q := 1.0 / period;
    assert 0.0 <= q <= 1.0;
    assert p / period == p * q && m / period == m * q && t / period == t * q;
    Product(p, 1.0 - q);
    Product(m, 1.0 - q);
    Product(t - p - m, 1.0 - q);
  }

  /** "Smoothed +DM plus smoothed -DM is at most smoothed TR" survives the Wilder recursion. */
  lemma {:induction false} SmoothedFit(tr: seq<real>, plus: seq<real>, minus: seq<real>, period: int, i: nat)
    requires period >= 1 && period <= i < |tr| && |plus| == |minus| == |tr|
    requires forall j | 1 <= j <= i :: 0.0 <= plus[j] && 0.0 <= minus[j] && plus[j] + minus[j] <= tr[j]
    ensures 0.0 <= Smoothed(plus, period, i) && 0.0 <= Smoothed(minus, period, i)
    ensures Smoothed(plus, period, i) + Smoothed(minus, period, i) <= Smoothed(tr, period, i)
    decreases i
  {
    if i == period {
      SumsFit(tr, plus, minus, 1, period + 1);
    } else {
      SmoothedFit(tr, plus, minus, period, i - 1);
      DecayFits(Smoothed(plus, period, i - 1), Smoothed(minus, period, i - 1),
                Smoothed(tr, period, i - 1), period as real);
    }
  }

  lemma SharesFit(p: real, m: real, t: real)
    requires 0.0 <= p && 0.0 <= m && p + m <= t && t != 0.0
    ensures 0.0 <= Share(p, t) && 0.0 <= Share(m, t) && Share(p, t) + Share(m, t) <= 100.0
  {
    var q := 1.0 / t;
    assert q > 0.0 && t * q == 1.0;
    assert p / t == p * q && m / t == m * q;
    Product(p, q);
    Product(m, q);
    Product(t - p - m, q);
  }

  ghost predicate AllProper(candles: seq<Candle>) {
    forall c <- candles :: Proper(c)
  }

  lemma DirectionalBounds(candles: seq<Candle>, period: int, i: nat)
    requires AllProper(candles) && period >= 1 && period <= i < |candles| && Directional(candles, period, i).Some?
    ensures var di := Directional(candles, period, i).value;
      0.0 <= di.0 && 0.0 <= di.1 && di.0 + di.1 <= 100.0
  {
    var tr, plus, minus := TrueRanges(candles), PlusMoves(candles), MinusMoves(candles);
    forall j | 1 <= j <= i ensures 0.0 <= plus[j] && 0.0 <= minus[j] && plus[j] + minus[j] <= tr[j] {
      MovesFitRange(candles, j);
    }
    SmoothedFit(tr, plus, minus, period, i);
    SharesFit(Smoothed(plus, period, i), Smoothed(minus, period, i), Smoothed(tr, period, i));
  }

  lemma IndexBounds(di: (real, real))
    requires 0.0 <= di.0 && 0.0 <= di.1
    ensures 0.0 <= Index(di) <= 100.0
  {
    var sum := di.0 + di.1;
    if sum != 0.0 {
      QuotientBetween(Abs(di.0 - di.1), 0.0, 1.0, sum);
    }
  }

  lemma DxBounds(candles: seq<Candle>, period: int, i: nat)
    requires AllProper(candles) && period >= 1 && period <= i < |candles| && DxAt(candles, period, i).Some?
    ensures 0.0 <= DxAt(candles, period, i).value <= 100.0
  {
    DirectionalBounds(candles, period, i);
    IndexBounds(Directional(candles, period, i).value);
  }

  lemma AdxSeedBounds(candles: seq<Candle>, period: int)
    requires AllProper(candles) && period >= 1 && 2 * period <= |candles|
    ensures 0.0 <= AdxValue(candles, period, 2 * period - 1) <= 100.0
  {
    hide DxAt, Sum;
    var dx := DxValues(candles, period);
    forall j | period <= j < 2 * period ensures 0.0 <= dx[j] <= 100.0 {
      if DxAt(candles, period, j).Some? { DxBounds(candles, period, j); }
    }
    SumBounds(dx, period, 2 * period, 0.0, 100.0);
    QuotientBetween(Sum(dx, period, 2 * period), 0.0, 100.0, period as real);
  }

  lemma {:induction false} AdxValueBounds(candles: seq<Candle>, period: int, i: nat)
    requires AllProper(candles) && period >= 1 && 2 * period - 1 <= i < |candles|
    ensures 0.0 <= AdxValue(candles, period, i) <= 100.0
    decreases i
  {
    if i == 2 * period - 1 {
      AdxSeedBounds(candles, period);
    } else {
      AdxValueBounds(candles, period, i - 1);
      if DxAt(candles, period, i).Some? {
        DxBounds(candles, period, i);
        StepBetween(AdxValue(candles, period, i - 1), DxAt(candles, period, i).value, period as real, 0.0, 100.0);
      }
    }
  }

  /** Main result: on bars with low <= close <= high, wherever they are defined +DI and -DI are
      non-negative and together at most 100, and ADX lies in [0, 100]. */
  lemma AdxInRange(candles: seq<Candle>, period: int, i: nat)
    requires AllProper(candles) && i < |candles|
    ensures var di := DiAt(candles, period, i);
      di.Some? ==> 0.0 <= di.value.0 && 0.0 <= di.value.1 && di.value.0 + di.value.1 <= 100.0
    ensures var adx := AdxAt(candles, period, i);
      adx.Some? ==> 0.0 <= adx.value <= 100.0
  {
    if DiAt(candles, period, i).Some? { DirectionalBounds(candles, period, i); }
    if AdxAt(candles, period, i).Some? { AdxValueBounds(candles, period, i); }
  }
}
