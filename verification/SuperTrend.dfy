/** SuperTrend of shared/indicators/canonical.ts: the two-band machine as the code runs it, where the
    trend is recovered by comparing the previous line with the previous upper band, and the clean
    machine that reads the stored direction. */
module SuperTrend {
  import opened Basics
  import opened Series
  import W = Wilder

  /** What the machine reads of one candle: (high + low) / 2, the close and the basic bands. */
  datatype Bar = Bar(middle: real, close: real, upper: real, lower: real)

  /** `up` is direction 1. */
  datatype Trend = Trend(upper: real, lower: real, line: real, up: bool)

  function Hl2(c: Candle): real { (c.high + c.low) / 2.0 }

  function MakeBar(c: Candle, atr: real, multiplier: real): Bar {
    Bar(Hl2(c), c.close, Hl2(c) + multiplier * atr, Hl2(c) - multiplier * atr)
  }

  /** The bars from the first with an ATR on: element j belongs to candle period - 1 + j. */
  function Bars(candles: seq<Candle>, period: int, multiplier: real): (bars: seq<Bar>)
    requires period >= 1
    ensures |bars| == if |candles| < period then 0 else |candles| - (period - 1)
    ensures forall j | 0 <= j < |bars| :: bars[j] == BarAt(candles, period, multiplier, period - 1 + j)
  {
    if |candles| < period then []
    else
      seq(|candles| - (period - 1), j requires 0 <= j < |candles| - (period - 1) =>
        BarAt(candles, period, multiplier, period - 1 + j))
  }

  function BarAt(candles: seq<Candle>, period: int, multiplier: real, i: nat): Bar
    requires period >= 1 && period - 1 <= i < |candles|
  {
    MakeBar(candles[i], W.Average(W.TrueRanges(candles), period, 0, i), multiplier)
  }

  function First(bar: Bar): Trend {
    if bar.close >= bar.middle then Trend(bar.upper, bar.lower, bar.lower, true)
    else Trend(bar.upper, bar.lower, bar.upper, false)
  }

  /** The ratcheted bands: the upper one only falls and the lower one only rises until the previous
      close has crossed it. */
  function FinalUpper(prev: Trend, prevClose: real, bar: Bar): real {
    if bar.upper < prev.upper || prevClose > prev.upper then bar.upper else prev.upper
  }

  function FinalLower(prev: Trend, prevClose: real, bar: Bar): real {
    if bar.lower > prev.lower || prevClose < prev.lower then bar.lower else prev.lower
  }

  function Enter(upper: real, lower: real, close: real, wasDown: bool): Trend {
    var up := if wasDown then close > upper else !(close < lower);
    Trend(upper, lower, if up then lower else upper, up)
  }

  /** One bar as the code computes it. */
  function Next(prev: Trend, prevClose: real, bar: Bar): Trend {
    Enter(FinalUpper(prev, prevClose, bar), FinalLower(prev, prevClose, bar), bar.close, prev.line == prev.upper)
  }

  /** One bar of the clean machine. */
  function CleanNext(prev: Trend, prevClose: real, bar: Bar): Trend {
    Enter(FinalUpper(prev, prevClose, bar), FinalLower(prev, prevClose, bar), bar.close, !prev.up)
  }

  function At(bars: seq<Bar>, i: nat): Trend
    requires i < |bars|
  {
    if i == 0 then First(bars[0]) else Next(At(bars, i - 1), bars[i - 1].close, bars[i])
  }

  function CleanAt(bars: seq<Bar>, i: nat): Trend
    requires i < |bars|
  {
    if i == 0 then First(bars[0]) else CleanNext(CleanAt(bars, i - 1), bars[i - 1].close, bars[i])
  }

  /** values[i] and direction[i]. */
  function SuperTrendAt(candles: seq<Candle>, period: int, multiplier: real, i: nat): Option<(real, bool)>
    requires i < |candles|
  {
    if period <= 0 || i < period - 1 || multiplier <= 0.0 then None
    else var t := At(Bars(candles, period, multiplier), i - (period - 1)); Some((t.line, t.up))
  }

  lemma {:induction false} AtOfPrefix(bars: seq<Bar>, k: nat, i: nat)
    requires i < k <= |bars|
    ensures At(bars[..k], i) == At(bars, i)
  {
    if i > 0 { AtOfPrefix(bars, k, i - 1); }
  }

  lemma BarsOfPrefix(candles: seq<Candle>, period: int, multiplier: real, k: nat)
    requires period >= 1 && period - 1 <= k <= |candles|
    ensures Bars(candles[..k], period, multiplier) == Bars(candles, period, multiplier)[..k - (period - 1)]
  {
    assert W.TrueRanges(candles[..k]) == W.TrueRanges(candles)[..k];
    forall j | 0 <= j < k - (period - 1)
      ensures Bars(candles[..k], period, multiplier)[j] == Bars(candles, period, multiplier)[j]
    {
      W.AverageOfPrefix(W.TrueRanges(candles), period, 0, k, period - 1 + j);
    }
  }

  lemma SuperTrendNoLookahead(candles: seq<Candle>, period: int, multiplier: real, k: nat, i: nat)
    requires i < k <= |candles|
    ensures SuperTrendAt(candles[..k], period, multiplier, i) == SuperTrendAt(candles, period, multiplier, i)
  {
    if period > 0 && i >= period - 1 {
      BarsOfPrefix(candles, period, multiplier, k);
      AtOfPrefix(Bars(candles, period, multiplier), k - (period - 1), i - (period - 1));
    }
  }

  // ------------------------------------------------------------------ the clean machine

  ghost predicate OnItsBand(t: Trend) {
    t.line == if t.up then t.lower else t.upper
  }

  /** Main result: the line is the lower band in an uptrend and the upper band in a downtrend; when the
      bands differ, the line equals the upper band exactly in a downtrend. */
  lemma LineIsItsBand(bars: seq<Bar>, i: nat)
    requires i < |bars|
    ensures var t := At(bars, i);
      && OnItsBand(t)
      && (t.upper != t.lower ==> (t.line == t.upper <==> !t.up) && (t.line == t.lower <==> t.up))
  {
  }

  /** The value-equality test and the stored direction lead to the same next state exactly when the
      previous bands differ, or the trend was down, or the close is on the same side of both new bands. */
  lemma TestMeetsDirection(prev: Trend, prevClose: real, bar: Bar)
    requires OnItsBand(prev)
    ensures Next(prev, prevClose, bar) == CleanNext(prev, prevClose, bar)
      <==>
      || prev.upper != prev.lower
      || !prev.up
      || (bar.close > FinalUpper(prev, prevClose, bar) <==> bar.close >= FinalLower(prev, prevClose, bar))
  {
  }

  ghost predicate BandsDiffer(bars: seq<Bar>, i: nat)
    requires i < |bars|
  {
    At(bars, i).upper != At(bars, i).lower
  }

  /** Main result: while the previous bands differ the code's run is the clean machine's run. */
  lemma {:induction false} RefinesCleanMachine(bars: seq<Bar>, i: nat)
    requires i < |bars| && forall j | 0 <= j < i :: BandsDiffer(bars, j)
    ensures At(bars, i) == CleanAt(bars, i)
  {
    if i > 0 {
      RefinesCleanMachine(bars, i - 1);
      LineIsItsBand(bars, i - 1);
      assert BandsDiffer(bars, i - 1);
    }
  }

  // ------------------------------------------------------------------ runs in one trend

  /** The close of bar i is not across the line. */
  ghost predicate Beside(bars: seq<Bar>, i: nat)
    requires i < |bars|
  {
    var t := At(bars, i);
    if t.up then bars[i].close >= t.line else bars[i].close <= t.line
  }

  /** Staying in a trend: the close is beside the line, and if it was before, the line moved only the
      trend's way. */
  lemma Staying(bars: seq<Bar>, i: nat)
    requires 0 < i < |bars| && BandsDiffer(bars, i - 1) && At(bars, i).up == At(bars, i - 1).up
    ensures Beside(bars, i)
    ensures Beside(bars, i - 1) ==>
      if At(bars, i).up then At(bars, i - 1).line <= At(bars, i).line else At(bars, i).line <= At(bars, i - 1).line
  {
    LineIsItsBand(bars, i - 1);
  }

  /** Main result: over bars first..last in one trend whose bands differ, no close after the first is across
      the line, and from any later bar j to the last the line has only risen in an uptrend and only fallen in
      a downtrend.  The first bar joins both claims if its own close is not across the line. */
  lemma {:induction false} TrendRun(bars: seq<Bar>, first: nat, j: nat, last: nat)
    requires first <= j <= last < |bars|
    requires forall i | first <= i <= last :: At(bars, i).up == At(bars, first).up
    requires forall i | first <= i < last :: BandsDiffer(bars, i)
    requires j > first || Beside(bars, first)
    ensures Beside(bars, last)
    ensures if At(bars, last).up then At(bars, j).line <= At(bars, last).line
      else At(bars, last).line <= At(bars, j).line
    decreases last
  {
    if j < last {
      TrendRun(bars, first, j, last - 1);
      assert BandsDiffer(bars, last - 1);
      Staying(bars, last);
    } else if first < last {
      assert BandsDiffer(bars, last - 1);
      Staying(bars, last);
    }
  }

  /** Main result, when a close is across: after the first bar it is exactly when it lies strictly between
      bands that have crossed; and if the previous bands differed the trend then just turned. */
  lemma AcrossOnlyBetweenCrossedBands(bars: seq<Bar>, i: nat)
    requires 0 < i < |bars|
    ensures !Beside(bars, i) <==> At(bars, i).upper < bars[i].close < At(bars, i).lower
    ensures !Beside(bars, i) && BandsDiffer(bars, i - 1) ==> At(bars, i - 1).up != At(bars, i).up
  {
    LineIsItsBand(bars, i - 1);
  }

  /** The first bar's close is never across its line when lows are at most highs. */
  lemma FirstBarBeside(candles: seq<Candle>, period: int, multiplier: real)
    requires 1 <= period <= |candles| && multiplier > 0.0 && forall c <- candles :: c.low <= c.high
    ensures Beside(Bars(candles, period, multiplier), 0)
  {
    hide W.AtrAt, Bars;
    FirstBar(candles, period, multiplier);
    var atr := W.AtrAt(candles, period, period - 1).value;
    W.AtrNonNegative(candles, period, period - 1);
    Product(multiplier, atr);
    assert Hl2(candles[period - 1]) + multiplier * atr >= Hl2(candles[period - 1]) - multiplier * atr;
  }

  lemma FirstBar(candles: seq<Candle>, period: int, multiplier: real)
    requires 1 <= period <= |candles|
    ensures W.AtrAt(candles, period, period - 1).Some?
    ensures Bars(candles, period, multiplier)[0] ==
      MakeBar(candles[period - 1], W.AtrAt(candles, period, period - 1).value, multiplier)
  {
  }

  /** A gap can cross the bands: two proper candles after which the trend is up, the close below its line. */
  lemma CloseCanBeAcross()
    ensures var candles := [Candle(12.0, 8.0, 9.0, 0.0, None), Candle(42.0, 38.0, 38.0, 0.0, None)];
      var bars := Bars(candles, 1, 0.05);
      && (forall c <- candles :: Proper(c))
      && At(bars, 1).up && !Beside(bars, 1) && BandsDiffer(bars, 0)
  {
    var candles := [Candle(12.0, 8.0, 9.0, 0.0, None), Candle(42.0, 38.0, 38.0, 0.0, None)];
    var tr := W.TrueRanges(candles);
    assert tr[0] == 4.0 && tr[1] == 33.0;
    assert Sum(tr, 0, 1) == Sum(tr, 0, 0) + tr[0];
    assert W.Average(tr, 1, 0, 0) == 4.0;
    assert W.Average(tr, 1, 0, 1) == 33.0;
    var bars := Bars(candles, 1, 0.05);
    assert bars[0] == Bar(10.0, 9.0, 10.2, 9.8);
    assert bars[1] == Bar(40.0, 38.0, 41.65, 38.35);
    assert At(bars, 0) == Trend(10.2, 9.8, 10.2, false);
    assert At(bars, 1) == Trend(10.2, 38.35, 38.35, true);
  }

  // ------------------------------------------------------------------ which settings rule it out

  /** The close of candle i is across the value reported for it. */
  ghost predicate Across(candles: seq<Candle>, period: int, multiplier: real, i: nat)
    requires i < |candles|
  {
    var t := SuperTrendAt(candles, period, multiplier, i);
    t.Some? && if t.value.1 then candles[i].close < t.value.0 else candles[i].close > t.value.0
  }

  lemma AcrossIsNotBeside(candles: seq<Candle>, period: int, multiplier: real, i: nat)
    requires period >= 1 && multiplier > 0.0 && period - 1 <= i < |candles|
    ensures Across(candles, period, multiplier, i) <==> !Beside(Bars(candles, period, multiplier), i - (period - 1))
  {
    hide At;
    var bars := Bars(candles, period, multiplier);
    LineIsItsBand(bars, i - (period - 1));
  }

  /** The close lies within its own basic bands. */
  ghost predicate Within(bar: Bar) {
    bar.lower <= bar.close <= bar.upper
  }

  lemma HalfOf(x: real, y: real, multiplier: real, p: real)
    requires p > 0.0 && 2.0 * multiplier >= p && y >= 0.0 && x * p >= y
    ensures multiplier * x >= y / 2.0
  {
    assert x >= 0.0;
    Product(x, 2.0 * multiplier - p);
    assert x * (2.0 * multiplier - p) == 2.0 * (multiplier * x) - x * p;
  }

  lemma BarWithin(candles: seq<Candle>, period: int, multiplier: real, i: nat)
    requires W.AllProper(candles) && 1 <= period && period - 1 <= i < |candles| && 2.0 * multiplier >= period as real
    ensures Within(BarAt(candles, period, multiplier, i))
  {
    hide W.Average, W.TrueRange, BarAt, MakeBar, Within;
    var c, atr := candles[i], W.Average(W.TrueRanges(candles), period, 0, i);
    ProperHasRange(candles);
    W.AtrCovers(candles, period, i);
    BarOf(candles, period, multiplier, i);
    HalfOf(atr, c.high - c.low, multiplier, period as real);
    WithinBands(c, atr, multiplier);
  }

  lemma ProperHasRange(candles: seq<Candle>)
    requires W.AllProper(candles)
    ensures forall c <- candles :: Proper(c) && c.low <= c.high
  {
  }

  lemma BarOf(candles: seq<Candle>, period: int, multiplier: real, i: nat)
    requires period >= 1 && period - 1 <= i < |candles|
    ensures BarAt(candles, period, multiplier, i) ==
      MakeBar(candles[i], W.Average(W.TrueRanges(candles), period, 0, i), multiplier)
  {
  }

  lemma WithinBands(c: Candle, atr: real, multiplier: real)
    requires Proper(c) && multiplier * atr >= (c.high - c.low) / 2.0
    ensures Within(MakeBar(c, atr, multiplier))
  {
  }

  /** A close within its basic bands is beside the line: a retained band was not crossed by the close before,
      and two retained bands have that close between them. */
  lemma WithinIsBeside(bars: seq<Bar>, i: nat)
    requires i < |bars| && Within(bars[i])
    ensures Beside(bars, i)
  {
    if i > 0 { AcrossOnlyBetweenCrossedBands(bars, i); }
  }

  lemma WideBandsKeepCloses(candles: seq<Candle>, period: int, multiplier: real, i: nat)
    requires W.AllProper(candles) && i < |candles| && 2.0 * multiplier >= period as real
    ensures !Across(candles, period, multiplier, i)
  {
    if period >= 1 && multiplier > 0.0 && i >= period - 1 {
      hide BarAt, At;
      AcrossIsNotBeside(candles, period, multiplier, i);
      BarWithin(candles, period, multiplier, i);
      WithinIsBeside(Bars(candles, period, multiplier), i - (period - 1));
    }
  }

  const FLAT := Candle(100.0, 100.0, 100.0, 0.0, None)

  /** `period` flat candles, then a gap up whose close is its low. */
  function GapSeries(period: int, h: real): (candles: seq<Candle>)
    requires period >= 1
    ensures |candles| == period + 1 && candles[period] == Candle(101.0 + h, 101.0, 101.0, 0.0, None)
    ensures forall j | 0 <= j < period :: candles[j] == FLAT
  {
    seq(period, _ => FLAT) + [Candle(101.0 + h, 101.0, 101.0, 0.0, None)]
  }

  lemma {:induction false} SumOfZeros(xs: seq<real>, lo: nat, hi: nat)
    requires lo <= hi <= |xs| && forall j | lo <= j < hi :: xs[j] == 0.0
    ensures Sum(xs, lo, hi) == 0.0
    decreases hi
  {
    if lo < hi { SumOfZeros(xs, lo, hi - 1); }
  }

  lemma GapBars(period: int, multiplier: real, h: real)
    requires period >= 1 && h > 0.0
    ensures var bars := Bars(GapSeries(period, h), period, multiplier);
      && |bars| == 2 && bars[0] == MakeBar(FLAT, 0.0, multiplier)
      && bars[1] == MakeBar(GapSeries(period, h)[period], (1.0 + h) / period as real, multiplier)
  {
    var candles := GapSeries(period, h);
    var tr := W.TrueRanges(candles);
    forall j | 0 <= j < period ensures tr[j] == 0.0 { }
    assert tr[period] == 1.0 + h;
    SumOfZeros(tr, 0, period);
    assert W.Average(tr, period, 0, period - 1) == 0.0;
    assert W.Average(tr, period, 0, period) == W.Step(0.0, 1.0 + h, period as real);
  }

  /** On two such bars the line of the second is its lower band, above its close. */
  lemma GapIsAcross(bars: seq<Bar>, h: real, width: real)
    requires |bars| == 2 && bars[0] == Bar(100.0, 100.0, 100.0, 100.0) && 0.0 <= width < h / 2.0
    requires bars[1] == Bar(101.0 + h / 2.0, 101.0, 101.0 + h / 2.0 + width, 101.0 + h / 2.0 - width)
    ensures !Beside(bars, 1)
  {
    assert At(bars, 0) == Trend(100.0, 100.0, 100.0, true);
  }

  /** A height whose range is out of proportion to the bands. */
  lemma GapHeight(multiplier: real, p: real) returns (h: real)
    requires multiplier > 0.0 && p > 2.0 * multiplier
    ensures h > 0.0 && 0.0 <= multiplier * ((1.0 + h) / p) < h / 2.0
  {
    var q := p - 2.0 * multiplier;
    var k := 2.0 * multiplier / q;
    assert k > 0.0 && k * q == 2.0 * multiplier;
    h := k + 1.0;
    assert h * q == 2.0 * multiplier + q;
    assert h * q == h * p - 2.0 * (multiplier * h);
    var share := (1.0 + h) / p;
    assert share * p == 1.0 + h && share > 0.0;
    Product(multiplier, share);
    assert multiplier * share * p == multiplier + multiplier * h;
    assert (h - 2.0 * (multiplier * share)) * p == q;
    assert h - 2.0 * (multiplier * share) > 0.0;
  }

  lemma NarrowBandsLoseCloses(period: int, multiplier: real) returns (candles: seq<Candle>)
    requires multiplier > 0.0 && 2.0 * multiplier < period as real
    ensures W.AllProper(candles) && |candles| == period + 1 && Across(candles, period, multiplier, period)
  {
    hide Bars, Beside, At;
    var h := GapHeight(multiplier, period as real);
    candles := GapSeries(period, h);
    GapBars(period, multiplier, h);
    GapIsAcross(Bars(candles, period, multiplier), h, multiplier * ((1.0 + h) / period as real));
    AcrossIsNotBeside(candles, period, multiplier, period);
  }

  ghost predicate NeverAcross(period: int, multiplier: real) {
    forall candles: seq<Candle>, i: nat | i < |candles| && W.AllProper(candles) ::
      !Across(candles, period, multiplier, i)
  }

  /** Main result: the settings under which no close of any proper series is ever across its line are exactly
      those whose multiplier is at least half the period, besides those that define no line at all. */
  lemma NeverAcrossExactly(period: int, multiplier: real)
    ensures NeverAcross(period, multiplier)
      <==> period <= 0 || multiplier <= 0.0 || 2.0 * multiplier >= period as real
  {
    hide SuperTrendAt;
    if period <= 0 || multiplier <= 0.0 {
      NoLine(period, multiplier);
    } else if 2.0 * multiplier >= period as real {
      forall candles: seq<Candle>, i: nat | i < |candles| && W.AllProper(candles)
        ensures !Across(candles, period, multiplier, i)
      {
        WideBandsKeepCloses(candles, period, multiplier, i);
      }
    } else {
      var candles := NarrowBandsLoseCloses(period, multiplier);
    }
  }

  lemma NoLine(period: int, multiplier: real)
    requires period <= 0 || multiplier <= 0.0
    ensures NeverAcross(period, multiplier)
  {
  }

  // ------------------------------------------------------------------ scaling

  type Scale = real -> real

  ghost predicate OrderPreserving(f: Scale) {
    forall a, b {:trigger f(a), f(b)} :: f(a) < f(b) <==> a < b
  }

  function MappedBar(b: Bar, f: Scale): Bar {
    Bar(f(b.middle), f(b.close), f(b.upper), f(b.lower))
  }

  function MappedTrend(t: Trend, f: Scale): Trend {
    Trend(f(t.upper), f(t.lower), f(t.line), t.up)
  }

  ghost predicate AreMapped(bars: seq<Bar>, bars': seq<Bar>, f: Scale) {
    |bars'| == |bars| && forall i | 0 <= i < |bars| :: bars'[i] == MappedBar(bars[i], f)
  }

  lemma NextCommutes(prev: Trend, prevClose: real, bar: Bar, f: Scale)
    requires OrderPreserving(f)
    ensures Next(MappedTrend(prev, f), f(prevClose), MappedBar(bar, f)) == MappedTrend(Next(prev, prevClose, bar), f)
  {
  }

  /** Each step of the machine commutes with f. */
  ghost predicate Commutes(f: Scale) {
    && (forall bar {:trigger First(MappedBar(bar, f))} :: First(MappedBar(bar, f)) == MappedTrend(First(bar), f))
    && (forall prev, close, bar {:trigger Next(MappedTrend(prev, f), f(close), MappedBar(bar, f))} ::
          Next(MappedTrend(prev, f), f(close), MappedBar(bar, f)) == MappedTrend(Next(prev, close, bar), f))
  }

  /** Every order-preserving change of the price scale does. */
  lemma OrderCommutes(f: Scale)
    requires OrderPreserving(f)
    ensures Commutes(f)
  {
    forall prev, close, bar
      ensures Next(MappedTrend(prev, f), f(close), MappedBar(bar, f)) == MappedTrend(Next(prev, close, bar), f)
    {
      NextCommutes(prev, close, bar, f);
    }
    forall bar ensures First(MappedBar(bar, f)) == MappedTrend(First(bar), f) { }
  }

  lemma {:induction false} MachineCommutes(bars: seq<Bar>, bars': seq<Bar>, f: Scale, i: nat)
    requires i < |bars| && Commutes(f) && AreMapped(bars, bars', f)
    ensures At(bars', i) == MappedTrend(At(bars, i), f)
  {
    if i > 0 { MachineCommutes(bars, bars', f, i - 1); }
  }

  function ScaledCandle(c: Candle, x: real): Candle {
    c.(high := x * c.high, low := x * c.low, close := x * c.close)
  }

  function Scaled(candles: seq<Candle>, x: real): (r: seq<Candle>)
    ensures |r| == |candles| && forall i | 0 <= i < |r| :: r[i] == ScaledCandle(candles[i], x)
  {
    seq(|candles|, i requires 0 <= i < |candles| => ScaledCandle(candles[i], x))
  }

  function By(x: real): Scale {
    (a: real) => x * a
  }

  lemma Compare(x: real, a: real, b: real)
    requires x > 0.0
    ensures x * a < x * b <==> a < b
  {
  }

  lemma Subtract(x: real, a: real, b: real)
    ensures x * a - x * b == x * (a - b)
  {
  }

  lemma Add(x: real, a: real, b: real)
    ensures x * a + x * b == x * (a + b)
  {
  }

  lemma ScaledAbs(x: real, d: real)
    requires x > 0.0
    ensures Abs(x * d) == x * Abs(d)
  {
    Compare(x, d, 0.0);
  }

  lemma ScaledMax(x: real, a: real, b: real, xa: real, xb: real)
    requires x > 0.0 && xa == x * a && xb == x * b
    ensures Max(xa, xb) == x * Max(a, b)
  {
    Compare(x, a, b);
  }

  lemma ScaledDistance(x: real, a: real, b: real)
    requires x > 0.0
    ensures Abs(x * a - x * b) == x * Abs(a - b)
  {
    Subtract(x, a, b);
    ScaledAbs(x, a - b);
  }

  lemma ScaledMax3(x: real, a: real, b: real, c: real, xa: real, xb: real, xc: real)
    requires x > 0.0 && xa == x * a && xb == x * b && xc == x * c
    ensures Max(Max(xa, xb), xc) == By(x)(Max(Max(a, b), c))
  {
    ScaledMax(x, a, b, xa, xb);
    ScaledMax(x, Max(a, b), c, Max(xa, xb), xc);
  }

  lemma ScaledDistances(x: real, h: real, l: real, p: real, xh: real, xl: real, xp: real)
    requires x > 0.0 && xh == x * h && xl == x * l && xp == x * p
    ensures xh - xl == x * (h - l) && Abs(xh - xp) == x * Abs(h - p) && Abs(xl - xp) == x * Abs(l - p)
  {
    Subtract(x, h, l);
    ScaledDistance(x, h, p);
    ScaledDistance(x, l, p);
  }

  lemma ScaledRange(x: real, h: real, l: real, p: real, xh: real, xl: real, xp: real)
    requires x > 0.0 && xh == x * h && xl == x * l && xp == x * p
    ensures W.Range(xh, xl, xp) == By(x)(W.Range(h, l, p))
  {
    ScaledDistances(x, h, l, p, xh, xl, xp);
    ScaledMax3(x, h - l, Abs(h - p), Abs(l - p), xh - xl, Abs(xh - xp), Abs(xl - xp));
  }

  lemma TrueRangeScales(candles: seq<Candle>, candles': seq<Candle>, x: real, i: nat)
    requires x > 0.0 && i < |candles| == |candles'| && candles'[i] == ScaledCandle(candles[i], x)
    requires i > 0 ==> candles'[i - 1] == ScaledCandle(candles[i - 1], x)
    ensures W.TrueRange(candles', i) == By(x)(W.TrueRange(candles, i))
  {
    var c, c' := candles[i], candles'[i];
    if i == 0 {
      Subtract(x, c.high, c.low);
    } else {
      PreviousRangeScales(c, candles[i - 1], x, c', candles'[i - 1]);
    }
  }

  lemma PreviousRangeScales(c: Candle, prev: Candle, x: real, c': Candle, prev': Candle)
    requires x > 0.0 && c' == ScaledCandle(c, x) && prev' == ScaledCandle(prev, x)
    ensures W.Range(c'.high, c'.low, prev'.close) == By(x)(W.Range(c.high, c.low, prev.close))
  {
    ScaledRange(x, c.high, c.low, prev.close, c'.high, c'.low, prev'.close);
  }

  ghost predicate AreScaled(xs: seq<real>, ys: seq<real>, f: Scale) {
    |ys| == |xs| && forall j | 0 <= j < |xs| :: ys[j] == f(xs[j])
  }

  lemma ByPreservesOrder(x: real)
    requires x > 0.0
    ensures OrderPreserving(By(x))
  {
    forall a, b ensures By(x)(a) < By(x)(b) <==> a < b { Compare(x, a, b); }
  }

  lemma RangesScale(candles: seq<Candle>, x: real)
    requires x > 0.0
    ensures AreScaled(W.TrueRanges(candles), W.TrueRanges(Scaled(candles, x)), By(x))
  {
    var xs, ys := W.TrueRanges(candles), W.TrueRanges(Scaled(candles, x));
    forall j | 0 <= j < |xs| ensures ys[j] == By(x)(xs[j]) {
      TrueRangeScales(candles, Scaled(candles, x), x, j);
    }
  }

  lemma {:induction false} SumScales(xs: seq<real>, ys: seq<real>, x: real, lo: nat, hi: nat)
    requires AreScaled(xs, ys, By(x)) && lo <= hi <= |xs|
    ensures Sum(ys, lo, hi) == x * Sum(xs, lo, hi)
    decreases hi
  {
    if lo < hi {
      SumScales(xs, ys, x, lo, hi - 1);
      Add(x, Sum(xs, lo, hi - 1), xs[hi - 1]);
    }
  }

  lemma QuotientScales(x: real, a: real, xa: real, p: real)
    requires p != 0.0 && xa == x * a
    ensures xa / p == x * (a / p)
  {
  }

  lemma MeanScales(xs: seq<real>, ys: seq<real>, x: real, lo: nat, period: int)
    requires AreScaled(xs, ys, By(x)) && period >= 1 && lo + period <= |xs|
    ensures W.Mean(ys, lo, period) == By(x)(W.Mean(xs, lo, period))
  {
    SumScales(xs, ys, x, lo, lo + period);
    QuotientScales(x, Sum(xs, lo, lo + period), Sum(ys, lo, lo + period), period as real);
  }

  /** f passes through Wilder's step. */
  ghost predicate PassesStep(f: Scale) {
    forall prev, v, p {:trigger W.Step(f(prev), f(v), p)} ::
      p != 0.0 ==> W.Step(f(prev), f(v), p) == f(W.Step(prev, v, p))
  }

  lemma StepScales(x: real, prev: real, v: real, xprev: real, xv: real, p: real)
    requires p != 0.0 && xprev == x * prev && xv == x * v
    ensures W.Step(xprev, xv, p) == x * W.Step(prev, v, p)
  {
    assert xprev * (p - 1.0) == x * (prev * (p - 1.0));
    Add(x, prev * (p - 1.0), v);
    QuotientScales(x, prev * (p - 1.0) + v, xprev * (p - 1.0) + xv, p);
  }

  lemma ByPassesStep(x: real)
    ensures PassesStep(By(x))
  {
    hide W.Step;
    forall prev, v, p | p != 0.0 ensures W.Step(By(x)(prev), By(x)(v), p) == By(x)(W.Step(prev, v, p)) {
      StepScales(x, prev, v, By(x)(prev), By(x)(v), p);
    }
  }

  lemma {:induction false} AverageScales(xs: seq<real>, ys: seq<real>, f: Scale, period: int, first: nat, i: nat)
    requires period >= 1 && first + period - 1 <= i < |xs| && AreScaled(xs, ys, f) && PassesStep(f)
    requires W.Mean(ys, first, period) == f(W.Mean(xs, first, period))
    ensures W.Average(ys, period, first, i) == f(W.Average(xs, period, first, i))
    decreases i
  {
    if i > first + period - 1 { AverageScales(xs, ys, f, period, first, i - 1); }
  }

  lemma BarScales(c: Candle, x: real, atr: real, xatr: real, multiplier: real)
    requires xatr == By(x)(atr)
    ensures MakeBar(ScaledCandle(c, x), xatr, multiplier) == MappedBar(MakeBar(c, atr, multiplier), By(x))
  {
    Add(x, c.high, c.low);
    QuotientScales(x, c.high + c.low, x * c.high + x * c.low, 2.0);
    assert multiplier * xatr == x * (multiplier * atr);
    Add(x, Hl2(c), multiplier * atr);
    Subtract(x, Hl2(c), multiplier * atr);
  }

  lemma BarAtScales(candles: seq<Candle>, x: real, period: int, multiplier: real, i: nat)
    requires x > 0.0 && period >= 1 && period - 1 <= i < |candles|
    requires W.Average(W.TrueRanges(Scaled(candles, x)), period, 0, i) ==
      By(x)(W.Average(W.TrueRanges(candles), period, 0, i))
    ensures BarAt(Scaled(candles, x), period, multiplier, i) == MappedBar(BarAt(candles, period, multiplier, i), By(x))
  {
    var atr, atr' :=
      W.Average(W.TrueRanges(candles), period, 0, i), W.Average(W.TrueRanges(Scaled(candles, x)), period, 0, i);
    BarScales(candles[i], x, atr, atr', multiplier);
  }

  lemma AtrScales(candles: seq<Candle>, x: real, period: int, i: nat)
    requires x > 0.0 && period >= 1 && period - 1 <= i < |candles|
    ensures W.Average(W.TrueRanges(Scaled(candles, x)), period, 0, i) ==
      By(x)(W.Average(W.TrueRanges(candles), period, 0, i))
  {
    var xs, ys := W.TrueRanges(candles), W.TrueRanges(Scaled(candles, x));
    RangesScale(candles, x);
    ByPassesStep(x);
    MeanScales(xs, ys, x, 0, period);
    AverageScales(xs, ys, By(x), period, 0, i);
  }

  lemma BarsScale(candles: seq<Candle>, x: real, period: int, multiplier: real)
    requires x > 0.0 && period >= 1
    ensures AreMapped(Bars(candles, period, multiplier), Bars(Scaled(candles, x), period, multiplier), By(x))
  {
    hide Bars, Scaled, By;
    var bars, bars' := Bars(candles, period, multiplier), Bars(Scaled(candles, x), period, multiplier);
    forall j | 0 <= j < |bars| ensures bars'[j] == MappedBar(bars[j], By(x)) {
      AtrScales(candles, x, period, period - 1 + j);
      BarAtScales(candles, x, period, multiplier, period - 1 + j);
    }
  }

  /** Main result: scaling all prices by a positive factor scales the line by it and keeps every
      direction, and every undefined value. */
  lemma SuperTrendScales(candles: seq<Candle>, x: real, period: int, multiplier: real, i: nat)
    requires x > 0.0 && i < |candles|
    ensures var before := SuperTrendAt(candles, period, multiplier, i);
      var after := SuperTrendAt(Scaled(candles, x), period, multiplier, i);
      if before.None? then after.None? else after == Some((By(x)(before.value.0), before.value.1))
  {
    hide Bars, At;
    if SuperTrendAt(candles, period, multiplier, i).Some? {
      BarsScale(candles, x, period, multiplier);
      ByPreservesOrder(x);
      OrderCommutes(By(x));
      MachineCommutes(Bars(candles, period, multiplier), Bars(Scaled(candles, x), period, multiplier),
                      By(x), i - (period - 1));
    }
  }
}
