/** The loops of shared/indicators/canonical.ts that fill preallocated result arrays from running
    sums and states.  Each is proved to leave, at every index, the value the indicator's definition
    gives there. */
module IndicatorLoops {
  import opened Basics
  import opened Series
  import C = Channels
  import M = MovingAverages
  import T = SuperTrend
  import W = Wilder

  type Result = array<Option<real>>

  lemma SumSlides(xs: seq<real>, period: nat, i: nat)
    requires 1 <= period <= i < |xs|
    ensures Sum(xs, i - period + 1, i + 1) == Sum(xs, i - period, i) + (xs[i] - xs[i - period])
  {
    SumSplit(xs, i - period, i - period + 1, i + 1);
    assert Sum(xs, i - period, i - period + 1) == Sum(xs, i - period, i - period) + xs[i - period];
  }

  method ComputeSMA(values: seq<real>, period: int) returns (result: Result)
    ensures fresh(result) && result.Length == |values|
    ensures forall i | 0 <= i < |values| :: result[i] == M.SmaAt(values, period, i)
  {
    var n := |values|;
    result := new Option<real>[n](_ => None);
    if period <= 0 || period > n { return; }
    var sum := 0.0;
    for i := 0 to period
      invariant sum == Sum(values, 0, i)
    {
      sum := sum + values[i];
    }
    result[period - 1] := Some(sum / period as real);
    for i := period to n
      invariant sum == Sum(values, i - period, i)
      invariant forall j | 0 <= j < i :: result[j] == M.SmaAt(values, period, j)
    {
      SumSlides(values, period, i);
      sum := sum + (values[i] - values[i - period]);
      result[i] := Some(sum / period as real);
    }
  }

  method ComputeEMA(values: seq<real>, period: int) returns (result: Result)
    ensures fresh(result) && result.Length == |values|
    ensures forall i | 0 <= i < |values| :: result[i] == M.EmaAt(values, period, i)
  {
    var n := |values|;
    result := new Option<real>[n](_ => None);
    if period <= 0 || period > n { return; }
    var k := M.Smoothing(period);
    var sum := 0.0;
    for i := 0 to period
      invariant sum == Sum(values, 0, i)
    {
      sum := sum + values[i];
    }
    var prev := sum / period as real;
    result[period - 1] := Some(prev);
    for i := period to n
      invariant prev == M.Ema(values, period, i - 1)
      invariant forall j | 0 <= j < i :: result[j] == M.EmaAt(values, period, j)
    {
      prev := M.Blend(k, values[i], prev);
      result[i] := Some(prev);
    }
  }

  /** An average and its loss against bars up to i, as the RSI loop carries them. */
  ghost predicate AveragesAt(closes: seq<real>, period: int, i: nat, gain: real, loss: real)
    requires period >= 1 && period <= i < |closes|
  {
    && gain >= 0.0 && loss >= 0.0
    && gain == W.Average(W.Gains(closes), period, 1, i)
    && loss == W.Average(W.Losses(closes), period, 1, i)
  }

  lemma MoveAt(closes: seq<real>, i: nat)
    requires 0 < i < |closes|
    ensures var change := closes[i] - closes[i - 1];
      && W.Gains(closes)[i] == (if change > 0.0 then change else 0.0)
      && W.Losses(closes)[i] == (if change > 0.0 then 0.0 else Abs(change))
  {
  }

  lemma RsiFromAverages(closes: seq<real>, period: int, i: nat, gain: real, loss: real)
    requires period >= 1 && period <= i < |closes| && AveragesAt(closes, period, i, gain, loss)
    ensures W.RsiAt(closes, period, i) == Some(W.Strength(gain, loss))
  {
  }

  /** One bar of Wilder's recursion. */
  method NextAverage(closes: seq<real>, period: int, i: nat, avgGain: real, avgLoss: real)
    returns (gain: real, loss: real, rsi: real)
    requires period >= 1 && period < i < |closes| && AveragesAt(closes, period, i - 1, avgGain, avgLoss)
    ensures AveragesAt(closes, period, i, gain, loss) && W.RsiAt(closes, period, i) == Some(rsi)
  {
    var change := closes[i] - closes[i - 1];
    MoveAt(closes, i);
    gain := W.Step(avgGain, if change > 0.0 then change else 0.0, period as real);
    loss := W.Step(avgLoss, if change < 0.0 then -change else 0.0, period as real);
    W.AverageNonNegative(W.Gains(closes), period, 1, i);
    W.AverageNonNegative(W.Losses(closes), period, 1, i);
    rsi := W.Strength(gain, loss);
    RsiFromAverages(closes, period, i, gain, loss);
  }

  /** The mean gain and loss of the first `period` changes. */
  method InitialAverages(closes: seq<real>, period: int) returns (gain: real, loss: real, rsi: real)
    requires 1 <= period < |closes|
    ensures AveragesAt(closes, period, period, gain, loss) && W.RsiAt(closes, period, period) == Some(rsi)
  {
    ghost var gains, losses := W.Gains(closes), W.Losses(closes);
    gain, loss := 0.0, 0.0;
    for i := 1 to period + 1
      invariant gain == Sum(gains, 1, i) && loss == Sum(losses, 1, i)
    {
      var change := closes[i] - closes[i - 1];
      MoveAt(closes, i);
      if change > 0.0 { gain := gain + change; } else { loss := loss + Abs(change); }
    }
    gain := gain / period as real;
    loss := loss / period as real;
    W.AverageNonNegative(gains, period, 1, period);
    W.AverageNonNegative(losses, period, 1, period);
    rsi := W.Strength(gain, loss);
    RsiFromAverages(closes, period, period, gain, loss);
  }

  lemma RsiWarming(closes: seq<real>, period: int)
    ensures forall i | 0 <= i < |closes| && (period <= 0 || i < period) :: W.RsiAt(closes, period, i) == None
  {
  }

  method ComputeRSI(closes: seq<real>, period: int) returns (result: Result)
    ensures fresh(result) && result.Length == |closes|
    ensures forall i | 0 <= i < |closes| :: result[i] == W.RsiAt(closes, period, i)
  {
    hide *;
    RsiWarming(closes, period);
    var n := |closes|;
    result := new Option<real>[n](_ => None);
    if period <= 0 || n <= period { return; }
    var avgGain, avgLoss, rsi := InitialAverages(closes, period);
    result[period] := Some(rsi);
    for i := period + 1 to n
      invariant AveragesAt(closes, period, i - 1, avgGain, avgLoss)
      invariant forall j | 0 <= j < i :: result[j] == W.RsiAt(closes, period, j)
    {
      avgGain, avgLoss, rsi := NextAverage(closes, period, i, avgGain, avgLoss);
      result[i] := Some(rsi);
    }
  }

  /** The series is undefined up to a point and carries `values` from there on. */
  ghost predicate Shifted(series: seq<Option<real>>, values: seq<real>) {
    && |values| <= |series|
    && forall j | 0 <= j < |series| ::
         series[j] == if j < |series| - |values| then None else Some(values[j - (|series| - |values|)])
  }

  /** findIndex of the first defined value, or the length. */
  method FindDefined(series: Result) returns (first: nat)
    ensures first <= series.Length && forall j | 0 <= j < first :: series[j].None?
    ensures first < series.Length ==> series[first].Some?
  {
    first := 0;
    while first < series.Length && series[first].None?
      invariant first <= series.Length && forall j | 0 <= j < first :: series[j].None?
    {
      first := first + 1;
    }
  }

  /** The defined part of a series, and where it starts. */
  method DefinedPart(series: Result, ghost values: seq<real>) returns (first: nat, valid: seq<real>)
    requires Shifted(series[..], values)
    ensures first == series.Length - |values| && valid == values
  {
    first := FindDefined(series);
    assert forall j | 0 <= j < series.Length :: series[j] == series[..][j];
    if first < series.Length { assert series[first] == series[..][first]; }
    if 0 < |values| { assert series[..][series.Length - |values|].Some?; }
    valid := [];
    for i := first to series.Length
      invariant valid == values[..i - first]
    {
      if series[i].Some? { valid := valid + [series[i].value]; }
    }
  }

  method FillLine(values: seq<real>, fast: int, slow: int) returns (macd: Result)
    requires fast > 0 && slow > 0
    ensures fresh(macd) && macd.Length == |values|
    ensures forall i | 0 <= i < |values| :: macd[i] == M.LineAt(values, fast, slow, i)
  {
    var n := |values|;
    macd := new Option<real>[n](_ => None);
    var fastEMA := ComputeEMA(values, fast);
    var slowEMA := ComputeEMA(values, slow);
    for i := 0 to n
      invariant forall j | 0 <= j < i :: macd[j] == M.LineAt(values, fast, slow, j)
      invariant forall j | i <= j < n :: macd[j] == None
      modifies macd
    {
      if fastEMA[i].Some? && slowEMA[i].Some? {
        macd[i] := Some(fastEMA[i].value - slowEMA[i].value);
      }
    }
  }

  lemma LineShifted(values: seq<real>, fast: int, slow: int, macd: seq<Option<real>>)
    requires fast > 0 && slow > 0 && |macd| == |values|
    requires forall i | 0 <= i < |values| :: macd[i] == M.LineAt(values, fast, slow, i)
    ensures Shifted(macd, M.LineValues(values, fast, slow))
  {
  }

  function Gap(m: Option<real>, s: Option<real>): Option<real> {
    if m.Some? && s.Some? then Some(m.value - s.value) else None
  }

  /** Put a series that starts at bar `first` back in place, and subtract it from the line. */
  method Align(macd: Result, valid: Result, first: nat) returns (signal: Result, histogram: Result)
    requires first + valid.Length == macd.Length
    ensures fresh(signal) && fresh(histogram) && signal.Length == histogram.Length == macd.Length
    ensures forall i | 0 <= i < macd.Length ::
      signal[i] == (if i < first then None else valid[i - first]) && histogram[i] == Gap(macd[i], signal[i])
  {
    var n := macd.Length;
    signal := new Option<real>[n](_ => None);
    histogram := new Option<real>[n](_ => None);
    for i := 0 to valid.Length
      invariant forall j | 0 <= j < n ::
        && signal[j] == (if first <= j < first + i then valid[j - first] else None)
        && histogram[j] == Gap(macd[j], signal[j])
      modifies signal, histogram
    {
      var sig := valid[i];
      signal[first + i] := sig;
      if macd[first + i].Some? && sig.Some? {
        histogram[first + i] := Some(macd[first + i].value - sig.value);
      }
    }
  }

  method ComputeMACD(values: seq<real>, fast: int, slow: int, signalPeriod: int)
    returns (macd: Result, signal: Result, histogram: Result)
    ensures fresh(macd) && fresh(signal) && fresh(histogram)
    ensures macd.Length == signal.Length == histogram.Length == |values|
    ensures forall i | 0 <= i < |values| :: macd[i] == M.LineAt(values, fast, slow, i)
    ensures forall i | 0 <= i < |values| :: signal[i] == M.SignalAt(values, fast, slow, signalPeriod, i)
    ensures forall i | 0 <= i < |values| :: histogram[i] == M.HistogramAt(values, fast, slow, signalPeriod, i)
  {
    var n := |values|;
    if slow <= 0 || fast <= 0 || n < slow {
      macd := new Option<real>[n](_ => None);
      signal := new Option<real>[n](_ => None);
      histogram := new Option<real>[n](_ => None);
      return;
    }
    macd := FillLine(values, fast, slow);
    LineShifted(values, fast, slow, macd[..]);
    var first, validMacd := DefinedPart(macd, M.LineValues(values, fast, slow));
    var signalValid := ComputeEMA(validMacd, signalPeriod);
    signal, histogram := Align(macd, signalValid, first);
  }

  /** The true-range array both ATR and ADX fill first. */
  method FillTrueRanges(candles: seq<Candle>) returns (tr: array<real>)
    requires |candles| > 0
    ensures fresh(tr) && tr[..] == W.TrueRanges(candles)
  {
    var n := |candles|;
    tr := new real[n](_ => 0.0);
    tr[0] := candles[0].high - candles[0].low;
    for i := 1 to n
      invariant forall j | 0 <= j < i :: tr[j] == W.TrueRange(candles, j)
    {
      var h, l, prevC := candles[i].high, candles[i].low, candles[i - 1].close;
      tr[i] := Max(Max(h - l, Abs(h - prevC)), Abs(l - prevC));
    }
  }

  lemma AtrWarming(candles: seq<Candle>, period: int)
    ensures forall i | 0 <= i < |candles| && (period <= 0 || i < period - 1) :: W.AtrAt(candles, period, i) == None
  {
  }

  /** The running ATR at bar i. */
  ghost predicate RunningAtr(candles: seq<Candle>, period: int, i: nat, atr: real)
    requires period >= 1 && period - 1 <= i < |candles|
  {
    atr == W.Average(W.TrueRanges(candles), period, 0, i)
  }

  lemma AtrFromRunning(candles: seq<Candle>, period: int, i: nat, atr: real)
    requires period >= 1 && period - 1 <= i < |candles| && RunningAtr(candles, period, i, atr)
    ensures W.AtrAt(candles, period, i) == Some(atr)
  {
  }

  method InitialAtr(candles: seq<Candle>, period: int, trValues: array<real>) returns (atr: real)
    requires 1 <= period <= |candles| && trValues[..] == W.TrueRanges(candles)
    ensures RunningAtr(candles, period, period - 1, atr)
  {
    atr := 0.0;
    for i := 0 to period
      invariant atr == Sum(trValues[..], 0, i)
    {
      atr := atr + trValues[i];
    }
    atr := atr / period as real;
  }

  lemma NextAtr(candles: seq<Candle>, period: int, i: nat, atr: real)
    requires 1 <= period <= i < |candles| && RunningAtr(candles, period, i - 1, atr)
    ensures RunningAtr(candles, period, i, W.Step(atr, W.TrueRanges(candles)[i], period as real))
  {
  }

  method ComputeATR(candles: seq<Candle>, period: int) returns (result: Result)
    ensures fresh(result) && result.Length == |candles|
    ensures forall i | 0 <= i < |candles| :: result[i] == W.AtrAt(candles, period, i)
  {
    hide *;
    var n := |candles|;
    result := new Option<real>[n](_ => None);
    AtrWarming(candles, period);
    if period <= 0 || n < period { return; }
    var trValues := FillTrueRanges(candles);
    var atr := InitialAtr(candles, period, trValues);
    AtrFromRunning(candles, period, period - 1, atr);
    result[period - 1] := Some(atr);
    for i := period to n
      invariant RunningAtr(candles, period, i - 1, atr)
      invariant forall j | 0 <= j < i :: result[j] == W.AtrAt(candles, period, j)
      modifies result
    {
      assert trValues[i] == trValues[..][i];
      NextAtr(candles, period, i, atr);
      atr := W.Step(atr, trValues[i], period as real);
      AtrFromRunning(candles, period, i, atr);
      result[i] := Some(atr);
    }
  }

  method ComputeVWAP(candles: seq<Candle>) returns (result: Result)
    ensures fresh(result) && result.Length == |candles|
    ensures forall i | 0 <= i < |candles| :: result[i] == C.VwapAt(candles, i)
  {
    var n := |candles|;
    result := new Option<real>[n](_ => None);
    var cumPV, cumV := 0.0, 0.0;
    var session: Option<int> := None;
    for i := 0 to n
      invariant i == 0 ==> session == None && cumPV == 0.0 && cumV == 0.0
      invariant i > 0 ==>
        var start := C.SessionStart(candles, i - 1);
        && session == C.Session(candles, i - 1)
        && cumPV == C.PriceVolume(candles, start, i) && cumV == C.Volume(candles, start, i)
      invariant forall j | 0 <= j < i :: result[j] == C.VwapAt(candles, j)
      invariant forall j | i <= j < n :: result[j] == None
    {
      var istDay := C.IstDay(candles[i]);
      if istDay.Some? && istDay != session {
        session := istDay;
        cumPV, cumV := 0.0, 0.0;
      }
      cumPV := cumPV + C.Turnover(candles[i]);
      cumV := cumV + candles[i].volume;
      if cumV > 0.0 { result[i] := Some(cumPV / cumV); }
    }
  }

  /** The highest high and lowest low of candles[lo..hi], by scanning. */
  method ScanWindow(candles: seq<Candle>, lo: nat, hi: nat) returns (maxH: real, minL: real)
    requires lo < hi <= |candles|
    ensures maxH == Highest(Highs(candles), lo, hi) && minL == Lowest(Lows(candles), lo, hi)
  {
    maxH, minL := candles[lo].high, candles[lo].low;
    for j := lo + 1 to hi
      invariant maxH == Highest(Highs(candles), lo, j) && minL == Lowest(Lows(candles), lo, j)
    {
      var h, l := candles[j].high, candles[j].low;
      if h > maxH { maxH := h; }
      if l < minL { minL := l; }
    }
  }

  method ComputeDonchian(candles: seq<Candle>, period: int) returns (upper: Result, middle: Result, lower: Result)
    ensures fresh(upper) && fresh(middle) && fresh(lower)
    ensures upper.Length == middle.Length == lower.Length == |candles|
    ensures forall i | 0 <= i < |candles| ::
      match C.DonchianAt(candles, period, i)
      case None => upper[i] == None && middle[i] == None && lower[i] == None
      case Some(d) => upper[i] == Some(d.0) && middle[i] == Some(d.1) && lower[i] == Some(d.2)
  {
    var n := |candles|;
    upper := new Option<real>[n](_ => None);
    middle := new Option<real>[n](_ => None);
    lower := new Option<real>[n](_ => None);
    if period <= 0 || n < period { return; }
    for i := period - 1 to n
      invariant forall j | 0 <= j < i ::
        match C.DonchianAt(candles, period, j)
        case None => upper[j] == None && middle[j] == None && lower[j] == None
        case Some(d) => upper[j] == Some(d.0) && middle[j] == Some(d.1) && lower[j] == Some(d.2)
    {
      var maxH, minL := ScanWindow(candles, i - period + 1, i + 1);
      upper[i] := Some(maxH);
      lower[i] := Some(minL);
      middle[i] := Some((maxH + minL) / 2.0);
    }
  }

  method FillPercentK(candles: seq<Candle>, kPeriod: int) returns (k: Result)
    requires 1 <= kPeriod <= |candles|
    ensures fresh(k) && k.Length == |candles|
    ensures forall i | 0 <= i < |candles| :: k[i] == C.StochasticAt(candles, kPeriod, i)
  {
    var n := |candles|;
    k := new Option<real>[n](_ => None);
    for i := kPeriod - 1 to n
      invariant forall j | 0 <= j < i :: k[j] == C.StochasticAt(candles, kPeriod, j)
    {
      var highest, lowest := ScanWindow(candles, i - kPeriod + 1, i + 1);
      var range := highest - lowest;
      k[i] := Some(if range > 0.0 then (candles[i].close - lowest) / range * 100.0 else 50.0);
    }
  }

  lemma KShifted(candles: seq<Candle>, kPeriod: int, k: seq<Option<real>>)
    requires 1 <= kPeriod <= |candles| && |k| == |candles|
    requires forall i | 0 <= i < |candles| :: k[i] == C.StochasticAt(candles, kPeriod, i)
    ensures Shifted(k, C.KValues(candles, kPeriod))
  {
  }

  method ComputeStochastic(candles: seq<Candle>, kPeriod: int, dPeriod: int) returns (k: Result, d: Result)
    ensures fresh(k) && fresh(d) && k.Length == d.Length == |candles|
    ensures forall i | 0 <= i < |candles| :: k[i] == C.StochasticAt(candles, kPeriod, i)
    ensures forall i | 0 <= i < |candles| :: d[i] == C.PercentDAt(candles, kPeriod, dPeriod, i)
  {
    var n := |candles|;
    d := new Option<real>[n](_ => None);
    if kPeriod <= 0 || n < kPeriod {
      k := new Option<real>[n](_ => None);
      return;
    }
    k := FillPercentK(candles, kPeriod);
    KShifted(candles, kPeriod, k[..]);
    var first, validKVals := DefinedPart(k, C.KValues(candles, kPeriod));
    var dSma := ComputeSMA(validKVals, dPeriod);
    for i := 0 to dSma.Length
      invariant forall j | 0 <= j < first + i :: d[j] == C.PercentDAt(candles, kPeriod, dPeriod, j)
      modifies d
    {
      d[first + i] := dSma[i];
    }
  }

  // ------------------------------------------------------------------ Bollinger bands

  method SumSquares(closes: seq<real>, mid: real, lo: nat, hi: nat) returns (sumSq: real)
    requires lo <= hi <= |closes|
    ensures sumSq == C.SquaredDeviations(closes, mid, lo, hi)
  {
    sumSq := 0.0;
    for j := lo to hi
      invariant sumSq == C.SquaredDeviations(closes, mid, lo, j)
    {
      sumSq := sumSq + C.Square(closes[j] - mid);
    }
  }

  ghost predicate BandsFilled(bands: Option<C.Bands>, upper: Option<real>, middle: Option<real>,
                              lower: Option<real>, width: Option<real>) {
    match bands
    case None => upper == middle == lower == width == None
    case Some(b) => upper == Some(b.upper) && middle == Some(b.middle) && lower == Some(b.lower) && width == b.width
  }

  lemma BandsWarming(closes: seq<real>, period: int, multiplier: real, sqrt: C.Root)
    ensures forall i | 0 <= i < |closes| && (period <= 0 || i < period - 1) ::
      BandsFilled(C.BandsAt(closes, period, multiplier, sqrt, i), None, None, None, None)
    ensures forall i | 0 <= i < |closes| && (period <= 0 || i < period - 1) :: M.SmaAt(closes, period, i) == None
  {
  }

  lemma BandsFromDeviations(closes: seq<real>, period: int, multiplier: real, sqrt: C.Root, i: nat, mid: real,
                            sumSq: real)
    requires 1 <= period && period - 1 <= i < |closes| && M.SmaAt(closes, period, i) == Some(mid)
    requires sumSq == C.SquaredDeviations(closes, mid, i - period + 1, i + 1)
    ensures C.BandsAt(closes, period, multiplier, sqrt, i) ==
      Some(C.MakeBands(mid, sqrt(sumSq / period as real), multiplier))
  {
  }

  lemma SmaDefined(closes: seq<real>, period: int, i: nat)
    requires 1 <= period && period - 1 <= i < |closes|
    ensures M.SmaAt(closes, period, i).Some?
  {
  }

  lemma BandsAreFilled(mid: real, sd: real, multiplier: real)
    ensures var b := C.MakeBands(mid, sd, multiplier);
      BandsFilled(Some(b), Some(b.upper), Some(mid), Some(b.lower), b.width)
  {
  }

  method ComputeBollingerBands(closes: seq<real>, period: int, multiplier: real, sqrt: C.Root)
    returns (upper: Result, middle: Result, lower: Result, width: Result)
    ensures fresh(upper) && fresh(middle) && fresh(lower) && fresh(width)
    ensures upper.Length == middle.Length == lower.Length == width.Length == |closes|
    ensures forall i | 0 <= i < |closes| ::
      BandsFilled(C.BandsAt(closes, period, multiplier, sqrt, i), upper[i], middle[i], lower[i], width[i])
  {
    hide *;
    var n := |closes|;
    upper := new Option<real>[n](_ => None);
    lower := new Option<real>[n](_ => None);
    width := new Option<real>[n](_ => None);
    middle := ComputeSMA(closes, period);
    BandsWarming(closes, period, multiplier, sqrt);
    if period <= 0 || n < period { return; }
    for i := period - 1 to n
      invariant forall j | 0 <= j < i ::
        BandsFilled(C.BandsAt(closes, period, multiplier, sqrt, j), upper[j], middle[j], lower[j], width[j])
      modifies upper, lower, width
    {
      SmaDefined(closes, period, i);
      var mid := middle[i].value;
      var sumSq := SumSquares(closes, mid, i - period + 1, i + 1);
      var sd := sqrt(sumSq / period as real);
      var bands := C.MakeBands(mid, sd, multiplier);
      BandsFromDeviations(closes, period, multiplier, sqrt, i, mid, sumSq);
      BandsAreFilled(mid, sd, multiplier);
      upper[i], lower[i], width[i] := Some(bands.upper), Some(bands.lower), bands.width;
    }
  }

  // ------------------------------------------------------------------ ADX

  method FillMoves(candles: seq<Candle>) returns (tr: array<real>, plusDM: array<real>, minusDM: array<real>)
    requires |candles| > 0
    ensures fresh(tr) && fresh(plusDM) && fresh(minusDM)
    ensures tr[..] == W.TrueRanges(candles)
    ensures plusDM[..] == W.PlusMoves(candles) && minusDM[..] == W.MinusMoves(candles)
  {
    var n := |candles|;
    tr := FillTrueRanges(candles);
    plusDM := new real[n](_ => 0.0);
    minusDM := new real[n](_ => 0.0);
    for i := 1 to n
      invariant forall j | 0 <= j < i :: plusDM[j] == W.PlusMove(candles, j) && minusDM[j] == W.MinusMove(candles, j)
      invariant forall j | i <= j < n :: plusDM[j] == 0.0 && minusDM[j] == 0.0
      modifies plusDM, minusDM
    {
      var upMove := candles[i].high - candles[i - 1].high;
      var downMove := candles[i - 1].low - candles[i].low;
      if upMove > downMove && upMove > 0.0 { plusDM[i] := upMove; }
      if downMove > upMove && downMove > 0.0 { minusDM[i] := downMove; }
    }
  }

  /** What one bar leaves in plusDI, minusDI and dxValues. */
  ghost predicate DiFilled(di: Option<(real, real)>, plus: Option<real>, minus: Option<real>, dx: Option<real>) {
    match di
    case None => plus == minus == dx == None
    case Some(d) => plus == Some(d.0) && minus == Some(d.1) && dx == Some(W.Index(d))
  }

  function Di(range: real, plus: real, minus: real): Option<(real, real)> {
    if range == 0.0 then None else Some((W.Share(plus, range), W.Share(minus, range)))
  }

  method CalcDI(plusDI: Result, minusDI: Result, dxValues: Result, idx: nat, sTR: real, sPDM: real, sMDM: real)
    requires idx < plusDI.Length == minusDI.Length == dxValues.Length
    requires plusDI != minusDI && minusDI != dxValues && dxValues != plusDI
    requires plusDI[idx] == minusDI[idx] == dxValues[idx] == None
    modifies plusDI, minusDI, dxValues
    ensures DiFilled(Di(sTR, sPDM, sMDM), plusDI[idx], minusDI[idx], dxValues[idx])
    ensures forall j | 0 <= j < plusDI.Length && j != idx ::
      plusDI[j] == old(plusDI[j]) && minusDI[j] == old(minusDI[j]) && dxValues[j] == old(dxValues[j])
  {
    if sTR == 0.0 { return; }
    var pDI, mDI := W.Share(sPDM, sTR), W.Share(sMDM, sTR);
    plusDI[idx] := Some(pDI);
    minusDI[idx] := Some(mDI);
    dxValues[idx] := Some(W.Index((pDI, mDI)));
  }

  method InitialSum(xs: array<real>, period: int) returns (sum: real)
    requires 1 <= period < xs.Length
    ensures sum == W.Smoothed(xs[..], period, period)
  {
    sum := 0.0;
    for i := 1 to period + 1
      invariant sum == Sum(xs[..], 1, i)
    {
      sum := sum + xs[i];
    }
  }

  /** The three smoothed totals at bar i. */
  ghost predicate TotalsAt(candles: seq<Candle>, period: int, i: nat, sTR: real, sPDM: real, sMDM: real)
    requires period >= 1 && period <= i < |candles|
  {
    && sTR == W.Smoothed(W.TrueRanges(candles), period, i)
    && sPDM == W.Smoothed(W.PlusMoves(candles), period, i)
    && sMDM == W.Smoothed(W.MinusMoves(candles), period, i)
  }

  lemma DirectionalFromTotals(candles: seq<Candle>, period: int, i: nat, sTR: real, sPDM: real, sMDM: real)
    requires 2 * period <= |candles| && period >= 1 && period <= i < |candles|
    requires TotalsAt(candles, period, i, sTR, sPDM, sMDM)
    ensures W.DiAt(candles, period, i) == Di(sTR, sPDM, sMDM)
  {
  }

  method InitialTotals(candles: seq<Candle>, period: int, tr: array<real>, plusDM: array<real>, minusDM: array<real>)
    returns (smoothTR: real, smoothPlusDM: real, smoothMinusDM: real)
    requires 1 <= period < |candles|
    requires tr[..] == W.TrueRanges(candles) && plusDM[..] == W.PlusMoves(candles)
      && minusDM[..] == W.MinusMoves(candles)
    ensures TotalsAt(candles, period, period, smoothTR, smoothPlusDM, smoothMinusDM)
  {
    smoothTR := InitialSum(tr, period);
    smoothPlusDM := InitialSum(plusDM, period);
    smoothMinusDM := InitialSum(minusDM, period);
  }

  method NextTotals(candles: seq<Candle>, period: int, i: nat, tr: array<real>, plusDM: array<real>,
                    minusDM: array<real>,
                    sTR: real, sPDM: real, sMDM: real)
    returns (smoothTR: real, smoothPlusDM: real, smoothMinusDM: real)
    requires 1 <= period < i < |candles| && TotalsAt(candles, period, i - 1, sTR, sPDM, sMDM)
    requires tr[..] == W.TrueRanges(candles) && plusDM[..] == W.PlusMoves(candles)
      && minusDM[..] == W.MinusMoves(candles)
    ensures TotalsAt(candles, period, i, smoothTR, smoothPlusDM, smoothMinusDM)
  {
    assert tr[i] == tr[..][i] && plusDM[i] == plusDM[..][i] && minusDM[i] == minusDM[..][i];
    smoothTR := sTR - sTR / period as real + tr[i];
    smoothPlusDM := sPDM - sPDM / period as real + plusDM[i];
    smoothMinusDM := sMDM - sMDM / period as real + minusDM[i];
  }

  lemma DiWarming(candles: seq<Candle>, period: int)
    ensures forall i | 0 <= i < |candles| && i < period :: DiFilled(W.DiAt(candles, period, i), None, None, None)
  {
  }

  method FillDirectional(candles: seq<Candle>, period: int) returns (plusDI: Result, minusDI: Result, dxValues: Result)
    requires period >= 1 && 2 * period <= |candles|
    ensures fresh(plusDI) && fresh(minusDI) && fresh(dxValues)
    ensures plusDI.Length == minusDI.Length == dxValues.Length == |candles|
    ensures forall i | 0 <= i < |candles| ::
      DiFilled(W.DiAt(candles, period, i), plusDI[i], minusDI[i], dxValues[i])
  {
    hide *;
    var n := |candles|;
    plusDI := new Option<real>[n](_ => None);
    minusDI := new Option<real>[n](_ => None);
    dxValues := new Option<real>[n](_ => None);
    DiWarming(candles, period);
    var tr, plusDM, minusDM := FillMoves(candles);
    var smoothTR, smoothPlusDM, smoothMinusDM := InitialTotals(candles, period, tr, plusDM, minusDM);
    DirectionalFromTotals(candles, period, period, smoothTR, smoothPlusDM, smoothMinusDM);
    CalcDI(plusDI, minusDI, dxValues, period, smoothTR, smoothPlusDM, smoothMinusDM);
    for i := period + 1 to n
      invariant TotalsAt(candles, period, i - 1, smoothTR, smoothPlusDM, smoothMinusDM)
      invariant forall j | 0 <= j < i :: DiFilled(W.DiAt(candles, period, j), plusDI[j], minusDI[j], dxValues[j])
      invariant forall j | i <= j < n :: plusDI[j] == minusDI[j] == dxValues[j] == None
      modifies plusDI, minusDI, dxValues
    {
      smoothTR, smoothPlusDM, smoothMinusDM :=
        NextTotals(candles, period, i, tr, plusDM, minusDM, smoothTR, smoothPlusDM, smoothMinusDM);
      DirectionalFromTotals(candles, period, i, smoothTR, smoothPlusDM, smoothMinusDM);
      CalcDI(plusDI, minusDI, dxValues, i, smoothTR, smoothPlusDM, smoothMinusDM);
    }
  }

  ghost predicate DxFilled(candles: seq<Candle>, period: int, i: nat, dx: Option<real>)
    requires period >= 1 && i < |candles|
  {
    dx == if i < period then None else W.DxAt(candles, period, i)
  }

  /** The sum of the first `period` DX values, and how many of them are defined. */
  method SeedAdx(ghost candles: seq<Candle>, period: int, dxValues: Result) returns (adxSum: real, validCount: int)
    requires period >= 1 && 2 * period <= |candles| == dxValues.Length
    requires forall i | 0 <= i < |candles| :: DxFilled(candles, period, i, dxValues[i])
    ensures adxSum == Sum(W.DxValues(candles, period), period, 2 * period)
    ensures validCount == period <==> W.Seeded(candles, period)
  {
    adxSum, validCount := 0.0, 0;
    for i := period to 2 * period
      invariant adxSum == Sum(W.DxValues(candles, period), period, i)
      invariant validCount <= i - period
      invariant validCount == i - period <==> forall j | period <= j < i :: W.DxAt(candles, period, j).Some?
    {
      assert DxFilled(candles, period, i, dxValues[i]);
      if dxValues[i].Some? {
        adxSum := adxSum + dxValues[i].value;
        validCount := validCount + 1;
      }
    }
  }

  lemma AdxWarming(candles: seq<Candle>, period: int)
    requires period >= 1 && 2 * period <= |candles|
    ensures forall i | 0 <= i < |candles| && (i < 2 * period - 1 || !W.Seeded(candles, period)) ::
      W.AdxAt(candles, period, i) == None
  {
  }

  lemma FirstAdx(candles: seq<Candle>, period: int, adxSum: real)
    requires period >= 1 && 2 * period <= |candles| && W.Seeded(candles, period)
    requires adxSum == Sum(W.DxValues(candles, period), period, 2 * period)
    ensures var last := 2 * period - 1;
      && W.AdxValue(candles, period, last) == adxSum / period as real
      && W.AdxAt(candles, period, last) == Some(W.AdxValue(candles, period, last))
  {
    assert W.DxAt(candles, period, 2 * period - 1).Some?;
  }

  lemma NextAdx(candles: seq<Candle>, period: int, i: nat, dx: Option<real>)
    requires period >= 1 && 2 * period <= i < |candles| && W.Seeded(candles, period) && DxFilled(candles, period, i, dx)
    ensures var prev := W.AdxValue(candles, period, i - 1);
      var now := if dx.Some? then W.Step(prev, dx.value, period as real) else prev;
      && W.AdxValue(candles, period, i) == now
      && W.AdxAt(candles, period, i) == if dx.Some? then Some(now) else None
  {
  }

  method SmoothDx(ghost candles: seq<Candle>, period: int, dxValues: Result) returns (adx: Result)
    requires period >= 1 && 2 * period <= |candles| == dxValues.Length
    requires forall i | 0 <= i < |candles| :: DxFilled(candles, period, i, dxValues[i])
    ensures fresh(adx) && adx.Length == |candles|
    ensures forall i | 0 <= i < |candles| :: adx[i] == W.AdxAt(candles, period, i)
  {
    hide *;
    var n := dxValues.Length;
    adx := new Option<real>[n](_ => None);
    AdxWarming(candles, period);
    var adxSum, validCount := SeedAdx(candles, period, dxValues);
    if validCount != period { return; }
    var last := 2 * period - 1;
    var adxVal := adxSum / period as real;
    FirstAdx(candles, period, adxSum);
    adx[last] := Some(adxVal);
    for i := last + 1 to n
      invariant adxVal == W.AdxValue(candles, period, i - 1)
      invariant forall j | 0 <= j < i :: adx[j] == W.AdxAt(candles, period, j)
      invariant forall j | i <= j < n :: adx[j] == None
      modifies adx
    {
      NextAdx(candles, period, i, dxValues[i]);
      if dxValues[i].Some? {
        adxVal := W.Step(adxVal, dxValues[i].value, period as real);
        adx[i] := Some(adxVal);
      }
    }
  }

  method ComputeADX(candles: seq<Candle>, period: int) returns (adx: Result, plusDI: Result, minusDI: Result)
    ensures fresh(adx) && fresh(plusDI) && fresh(minusDI)
    ensures adx.Length == plusDI.Length == minusDI.Length == |candles|
    ensures forall i | 0 <= i < |candles| :: adx[i] == W.AdxAt(candles, period, i)
    ensures forall i | 0 <= i < |candles| ::
      match W.DiAt(candles, period, i)
      case None => plusDI[i] == minusDI[i] == None
      case Some(di) => plusDI[i] == Some(di.0) && minusDI[i] == Some(di.1)
  {
    var n := |candles|;
    if period <= 0 || n < period * 2 {
      adx := new Option<real>[n](_ => None);
      plusDI := new Option<real>[n](_ => None);
      minusDI := new Option<real>[n](_ => None);
      return;
    }
    var dxValues: Result;
    plusDI, minusDI, dxValues := FillDirectional(candles, period);
    forall i | 0 <= i < n ensures DxFilled(candles, period, i, dxValues[i]) {
      assert DiFilled(W.DiAt(candles, period, i), plusDI[i], minusDI[i], dxValues[i]);
    }
    adx := SmoothDx(candles, period, dxValues);
    assert forall i | 0 <= i < n :: DiFilled(W.DiAt(candles, period, i), plusDI[i], minusDI[i], dxValues[i]);
  }

  // ------------------------------------------------------------------ SuperTrend

  /** The first bar with an ATR. */
  method Begin(bar: T.Bar) returns (prevUpper: real, prevLower: real, prevSupertrend: real, up: bool)
    ensures T.First(bar) == T.Trend(prevUpper, prevLower, prevSupertrend, up)
  {
    prevUpper, prevLower := bar.upper, bar.lower;
    up := bar.close >= bar.middle;
    prevSupertrend := if up then prevLower else prevUpper;
  }

  /** Every later bar: ratchet the bands, recover the trend from the previous line, and move. */
  method Advance(prevUpper: real, prevLower: real, prevSupertrend: real, ghost prevUp: bool, prevClose: real,
                 bar: T.Bar)
    returns (finalUpper: real, finalLower: real, currentSupertrend: real, currentUp: bool)
    ensures T.Next(T.Trend(prevUpper, prevLower, prevSupertrend, prevUp), prevClose, bar) ==
            T.Trend(finalUpper, finalLower, currentSupertrend, currentUp)
  {
    finalUpper := if bar.upper < prevUpper || prevClose > prevUpper then bar.upper else prevUpper;
    finalLower := if bar.lower > prevLower || prevClose < prevLower then bar.lower else prevLower;
    if prevSupertrend == prevUpper {
      if bar.close > finalUpper {
        currentUp, currentSupertrend := true, finalLower;
      } else {
        currentUp, currentSupertrend := false, finalUpper;
      }
    } else {
      if bar.close < finalLower {
        currentUp, currentSupertrend := false, finalUpper;
      } else {
        currentUp, currentSupertrend := true, finalLower;
      }
    }
  }

  ghost predicate TrendFilled(st: Option<(real, bool)>, value: Option<real>, up: Option<bool>) {
    match st
    case None => value == None && up == None
    case Some(t) => value == Some(t.0) && up == Some(t.1)
  }

  /** The bar of candle i, from the ATR series. */
  method ReadBar(candles: seq<Candle>, period: int, multiplier: real, atrSeries: Result, i: nat) returns (bar: T.Bar)
    requires period >= 1 && period - 1 <= i < |candles| == atrSeries.Length
    requires atrSeries[i] == W.AtrAt(candles, period, i)
    ensures bar == T.Bars(candles, period, multiplier)[i - (period - 1)] && bar.close == candles[i].close
  {
    bar := T.MakeBar(candles[i], atrSeries[i].value, multiplier);
    assert bar == T.BarAt(candles, period, multiplier, i);
  }

  /** The machine's state after bar i, and that bar's close. */
  ghost predicate StateAt(candles: seq<Candle>, period: int, multiplier: real, i: nat, t: T.Trend, close: real)
    requires period >= 1 && period - 1 <= i < |candles|
  {
    var bars := T.Bars(candles, period, multiplier);
    t == T.At(bars, i - (period - 1)) && close == bars[i - (period - 1)].close
  }

  lemma TrendFromState(candles: seq<Candle>, period: int, multiplier: real, i: nat, t: T.Trend, close: real)
    requires period >= 1 && period - 1 <= i < |candles| && multiplier > 0.0
    requires StateAt(candles, period, multiplier, i, t, close)
    ensures TrendFilled(T.SuperTrendAt(candles, period, multiplier, i), Some(t.line), Some(t.up))
  {
  }

  lemma Warming(candles: seq<Candle>, period: int, multiplier: real)
    ensures forall i | 0 <= i < |candles| && (i < period - 1 || period <= 0 || multiplier <= 0.0) ::
      TrendFilled(T.SuperTrendAt(candles, period, multiplier, i), None, None)
  {
  }

  lemma FirstState(candles: seq<Candle>, period: int, multiplier: real, bar: T.Bar)
    requires 1 <= period <= |candles| && bar == T.Bars(candles, period, multiplier)[0]
    ensures StateAt(candles, period, multiplier, period - 1, T.First(bar), bar.close)
  {
  }

  lemma NextState(candles: seq<Candle>, period: int, multiplier: real, i: nat, prev: T.Trend, prevClose: real,
                  bar: T.Bar)
    requires period >= 1 && period <= i < |candles| && StateAt(candles, period, multiplier, i - 1, prev, prevClose)
    requires bar == T.Bars(candles, period, multiplier)[i - (period - 1)]
    ensures StateAt(candles, period, multiplier, i, T.Next(prev, prevClose, bar), bar.close)
  {
  }

  method ComputeSuperTrend(candles: seq<Candle>, period: int, multiplier: real)
    returns (values: Result, direction: array<Option<bool>>)
    ensures fresh(values) && fresh(direction) && values.Length == direction.Length == |candles|
    ensures forall i | 0 <= i < |candles| ::
      TrendFilled(T.SuperTrendAt(candles, period, multiplier, i), values[i], direction[i])
  {
    hide *;
    var n := |candles|;
    values := new Option<real>[n](_ => None);
    direction := new Option<bool>[n](_ => None);
    Warming(candles, period, multiplier);
    if period <= 0 || n < period || multiplier <= 0.0 { return; }
    var atrSeries := ComputeATR(candles, period);
    var prevUpper, prevLower, prevSupertrend, prevUp, prevClose := 0.0, 0.0, 0.0, true, 0.0;
    for i := period - 1 to n
      invariant forall j | 0 <= j < i ::
        TrendFilled(T.SuperTrendAt(candles, period, multiplier, j), values[j], direction[j])
      invariant i >= period ==>
        StateAt(candles, period, multiplier, i - 1, T.Trend(prevUpper, prevLower, prevSupertrend, prevUp), prevClose)
      modifies values, direction
    {
      var bar := ReadBar(candles, period, multiplier, atrSeries, i);
      if i == period - 1 {
        prevUpper, prevLower, prevSupertrend, prevUp := Begin(bar);
        FirstState(candles, period, multiplier, bar);
      } else {
        NextState(candles, period, multiplier, i, T.Trend(prevUpper, prevLower, prevSupertrend, prevUp),
                  prevClose, bar);
        prevUpper, prevLower, prevSupertrend, prevUp :=
          Advance(prevUpper, prevLower, prevSupertrend, prevUp, prevClose, bar);
      }
      prevClose := bar.close;
      TrendFromState(candles, period, multiplier, i, T.Trend(prevUpper, prevLower, prevSupertrend, prevUp), prevClose);
      values[i] := Some(prevSupertrend);
      direction[i] := Some(prevUp);
    }
  }
}
