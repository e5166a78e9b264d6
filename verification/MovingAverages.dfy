/** SMA, EMA and MACD of shared/indicators/canonical.ts: what each value is, index by index. */
module MovingAverages {
  import opened Basics
  import opened Series

  // ------------------------------------------------------------------ SMA

  /** The mean of the last `period` values. */
  function SmaAt(values: seq<real>, period: int, i: nat): Option<real>
    requires i < |values|
  {
    if period <= 0 || i < period - 1 then None else Some(Sum(values, i - period + 1, i + 1) / period as real)
  }

  lemma SmaNoLookahead(values: seq<real>, period: int, k: nat, i: nat)
    requires i < k <= |values|
    ensures SmaAt(values[..k], period, i) == SmaAt(values, period, i)
  {
    if period > 0 && i >= period - 1 { SumOfPrefix(values, k, i - period + 1, i + 1); }
  }

  // ------------------------------------------------------------------ EMA

  function Smoothing(period: int): (k: real)
    requires period >= 1
    ensures 0.0 < k <= 1.0
  {
    2.0 / (period as real + 1.0)
  }

  function Blend(k: real, value: real, prev: real): real {
    value * k + prev * (1.0 - k)
  }

  function Ema(values: seq<real>, period: int, i: nat): real
    requires period >= 1 && period - 1 <= i < |values|
    decreases i
  {
    if i == period - 1 then Sum(values, 0, period) / period as real
    else Blend(Smoothing(period), values[i], Ema(values, period, i - 1))
  }

  function EmaAt(values: seq<real>, period: int, i: nat): Option<real>
    requires i < |values|
  {
    if period <= 0 || i < period - 1 then None else Some(Ema(values, period, i))
  }

  lemma {:induction false} EmaOfPrefix(values: seq<real>, period: int, k: nat, i: nat)
    requires period >= 1 && period - 1 <= i < k <= |values|
    ensures Ema(values[..k], period, i) == Ema(values, period, i)
    decreases i
  {
    if i == period - 1 { SumOfPrefix(values, k, 0, period); } else { EmaOfPrefix(values, period, k, i - 1); }
  }

  lemma EmaNoLookahead(values: seq<real>, period: int, k: nat, i: nat)
    requires i < k <= |values|
    ensures EmaAt(values[..k], period, i) == EmaAt(values, period, i)
  {
    if period > 0 && i >= period - 1 { EmaOfPrefix(values, period, k, i); }
  }

  function Pow(x: real, n: nat): real {
    if n == 0 then 1.0 else x * Pow(x, n - 1)
  }

  /** The share of values[j] in the EMA at i: bars after the seed count k(1-k)^age, the seed's bars
      share what is left equally. */
  function Weight(period: int, i: int, j: int): real
    requires period >= 1 && 0 <= j <= i && period - 1 <= i
  {
    var k := Smoothing(period);
    if j < period then Pow(1.0 - k, i - (period - 1)) / period as real else k * Pow(1.0 - k, i - j)
  }

  function Weights(period: int, i: int): (w: seq<real>)
    requires period >= 1 && period - 1 <= i
    ensures |w| == i + 1 && forall j | 0 <= j <= i :: w[j] == Weight(period, i, j)
  {
    seq(i + 1, j requires 0 <= j < i + 1 => Weight(period, i, j))
  }

  /** w[0] xs[0] + ... + w[n - 1] xs[n - 1] */
  function WeightedSum(w: seq<real>, xs: seq<real>, n: nat): real
    requires n <= |w| && n <= |xs|
  {
    if n == 0 then 0.0 else WeightedSum(w, xs, n - 1) + w[n - 1] * xs[n - 1]
  }

  lemma PowNext(x: real, n: nat)
    ensures Pow(x, n + 1) == x * Pow(x, n)
  {
  }

  lemma ShrinkBy(x: real, y: real)
    requires x <= 1.0 && y >= 0.0
    ensures x * y <= y
  {
    Product(1.0 - x, y);
    assert (1.0 - x) * y == y - x * y;
  }

  lemma {:induction false} PowBounds(x: real, n: nat)
    requires 0.0 <= x <= 1.0
    ensures 0.0 <= Pow(x, n) <= 1.0
  {
    if n > 0 {
      PowBounds(x, n - 1);
      var p := Pow(x, n - 1);
      Product(x, p);
      ShrinkBy(x, p);
      assert Pow(x, n) == x * p;
    }
  }

  lemma WeightNonNegative(period: int, i: int, j: int)
    requires period >= 1 && 0 <= j <= i && period - 1 <= i
    ensures Weight(period, i, j) >= 0.0
  {
    var k := Smoothing(period);
    if j < period {
      PowBounds(1.0 - k, i - (period - 1));
    } else {
      PowBounds(1.0 - k, i - j);
      Product(k, Pow(1.0 - k, i - j));
    }
  }

  lemma DivideProduct(x: real, y: real, d: real)
    requires d != 0.0
    ensures x * y / d == x * (y / d)
  {
  }

  lemma Reassociate(k: real, x: real, y: real)
    ensures k * (x * y) == x * (k * y)
  {
  }

  /** One bar later every earlier weight has shrunk by the factor 1 - k. */
  lemma WeightDecays(period: int, i: int, j: int)
    requires period >= 1 && 0 <= j <= i && period - 1 <= i
    ensures Weight(period, i + 1, j) == (1.0 - Smoothing(period)) * Weight(period, i, j)
  {
    hide Pow, Smoothing;
    var k := Smoothing(period);
    var x, age := 1.0 - k, if j < period then i - (period - 1) else i - j;
    PowNext(x, age);
    if j < period {
      assert i + 1 - (period - 1) == age + 1;
      DivideProduct(x, Pow(x, age), period as real);
    } else {
      assert i + 1 - j == age + 1;
      Reassociate(k, x, Pow(x, age));
    }
  }

  /** Scaling the weights scales their total and their weighted sum. */
  lemma {:induction false} ScaledWeights(w: seq<real>, w': seq<real>, x: real, xs: seq<real>, n: nat)
    requires n <= |w| && n <= |w'| && n <= |xs| && forall j | 0 <= j < n :: w'[j] == x * w[j]
    ensures Sum(w', 0, n) == x * Sum(w, 0, n)
    ensures WeightedSum(w', xs, n) == x * WeightedSum(w, xs, n)
  {
    if n > 0 {
      ScaledWeights(w, w', x, xs, n - 1);
      Distribute(x, Sum(w, 0, n - 1), w[n - 1]);
      Regroup(x, w[n - 1], xs[n - 1]);
      Distribute(x, WeightedSum(w, xs, n - 1), w[n - 1] * xs[n - 1]);
    }
  }

  lemma Regroup(x: real, a: real, b: real)
    ensures x * a * b == x * (a * b)
  {
  }

  /** Equal weights 1/p give the mean. */
  lemma {:induction false} EqualWeights(w: seq<real>, xs: seq<real>, p: real, n: nat)
    requires p > 0.0 && n <= |w| && n <= |xs| && forall j | 0 <= j < n :: w[j] == 1.0 / p
    ensures Sum(w, 0, n) == n as real / p
    ensures WeightedSum(w, xs, n) == Sum(xs, 0, n) / p
  {
    if n > 0 {
      EqualWeights(w, xs, p, n - 1);
      SplitQuotient((n - 1) as real, 1.0, p);
      SplitQuotient(Sum(xs, 0, n - 1), xs[n - 1], p);
    }
  }

  lemma SplitQuotient(a: real, b: real, p: real)
    requires p != 0.0
    ensures (a + b) / p == a / p + b / p && b / p == (1.0 / p) * b
  {
  }

  lemma WeightsNonNegative(period: int, i: int)
    requires period >= 1 && period - 1 <= i
    ensures forall w <- Weights(period, i) :: w >= 0.0
  {
    forall j | 0 <= j <= i ensures Weights(period, i)[j] >= 0.0 { WeightNonNegative(period, i, j); }
  }

  /** One bar later the old weights are scaled by 1 - k and the new bar gets k. */
  ghost predicate Decayed(older: seq<real>, w: seq<real>, k: real) {
    && |w| == |older| + 1 && w[|older|] == k
    && forall j | 0 <= j < |older| :: w[j] == (1.0 - k) * older[j]
  }

  lemma NextWeights(period: int, i: int)
    requires period >= 1 && period <= i
    ensures Decayed(Weights(period, i - 1), Weights(period, i), Smoothing(period))
  {
    hide Weight, Smoothing, Pow;
    var k := Smoothing(period);
    var older, w := Weights(period, i - 1), Weights(period, i);
    forall j | 0 <= j < i ensures w[j] == (1.0 - k) * older[j] {
      WeightDecaysTo(period, i - 1, j, k, w[j], older[j]);
    }
    NewestWeight(period, i);
  }

  lemma WeightDecaysTo(period: int, i: int, j: int, k: real, now: real, before: real)
    requires period >= 1 && 0 <= j <= i && period - 1 <= i && k == Smoothing(period)
    requires now == Weight(period, i + 1, j) && before == Weight(period, i, j)
    ensures now == (1.0 - k) * before
  {
    hide Weight, Smoothing, Pow;
    WeightDecays(period, i, j);
  }

  lemma SeedWeight(period: int, j: int)
    requires 0 <= j < period
    ensures Weight(period, period - 1, j) == 1.0 / period as real
  {
    assert period - 1 - (period - 1) == 0 && Pow(1.0 - Smoothing(period), 0) == 1.0;
  }

  lemma Whole(n: int)
    requires n > 0
    ensures n as real / n as real == 1.0
  {
  }

  lemma SeedMean(values: seq<real>, period: int, w: seq<real>)
    requires 1 <= period <= |values| && w == Weights(period, period - 1)
    ensures WeightedSum(w, values, period) == Sum(values, 0, period) / period as real
    ensures Sum(w, 0, period) == 1.0
  {
    hide Weight, Pow, WeightedSum, Sum;
    forall j | 0 <= j < period ensures w[j] == 1.0 / period as real {
      SeedWeight(period, j);
      assert w[j] == Weight(period, period - 1, j);
    }
    Whole(period);
    EqualWeights(w, values, period as real, period);
  }

  lemma NextMean(k: real, older: seq<real>, w: seq<real>, values: seq<real>, i: nat, prev: real)
    requires |older| == i < |values| && Decayed(older, w, k)
    requires WeightedSum(older, values, i) == prev && Sum(older, 0, i) == 1.0
    ensures WeightedSum(w, values, i + 1) == Blend(k, values[i], prev) && Sum(w, 0, i + 1) == 1.0
  {
    ScaledWeights(older, w, 1.0 - k, values, i);
    MeanStep(k, w, values, i, prev);
  }

  /** Main result: the EMA is its closed form, a weighted mean of the prefix whose weights sum to one
      (and are non-negative, `WeightsNonNegative`). */
  lemma {:induction false} EmaIsWeightedMean(values: seq<real>, period: int, i: nat)
    requires period >= 1 && period - 1 <= i < |values|
    ensures WeightedSum(Weights(period, i), values, i + 1) == Ema(values, period, i)
    ensures Sum(Weights(period, i), 0, i + 1) == 1.0
    decreases i
  {
    if i == period - 1 {
      SeedMean(values, period, Weights(period, i));
    } else {
      EmaIsWeightedMean(values, period, i - 1);
      NextEma(values, period, i);
    }
  }

  lemma NextEma(values: seq<real>, period: int, i: nat)
    requires period >= 1 && period <= i < |values|
    requires WeightedSum(Weights(period, i - 1), values, i) == Ema(values, period, i - 1)
    requires Sum(Weights(period, i - 1), 0, i) == 1.0
    ensures WeightedSum(Weights(period, i), values, i + 1) == Ema(values, period, i)
    ensures Sum(Weights(period, i), 0, i + 1) == 1.0
  {
    NextWeights(period, i);
    NextMean(Smoothing(period), Weights(period, i - 1), Weights(period, i), values, i, Ema(values, period, i - 1));
  }

  lemma NewestWeight(period: int, i: int)
    requires period >= 1 && period <= i
    ensures Weight(period, i, i) == Smoothing(period)
  {
  }

  lemma MeanStep(k: real, w: seq<real>, values: seq<real>, i: nat, prev: real)
    requires i < |w| && i < |values| && w[i] == k
    requires Sum(w, 0, i) == (1.0 - k) * 1.0 && WeightedSum(w, values, i) == (1.0 - k) * prev
    ensures WeightedSum(w, values, i + 1) == Blend(k, values[i], prev)
    ensures Sum(w, 0, i + 1) == 1.0
  {
  }

  lemma {:induction false} EmaWithin(values: seq<real>, period: int, i: nat, lo: real, hi: real)
    requires period >= 1 && period - 1 <= i < |values| && forall j | 0 <= j <= i :: lo <= values[j] <= hi
    ensures lo <= Ema(values, period, i) <= hi
    decreases i
  {
    if i == period - 1 {
      SumBounds(values, 0, period, lo, hi);
      QuotientBetween(Sum(values, 0, period), lo, hi, period as real);
    } else {
      EmaWithin(values, period, i - 1, lo, hi);
      BlendBetween(Smoothing(period), values[i], Ema(values, period, i - 1), lo, hi);
    }
  }

  /** So it stays within the least and the greatest value of the prefix. */
  lemma EmaWithinPrefix(values: seq<real>, period: int, i: nat)
    requires period >= 1 && period - 1 <= i < |values|
    ensures Lowest(values, 0, i + 1) <= Ema(values, period, i) <= Highest(values, 0, i + 1)
  {
    ExtremesAre(values, 0, i + 1);
    EmaWithin(values, period, i, Lowest(values, 0, i + 1), Highest(values, 0, i + 1));
  }

  lemma BlendBetween(k: real, a: real, b: real, lo: real, hi: real)
    requires 0.0 <= k <= 1.0 && lo <= a <= hi && lo <= b <= hi
    ensures lo <= Blend(k, a, b) <= hi
  {
    Product(k, a - lo);
    Product(1.0 - k, b - lo);
    Product(k, hi - a);
    Product(1.0 - k, hi - b);
  }

  // ------------------------------------------------------------------ the lag on a straight line

  function Line(a: real, b: real, x: real): real { a + b * x }

  ghost predicate IsLine(values: seq<real>, a: real, b: real) {
    forall j | 0 <= j < |values| :: values[j] == Line(a, b, j as real)
  }

  /** Half of period - 1, by how many bars the mean of `period` bars is behind. */
  function Lag(period: int): real { (period as real - 1.0) / 2.0 }

  lemma {:induction false} SumOfLine(values: seq<real>, a: real, b: real, lo: nat, hi: nat)
    requires lo <= hi <= |values| && IsLine(values, a, b)
    ensures Sum(values, lo, hi) == (hi - lo) as real * Line(a, b, (lo + hi) as real / 2.0 - 0.5)
    decreases hi
  {
    if lo < hi {
      SumOfLine(values, a, b, lo, hi - 1);
      var n, x := (hi - 1 - lo) as real, (lo + hi) as real / 2.0 - 0.5;
      assert (hi - lo) as real == n + 1.0 && (lo + hi - 1) as real / 2.0 - 0.5 == x - 0.5;
      assert values[hi - 1] == Line(a, b, x + n / 2.0);
      NextTerm(a, b, n, x);
    }
  }

  lemma NextTerm(a: real, b: real, n: real, x: real)
    ensures n * Line(a, b, x - 0.5) + Line(a, b, x + n / 2.0) == (n + 1.0) * Line(a, b, x)
  {
    var bx, bn := b * x, b * n;
    assert b * (x - 0.5) == bx - b / 2.0 && b * (x + n / 2.0) == bx + bn / 2.0;
    assert n * (a + (bx - b / 2.0)) == n * a + n * bx - bn / 2.0;
    assert (n + 1.0) * (a + bx) == n * a + n * bx + a + bx;
  }

  lemma MeanOfLine(values: seq<real>, a: real, b: real, period: int, i: nat)
    requires period >= 1 && period - 1 <= i < |values| && IsLine(values, a, b)
    ensures Sum(values, i - period + 1, i + 1) / period as real == Line(a, b, i as real - Lag(period))
  {
    hide Line, Sum;
    SumOfLine(values, a, b, i - period + 1, i + 1);
    var x := (i - period + 1 + i + 1) as real / 2.0 - 0.5;
    assert x == i as real - Lag(period);
    Mean(Sum(values, i - period + 1, i + 1), Line(a, b, x), period as real);
  }

  lemma Mean(sum: real, x: real, p: real)
    requires p != 0.0 && sum == p * x
    ensures sum / p == x
  {
  }

  /** The smoothing is the one that keeps the lag. */
  lemma LagStays(period: int)
    requires period >= 1
    ensures (1.0 - Smoothing(period)) * (Lag(period) + 1.0) == Lag(period)
  {
    var k, p := Smoothing(period), period as real;
    assert k * (p + 1.0) == 2.0;
    assert Lag(period) + 1.0 == (p + 1.0) / 2.0;
    assert k * ((p + 1.0) / 2.0) == 1.0;
  }

  lemma BlendOfLine(a: real, b: real, k: real, x: real, lag: real)
    requires (1.0 - k) * (lag + 1.0) == lag
    ensures Blend(k, Line(a, b, x), Line(a, b, x - 1.0 - lag)) == Line(a, b, x - lag)
  {
    var bx, bl := b * x, b * (lag + 1.0);
    assert b * (x - 1.0 - lag) == bx - bl && b * (x - lag) == bx - b * lag;
    assert (a + bx) * k + (a + bx - bl) * (1.0 - k) == a + bx - bl * (1.0 - k);
    assert bl * (1.0 - k) == b * ((1.0 - k) * (lag + 1.0));
  }

  lemma {:induction false} EmaOfLine(values: seq<real>, a: real, b: real, period: int, i: nat)
    requires period >= 1 && period - 1 <= i < |values| && IsLine(values, a, b)
    ensures Ema(values, period, i) == Line(a, b, i as real - Lag(period))
    decreases i
  {
    hide Smoothing, Blend, Lag, Line, Sum;
    if i == period - 1 {
      MeanOfLine(values, a, b, period, i);
    } else {
      EmaOfLine(values, a, b, period, i - 1);
      LagStays(period);
      BlendOfLine(a, b, Smoothing(period), i as real, Lag(period));
      assert (i - 1) as real - Lag(period) == i as real - 1.0 - Lag(period);
    }
  }

  /** Main result, the lag: on a straight line both the SMA and the EMA are the line itself (period - 1) / 2
      bars ago, at every bar, exactly. */
  lemma AveragesLagLines(values: seq<real>, a: real, b: real, period: int, i: nat)
    requires i < |values| && IsLine(values, a, b) && period >= 1
    ensures var lagged := if i < period - 1 then None else Some(a + b * (i as real - (period as real - 1.0) / 2.0));
      SmaAt(values, period, i) == lagged && EmaAt(values, period, i) == lagged
  {
    if i >= period - 1 {
      hide Line, Sum, Ema;
      MeanOfLine(values, a, b, period, i);
      EmaOfLine(values, a, b, period, i);
      LineLagged(a, b, i as real, period);
    }
  }

  lemma LineLagged(a: real, b: real, x: real, period: int)
    ensures Line(a, b, x - Lag(period)) == a + b * (x - (period as real - 1.0) / 2.0)
  {
  }

  // ------------------------------------------------------------------ MACD

  function Slower(fast: int, slow: int): int {
    if fast > slow then fast else slow
  }

  /** The MACD line from its first defined bar on, as plain numbers. */
  function LineValues(values: seq<real>, fast: int, slow: int): (line: seq<real>)
    requires fast >= 1 && slow >= 1
    ensures |line| == if |values| < Slower(fast, slow) then 0 else |values| - (Slower(fast, slow) - 1)
    ensures forall j | 0 <= j < |line| ::
      line[j] == Ema(values, fast, Slower(fast, slow) - 1 + j) - Ema(values, slow, Slower(fast, slow) - 1 + j)
  {
    var first := Slower(fast, slow) - 1;
    if |values| <= first then []
    else
      seq(|values| - first, j requires 0 <= j < |values| - first =>
        Ema(values, fast, first + j) - Ema(values, slow, first + j))
  }

  function LineAt(values: seq<real>, fast: int, slow: int, i: nat): Option<real>
    requires i < |values|
  {
    if fast <= 0 || slow <= 0 then None
    else
      var f, s := EmaAt(values, fast, i), EmaAt(values, slow, i);
      if f.Some? && s.Some? then Some(f.value - s.value) else None
  }

  function SignalAt(values: seq<real>, fast: int, slow: int, signal: int, i: nat): Option<real>
    requires i < |values|
  {
    if fast <= 0 || slow <= 0 || i < Slower(fast, slow) - 1 then None
    else EmaAt(LineValues(values, fast, slow), signal, i - (Slower(fast, slow) - 1))
  }

  function HistogramAt(values: seq<real>, fast: int, slow: int, signal: int, i: nat): Option<real>
    requires i < |values|
  {
    var m, s := LineAt(values, fast, slow, i), SignalAt(values, fast, slow, signal, i);
    if m.Some? && s.Some? then Some(m.value - s.value) else None
  }

  /** When the averages and the MACD are there, for any periods: never for one below 1, else from the bar on
      that completes the first window, the slower one's for the MACD. */
  lemma WarmUp(values: seq<real>, period: int, fast: int, slow: int, signal: int, i: nat)
    requires i < |values|
    ensures SmaAt(values, period, i).Some? <==> period >= 1 && i + 1 >= period
    ensures EmaAt(values, period, i).Some? <==> period >= 1 && i + 1 >= period
    ensures LineAt(values, fast, slow, i).Some? <==> fast >= 1 && slow >= 1 && i + 1 >= fast && i + 1 >= slow
    ensures SignalAt(values, fast, slow, signal, i).Some? <==>
      fast >= 1 && slow >= 1 && signal >= 1 && i + 2 >= fast + signal && i + 2 >= slow + signal
    ensures HistogramAt(values, fast, slow, signal, i).Some? <==> SignalAt(values, fast, slow, signal, i).Some?
  {
  }

  /** Main result, alignment: the line starts at bar max(fast, slow) - 1, the signal and histogram at
      max(fast, slow) + signal - 2, and the signal at a bar is the EMA of exactly the line values up
      to that bar. */
  lemma MacdIsAligned(values: seq<real>, fast: int, slow: int, signal: int, i: nat)
    requires i < |values| && fast >= 1 && slow >= 1 && signal >= 1
    ensures LineAt(values, fast, slow, i).Some? <==> i >= Slower(fast, slow) - 1
    ensures SignalAt(values, fast, slow, signal, i).Some? <==> i >= Slower(fast, slow) + signal - 2
    ensures HistogramAt(values, fast, slow, signal, i).Some? <==> i >= Slower(fast, slow) + signal - 2
    ensures i >= Slower(fast, slow) + signal - 2 ==>
      LineAt(values, fast, slow, i).value ==
        SignalAt(values, fast, slow, signal, i).value + HistogramAt(values, fast, slow, signal, i).value
    ensures i >= Slower(fast, slow) - 1 ==>
      var first := Slower(fast, slow) - 1;
      var upToNow := LineValues(values[..i + 1], fast, slow);
      && |upToNow| == i - first + 1
      && SignalAt(values, fast, slow, signal, i) == EmaAt(upToNow, signal, |upToNow| - 1)
      && forall j | 0 <= j < |upToNow| :: LineAt(values, fast, slow, first + j) == Some(upToNow[j])
  {
    if i >= Slower(fast, slow) - 1 {
      var first := Slower(fast, slow) - 1;
      LineOfPrefix(values, fast, slow, i + 1);
      EmaNoLookahead(LineValues(values, fast, slow), signal, i - first + 1, i - first);
    }
  }

  /** On a straight line the MACD line is half its slope times slow minus fast: positive on a rise when the
      fast average is the shorter. */
  lemma MacdOfLine(values: seq<real>, a: real, b: real, fast: int, slow: int, i: nat)
    requires i < |values| && IsLine(values, a, b) && LineAt(values, fast, slow, i).Some?
    ensures LineAt(values, fast, slow, i).value == b * (slow - fast) as real / 2.0
  {
    AveragesLagLines(values, a, b, fast, i);
    AveragesLagLines(values, a, b, slow, i);
    var x, f, w := i as real, fast as real, slow as real;
    assert b * (x - (f - 1.0) / 2.0) - b * (x - (w - 1.0) / 2.0) == b * ((w - f) / 2.0);
  }

  lemma LineOfPrefix(values: seq<real>, fast: int, slow: int, k: nat)
    requires fast >= 1 && slow >= 1 && k <= |values| && Slower(fast, slow) - 1 <= k
    ensures LineValues(values[..k], fast, slow) == LineValues(values, fast, slow)[..k - (Slower(fast, slow) - 1)]
  {
    var first := Slower(fast, slow) - 1;
    forall j | 0 <= j < k - first
      ensures LineValues(values[..k], fast, slow)[j] == LineValues(values, fast, slow)[j]
    {
      EmaOfPrefix(values, fast, k, first + j);
      EmaOfPrefix(values, slow, k, first + j);
    }
  }

  lemma MacdNoLookahead(values: seq<real>, fast: int, slow: int, signal: int, k: nat, i: nat)
    requires i < k <= |values|
    ensures LineAt(values[..k], fast, slow, i) == LineAt(values, fast, slow, i)
    ensures SignalAt(values[..k], fast, slow, signal, i) == SignalAt(values, fast, slow, signal, i)
    ensures HistogramAt(values[..k], fast, slow, signal, i) == HistogramAt(values, fast, slow, signal, i)
  {
    EmaNoLookahead(values, fast, k, i);
    EmaNoLookahead(values, slow, k, i);
    if fast >= 1 && slow >= 1 && i >= Slower(fast, slow) - 1 {
      var first := Slower(fast, slow) - 1;
      LineOfPrefix(values, fast, slow, k);
      EmaNoLookahead(LineValues(values, fast, slow), signal, k - first, i - first);
    }
  }
}
