/** One-minute candles built from cumulative-volume ticks, server/workers/candle-writer.ts, for one
    symbol.  `Tick.volume` is the provider's counter for the day; `tsMs` is None for an unparsable
    timestamp.  Minutes and IST days are numbers: the canonical timestamp text orders like them. */
module Candles {
  import opened Basics
  import opened IstClock

  datatype Tick = Tick(symbol: string, tsMs: Option<int>, price: real, volume: real)
  datatype Candle = Candle(minute: int, open: real, high: real, low: real, close: real, volume: real)
  datatype SymbolState = SymbolState(buckets: seq<Candle>, lastTsMs: int, volumeDay: int, cumulativeVolume: real)

  const RETAINED_CLOSED_MINUTES: nat := 30

  function Minute(ms: int): int { ms / MINUTE_MS }

  /** Index of the bucket for `minute`, or the number of buckets. */
  function IndexOf(buckets: seq<Candle>, minute: int): (i: nat)
    ensures i <= |buckets|
    ensures i < |buckets| ==> buckets[i].minute == minute
    ensures forall j | 0 <= j < i :: buckets[j].minute != minute
  {
    if buckets == [] || buckets[0].minute == minute then 0 else 1 + IndexOf(buckets[1..], minute)
  }

  /** How many of the oldest of `n` buckets are beyond the retained minutes. */
  function Excess(n: nat): nat {
    if n <= RETAINED_CLOSED_MINUTES + 1 then 0 else n - (RETAINED_CLOSED_MINUTES + 1)
  }

  /** The buckets after a tick, before eviction. */
  function Fill(buckets: seq<Candle>, minute: int, price: real, delta: real): seq<Candle> {
    var i := IndexOf(buckets, minute);
    if i < |buckets| then
      var b := buckets[i];
      buckets[i := Candle(minute, b.open, Max(b.high, price), Min(b.low, price), price, b.volume + delta)]
    else buckets + [Candle(minute, price, price, price, price, delta)]
  }

  /** The volume this tick adds, and the counter afterwards. */
  function Count(state: SymbolState, day: int, volume: real): (real, real) {
    if state.volumeDay != day then (volume, volume)
    else if volume > state.cumulativeVolume then (volume - state.cumulativeVolume, volume)
    else (0.0, state.cumulativeVolume)
  }

  /** How many buckets a tick evicts: none unless it opened a new one. */
  function Evictions(before: nat, after: nat): nat {
    if after == before then 0 else Excess(after)
  }

  /** The state after a tick and the candles it evicted. */
  function OnTick(state: Option<SymbolState>, t: Tick): (Option<SymbolState>, seq<Candle>) {
    if t.tsMs.None? then (state, [])
    else
      var ms := t.tsMs.value;
      var st := if state.None? then SymbolState([], ms, IstDay(ms), t.volume) else state.value;
      if ms < st.lastTsMs then (state, [])
      else
        var (delta, counter) := Count(st, IstDay(ms), t.volume);
        var filled := Fill(st.buckets, Minute(ms), t.price, delta);
        var k := Evictions(|st.buckets|, |filled|);
        (Some(SymbolState(filled[k..], ms, IstDay(ms), counter)), filled[..k])
  }

  function Flush(state: Option<SymbolState>): (Option<SymbolState>, seq<Candle>) {
    if state.None? then (state, []) else (Some(state.value.(buckets := [])), state.value.buckets)
  }

  // ------------------------------------------------------------------ runs

  datatype Event = Ticked(tick: Tick) | Flushed

  /** Everything ever built: held in `state`, handed out by flushes, or evicted. */
  datatype Ledger = Ledger(state: Option<SymbolState>, flushed: seq<Candle>, evicted: seq<Candle>)

  function Run(events: seq<Event>): Ledger {
    if events == [] then Ledger(None, [], [])
    else
      var n := |events| - 1;
      var before := Run(events[..n]);
      match events[n]
      case Ticked(t) =>
        var (state, gone) := OnTick(before.state, t);
        Ledger(state, before.flushed, before.evicted + gone)
      case Flushed =>
        var (state, out) := Flush(before.state);
        Ledger(state, before.flushed + out, before.evicted)
  }

  function Total(candles: seq<Candle>): real {
    if candles == [] then 0.0 else Total(candles[..|candles| - 1]) + candles[|candles| - 1].volume
  }

  function Held(state: Option<SymbolState>): seq<Candle> {
    if state.None? then [] else state.value.buckets
  }

  function EverBuilt(l: Ledger): real {
    Total(l.flushed) + Total(l.evicted) + Total(Held(l.state))
  }

  // -------------------------------------------------- what the day's counter says

  /** A tick counts unless its timestamp is unparsable or behind an earlier tick's. */
  ghost predicate InOrder(events: seq<Event>, i: nat)
    requires i < |events|
  {
    && events[i].Ticked? && events[i].tick.tsMs.Some?
    && forall j | 0 <= j < i && events[j].Ticked? && events[j].tick.tsMs.Some? ::
         events[j].tick.tsMs.value <= events[i].tick.tsMs.value
  }

  ghost function Accepted(events: seq<Event>): seq<Tick> {
    if events == [] then []
    else
      var n := |events| - 1;
      if InOrder(events, n) then Accepted(events[..n]) + [events[n].tick] else Accepted(events[..n])
  }

  function DayOf(t: Tick): int {
    if t.tsMs.Some? then IstDay(t.tsMs.value) else 0
  }

  predicate HasDay(ticks: seq<Tick>, day: int) {
    exists t <- ticks :: DayOf(t) == day
  }

  /** The highest counter seen on `day`, zero when nothing was. */
  function Peak(ticks: seq<Tick>, day: int): real {
    if ticks == [] then 0.0
    else
      var n := |ticks| - 1;
      if DayOf(ticks[n]) != day then Peak(ticks[..n], day)
      else if HasDay(ticks[..n], day) then Max(Peak(ticks[..n], day), ticks[n].volume)
      else ticks[n].volume
  }

  function SumPeaks(ticks: seq<Tick>, first: int, last: int): real
    decreases last - first
  {
    if last < first then 0.0 else SumPeaks(ticks, first, last - 1) + Peak(ticks, last)
  }

  lemma {:induction false} PeakIsMaximum(ticks: seq<Tick>, day: int)
    ensures forall t <- ticks | DayOf(t) == day :: t.volume <= Peak(ticks, day)
    ensures if HasDay(ticks, day) then exists t <- ticks :: DayOf(t) == day && t.volume == Peak(ticks, day)
            else Peak(ticks, day) == 0.0
  {
    if ticks != [] {
      var n := |ticks| - 1;
      PeakIsMaximum(ticks[..n], day);
      assert forall t :: t in ticks <==> t in ticks[..n] || t == ticks[n];
    }
  }

  lemma {:induction false} SumPeaksSnoc(ticks: seq<Tick>, t: Tick, first: int, last: int)
    requires last < DayOf(t)
    ensures SumPeaks(ticks + [t], first, last) == SumPeaks(ticks, first, last)
    decreases last - first
  {
    if first <= last {
      assert (ticks + [t])[..|ticks|] == ticks;
      SumPeaksSnoc(ticks, t, first, last - 1);
    }
  }

  lemma {:induction false} SumPeaksGap(ticks: seq<Tick>, first: int, last: int, later: int)
    requires first <= last + 1 <= later + 1
    requires forall t <- ticks :: DayOf(t) <= last
    ensures SumPeaks(ticks, first, later) == SumPeaks(ticks, first, last)
    decreases later - last
  {
    if last < later {
      SumPeaksGap(ticks, first, last, later - 1);
      PeakIsMaximum(ticks, later);
    }
  }

  // ------------------------------------------------------------------ invariant

  /** Buckets are at most 31, in strictly ascending minutes, none later than the last tick. */
  ghost predicate Shaped(state: SymbolState) {
    && |state.buckets| <= RETAINED_CLOSED_MINUTES + 1
    && (forall i, j :: 0 <= i < j < |state.buckets| ==> state.buckets[i].minute < state.buckets[j].minute)
    && (forall b <- state.buckets :: b.minute <= Minute(state.lastTsMs))
  }

  /** The last time is the latest among the ticks so far. */
  ghost predicate LastTimed(events: seq<Event>, state: Option<SymbolState>) {
    && (forall e <- events | e.Ticked? && e.tick.tsMs.Some? ::
          state.Some? && e.tick.tsMs.value <= state.value.lastTsMs)
    && (state.Some? ==> exists e <- events :: e.Ticked? && e.tick.tsMs == Some(state.value.lastTsMs))
  }

  /** The state's day is the latest accepted tick's. */
  ghost predicate Dated(s: SymbolState, ticks: seq<Tick>) {
    && ticks != [] && DayOf(ticks[|ticks| - 1]) == s.volumeDay
    && (forall t <- ticks :: t.tsMs.Some? && DayOf(t) <= s.volumeDay)
    && s.volumeDay == IstDay(s.lastTsMs) && HasDay(ticks, s.volumeDay)
  }

  /** All volume ever built is the sum of the days' peaks, less the first counter. */
  ghost predicate Balanced(l: Ledger, ticks: seq<Tick>, day: int) {
    ticks != [] && EverBuilt(l) == SumPeaks(ticks, DayOf(ticks[0]), day) - ticks[0].volume
  }

  /** The ledger mirrors the accepted ticks: last day, that day's peak, total volume. */
  ghost predicate Mirrors(l: Ledger, ticks: seq<Tick>) {
    if l.state.None? then ticks == [] && l.flushed == [] && l.evicted == []
    else
      var s := l.state.value;
      && Shaped(s) && Dated(s, ticks)
      && s.cumulativeVolume == Peak(ticks, s.volumeDay)
      && Balanced(l, ticks, s.volumeDay)
  }

  lemma {:induction false} TotalConcat(a: seq<Candle>, b: seq<Candle>)
    ensures Total(a + b) == Total(a) + Total(b)
  {
    if b == [] {
      assert a + b == a;
    } else {
      var n := |b| - 1;
      assert (a + b)[..|a + b| - 1] == a + b[..n];
      TotalConcat(a, b[..n]);
    }
  }

  lemma {:induction false} TotalReplaced(candles: seq<Candle>, i: nat, c: Candle)
    requires i < |candles|
    ensures Total(candles[i := c]) == Total(candles) - candles[i].volume + c.volume
  {
    var n := |candles| - 1;
    if i == n {
      assert candles[i := c][..n] == candles[..n];
    } else {
      assert candles[i := c][..n] == candles[..n][i := c];
      TotalReplaced(candles[..n], i, c);
    }
  }

  lemma FillAdds(buckets: seq<Candle>, minute: int, price: real, delta: real)
    ensures Total(Fill(buckets, minute, price, delta)) == Total(buckets) + delta
  {
    var i := IndexOf(buckets, minute);
    var filled := Fill(buckets, minute, price, delta);
    if i < |buckets| {
      TotalReplaced(buckets, i, filled[i]);
    } else {
      assert filled[..|buckets|] == buckets;
    }
  }

  /** A tick creates exactly its volume increase, wherever its candles end up. */
  lemma TickAdds(state: Option<SymbolState>, t: Tick)
    requires t.tsMs.Some? && (state.Some? ==> state.value.lastTsMs <= t.tsMs.value)
    ensures var st := if state.None? then SymbolState([], t.tsMs.value, DayOf(t), t.volume) else state.value;
      var (state', gone) := OnTick(state, t);
      Total(Held(state')) + Total(gone) == Total(st.buckets) + Count(st, DayOf(t), t.volume).0
  {
    hide Fill, Count, Total, IstDay;
    var ms := t.tsMs.value;
    var st := if state.None? then SymbolState([], ms, IstDay(ms), t.volume) else state.value;
    var delta := Count(st, IstDay(ms), t.volume).0;
    FillAdds(st.buckets, Minute(ms), t.price, delta);
    var filled := Fill(st.buckets, Minute(ms), t.price, delta);
    var k := Evictions(|st.buckets|, |filled|);
    TotalConcat(filled[..k], filled[k..]);
    assert filled[..k] + filled[k..] == filled;
  }

  lemma FillShaped(st: SymbolState, ms: int, price: real, delta: real)
    requires Shaped(st) && st.lastTsMs <= ms
    ensures var filled := Fill(st.buckets, Minute(ms), price, delta);
      && |filled| <= |st.buckets| + 1
      && (forall i, j :: 0 <= i < j < |filled| ==> filled[i].minute < filled[j].minute)
      && (forall b <- filled :: b.minute <= Minute(ms))
  {
    assert Minute(st.lastTsMs) <= Minute(ms);
    var i := IndexOf(st.buckets, Minute(ms));
    var filled := Fill(st.buckets, Minute(ms), price, delta);
    if i < |st.buckets| {
      assert forall j | 0 <= j < |filled| :: filled[j].minute == st.buckets[j].minute;
    } else {
      forall b <- st.buckets ensures b.minute < Minute(ms) {
        var j :| 0 <= j < |st.buckets| && st.buckets[j] == b;
      }
    }
  }

  /** The peaks sum after one more accepted tick. */
  lemma PeaksAfterTick(ticks: seq<Tick>, t: Tick, day: int)
    requires ticks != [] && t.tsMs.Some? && day <= DayOf(t)
    requires HasDay(ticks, day) && forall u <- ticks :: DayOf(u) <= day
    ensures var all := ticks + [t];
      && Peak(all, DayOf(t)) == (if DayOf(t) == day then Max(Peak(ticks, day), t.volume) else t.volume)
      && DayOf(ticks[0]) <= day
      && SumPeaks(all, DayOf(ticks[0]), DayOf(t)) ==
           SumPeaks(ticks, DayOf(ticks[0]), day)
           + (if DayOf(t) == day then Max(Peak(ticks, day), t.volume) - Peak(ticks, day) else t.volume)
  {
    hide Peak, SumPeaks, IstDay;
    var first := DayOf(ticks[0]);
    assert ticks[0] in ticks;
    SumPeaksSnoc(ticks, t, first, DayOf(t) - 1);
    PeakSnoc(ticks, t);
    LastPeak(ticks + [t], first, DayOf(t));
    LastPeak(ticks, first, day);
    if DayOf(t) != day {
      SumPeaksGap(ticks, first, day, DayOf(t) - 1);
    }
  }

  lemma PeakSnoc(ticks: seq<Tick>, t: Tick)
    ensures Peak(ticks + [t], DayOf(t)) ==
      if HasDay(ticks, DayOf(t)) then Max(Peak(ticks, DayOf(t)), t.volume) else t.volume
  {
    assert (ticks + [t])[..|ticks|] == ticks;
  }

  lemma LastPeak(ticks: seq<Tick>, first: int, last: int)
    requires first <= last
    ensures SumPeaks(ticks, first, last) == SumPeaks(ticks, first, last - 1) + Peak(ticks, last)
  {
  }

  function After(l: Ledger, e: Event): Ledger {
    match e
    case Ticked(t) =>
      var (state, gone) := OnTick(l.state, t);
      Ledger(state, l.flushed, l.evicted + gone)
    case Flushed =>
      var (state, out) := Flush(l.state);
      Ledger(state, l.flushed + out, l.evicted)
  }

  lemma TickShaped(st: SymbolState, ms: int, price: real, delta: real, counter: real)
    requires Shaped(st) && st.lastTsMs <= ms
    ensures var filled := Fill(st.buckets, Minute(ms), price, delta);
      Shaped(SymbolState(filled[Evictions(|st.buckets|, |filled|)..], ms, IstDay(ms), counter))
  {
    FillShaped(st, ms, price, delta);
    var filled := Fill(st.buckets, Minute(ms), price, delta);
    var kept := filled[Evictions(|st.buckets|, |filled|)..];
    forall b <- kept ensures b in filled { }
  }

  function Before(l: Ledger, t: Tick): SymbolState
    requires t.tsMs.Some?
  {
    if l.state.None? then SymbolState([], t.tsMs.value, DayOf(t), t.volume) else l.state.value
  }

  lemma TickStep(l: Ledger, t: Tick)
    requires t.tsMs.Some? && Shaped(Before(l, t)) && Before(l, t).lastTsMs <= t.tsMs.value
    ensures var s := After(l, Ticked(t)).state;
      && s.Some? && Shaped(s.value) && s.value.lastTsMs == t.tsMs.value && s.value.volumeDay == DayOf(t)
      && s.value.cumulativeVolume == Count(Before(l, t), DayOf(t), t.volume).1
  {
    var (delta, counter) := Count(Before(l, t), DayOf(t), t.volume);
    TickShaped(Before(l, t), t.tsMs.value, t.price, delta, counter);
  }

  lemma FirstTickMirrors(t: Tick)
    requires t.tsMs.Some?
    ensures Mirrors(After(Ledger(None, [], []), Ticked(t)), [t])
  {
    hide Peak, SumPeaks, Fill, OnTick, Shaped, After;
    var l := Ledger(None, [], []);
    FreshIsShaped(t);
    TickStep(l, t);
    TickTotals(l, t);
    FirstDated(t);
    OnePeak(t);
  }

  lemma FreshIsShaped(t: Tick)
    requires t.tsMs.Some?
    ensures Shaped(SymbolState([], t.tsMs.value, DayOf(t), t.volume))
  {
  }

  lemma FirstDated(t: Tick)
    requires t.tsMs.Some?
    ensures forall s: SymbolState :: s.lastTsMs == t.tsMs.value && s.volumeDay == DayOf(t) ==> Dated(s, [t])
  {
    assert t in [t];
  }

  lemma OnePeak(t: Tick)
    ensures Peak([t], DayOf(t)) == t.volume && SumPeaks([t], DayOf(t), DayOf(t)) == t.volume
  {
    assert [t][..0] == [];
    assert SumPeaks([t], DayOf(t), DayOf(t)) == SumPeaks([t], DayOf(t), DayOf(t) - 1) + Peak([t], DayOf(t));
  }

  lemma NextDated(s: SymbolState, s': SymbolState, ticks: seq<Tick>, t: Tick)
    requires Dated(s, ticks) && t.tsMs.Some? && s.lastTsMs <= t.tsMs.value
    requires s'.lastTsMs == t.tsMs.value && s'.volumeDay == DayOf(t)
    ensures Dated(s', ticks + [t]) && s.volumeDay <= DayOf(t)
  {
    var all := ticks + [t];
    assert IstDay(s.lastTsMs) <= IstDay(t.tsMs.value);
    assert forall u :: u in all <==> u in ticks || u == t;
    assert all[|all| - 1] == t && t in all;
  }

  /** What an accepted tick adds, told from the accepted ticks before it: nothing for the first, the whole
      counter on a new day, else its rise above the day's peak. */
  function Increase(ticks: seq<Tick>, t: Tick): real {
    if ticks == [] then 0.0
    else if DayOf(ticks[|ticks| - 1]) != DayOf(t) then t.volume
    else if t.volume > Peak(ticks, DayOf(t)) then t.volume - Peak(ticks, DayOf(t))
    else 0.0
  }

  lemma CountIsIncrease(l: Ledger, ticks: seq<Tick>, t: Tick)
    requires Mirrors(l, ticks) && t.tsMs.Some?
    ensures Count(Before(l, t), DayOf(t), t.volume).0 == Increase(ticks, t)
  {
    hide Peak, SumPeaks, EverBuilt, Shaped, HasDay;
  }

  /** The writer's counter stays the day's peak, and the peaks' sum rises by what the tick adds. */
  lemma NextPeak(s: SymbolState, ticks: seq<Tick>, t: Tick)
    requires Dated(s, ticks) && s.cumulativeVolume == Peak(ticks, s.volumeDay)
    requires t.tsMs.Some? && s.volumeDay <= DayOf(t)
    ensures var (delta, counter) := Count(s, DayOf(t), t.volume);
      && counter == Peak(ticks + [t], DayOf(t))
      && SumPeaks(ticks + [t], DayOf(ticks[0]), DayOf(t)) == SumPeaks(ticks, DayOf(ticks[0]), s.volumeDay) + delta
  {
    hide Peak, SumPeaks, HasDay;
    PeaksAfterTick(ticks, t, s.volumeDay);
  }

  lemma NextTickMirrors(l: Ledger, ticks: seq<Tick>, t: Tick)
    requires Mirrors(l, ticks) && t.tsMs.Some? && l.state.Some? && l.state.value.lastTsMs <= t.tsMs.value
    ensures Mirrors(After(l, Ticked(t)), ticks + [t])
  {
    hide Peak, SumPeaks, Fill, Total, OnTick, Shaped, EverBuilt, Dated, Count, After;
    var st := l.state.value;
    TickTotals(l, t);
    TickStep(l, t);
    NextDated(st, After(l, Ticked(t)).state.value, ticks, t);
    NextPeak(st, ticks, t);
    assert (ticks + [t])[0] == ticks[0];
  }

  lemma TickTotals(l: Ledger, t: Tick)
    requires t.tsMs.Some? && Before(l, t).lastTsMs <= t.tsMs.value
    ensures EverBuilt(After(l, Ticked(t))) == EverBuilt(l) + Count(Before(l, t), DayOf(t), t.volume).0
  {
    TickAdds(l.state, t);
    TotalConcat(l.evicted, OnTick(l.state, t).1);
  }

  lemma FlushMirrors(l: Ledger, ticks: seq<Tick>)
    requires Mirrors(l, ticks)
    ensures Mirrors(After(l, Flushed), ticks)
  {
    TotalConcat(l.flushed, Held(l.state));
  }

  /** The writer's own test. */
  predicate Accepts(state: Option<SymbolState>, e: Event) {
    e.Ticked? && e.tick.tsMs.Some? && (state.Some? ==> state.value.lastTsMs <= e.tick.tsMs.value)
  }

  /** The writer's own out-of-order test is the one about all earlier ticks. */
  lemma AcceptsInOrder(events: seq<Event>, e: Event, state: Option<SymbolState>)
    requires LastTimed(events, state)
    ensures InOrder(events + [e], |events|) <==> Accepts(state, e)
  {
    var all := events + [e];
    if e.Ticked? && e.tick.tsMs.Some? {
      if state.Some? && e.tick.tsMs.value < state.value.lastTsMs {
        var latest :| latest in events && latest.Ticked? && latest.tick.tsMs == Some(state.value.lastTsMs);
        var j :| 0 <= j < |events| && events[j] == latest;
        assert all[j] == latest;
      } else {
        forall j | 0 <= j < |events| && all[j].Ticked? && all[j].tick.tsMs.Some?
          ensures all[j].tick.tsMs.value <= e.tick.tsMs.value
        {
          assert all[j] in events;
        }
      }
    }
  }

  lemma LastTimedSnoc(events: seq<Event>, e: Event, l: Ledger)
    requires LastTimed(events, l.state)
    ensures LastTimed(events + [e], After(l, e).state)
  {
    var all := events + [e];
    assert forall x :: x in all <==> x in events || x == e;
    if l.state.Some? {
      var latest :| latest in events && latest.Ticked? && latest.tick.tsMs == Some(l.state.value.lastTsMs);
      assert latest in all;
    }
    assert e in all;
  }

  lemma Snoc(events: seq<Event>, e: Event)
    ensures Run(events + [e]) == After(Run(events), e)
    ensures Accepted(events + [e]) ==
      if InOrder(events + [e], |events|) then Accepted(events) + [e.tick] else Accepted(events)
  {
    assert (events + [e])[..|events|] == events;
  }

  lemma StepMirrors(l: Ledger, ticks: seq<Tick>, e: Event)
    requires Mirrors(l, ticks)
    ensures if Accepts(l.state, e) then Mirrors(After(l, e), ticks + [e.tick]) else Mirrors(After(l, e), ticks)
  {
    if e.Flushed? {
      FlushMirrors(l, ticks);
    } else if e.tick.tsMs.None? || (l.state.Some? && e.tick.tsMs.value < l.state.value.lastTsMs) {
      assert l.evicted + [] == l.evicted;
      assert After(l, e) == l;
    } else if l.state.None? {
      FirstTickMirrors(e.tick);
      assert l == Ledger(None, [], []) && ticks + [e.tick] == [e.tick];
    } else {
      NextTickMirrors(l, ticks, e.tick);
    }
  }

  lemma {:induction false} RunMirrors(events: seq<Event>)
    ensures Mirrors(Run(events), Accepted(events)) && LastTimed(events, Run(events).state)
  {
    if events != [] {
      var before, e := events[..|events| - 1], events[|events| - 1];
      RunMirrors(before);
      assert events == before + [e];
      Snoc(before, e);
      AcceptsInOrder(before, e, Run(before).state);
      LastTimedSnoc(before, e, Run(before));
      StepMirrors(Run(before), Accepted(before), e);
    }
  }

  /** Main result, conservation: for every stream of ticks with flushes anywhere, the volume of all
      candles ever built (flushed, evicted or still held) is the day's highest accepted counter
      summed over the IST days, minus the first accepted counter. */
  lemma VolumeIsConserved(events: seq<Event>)
    ensures var ticks := Accepted(events);
      if ticks == [] then EverBuilt(Run(events)) == 0.0
      else EverBuilt(Run(events)) == SumPeaks(ticks, DayOf(ticks[0]), DayOf(ticks[|ticks| - 1])) - ticks[0].volume
  {
    RunMirrors(events);
  }

  // ------------------------------------------------------------------ prices

  /** An accepted tick and the volume it adds. */
  datatype Share = Share(tick: Tick, increase: real)

  /** The accepted ticks since the last flush with what each added, grouped by minute in arrival order. */
  ghost function Groups(events: seq<Event>): seq<seq<Share>> {
    if events == [] then []
    else
      var n := |events| - 1;
      var groups := Groups(events[..n]);
      if events[n].Flushed? then []
      else if !InOrder(events, n) then groups
      else Grouped(groups, Share(events[n].tick, Increase(Accepted(events[..n]), events[n].tick)))
  }

  function MinuteOf(t: Tick): int {
    if t.tsMs.Some? then Minute(t.tsMs.value) else 0
  }

  function Grouped(groups: seq<seq<Share>>, s: Share): seq<seq<Share>> {
    var m := |groups|;
    if m > 0 && groups[m - 1] != [] && MinuteOf(groups[m - 1][0].tick) == MinuteOf(s.tick)
    then groups[m - 1 := groups[m - 1] + [s]]
    else groups + [[s]]
  }

  function Increases(group: seq<Share>): real {
    if group == [] then 0.0 else Increases(group[..|group| - 1]) + group[|group| - 1].increase
  }

  /** The candle's prices are the first, highest, lowest and last of the group's, all of one minute. */
  ghost predicate PricesFold(c: Candle, group: seq<Share>) {
    && group != []
    && (forall s <- group :: MinuteOf(s.tick) == c.minute && c.low <= s.tick.price <= c.high)
    && (exists s <- group :: s.tick.price == c.high)
    && (exists s <- group :: s.tick.price == c.low)
    && c.open == group[0].tick.price && c.close == group[|group| - 1].tick.price
  }

  /** And its volume is what the group's ticks added. */
  ghost predicate IsFold(c: Candle, group: seq<Share>) {
    PricesFold(c, group) && c.volume == Increases(group)
  }

  /** `xs` pairs up with the last elements of `ys`. */
  ghost predicate Paired<A, B>(xs: seq<A>, ys: seq<B>, p: (A, B) -> bool) {
    |xs| <= |ys| && forall i | 0 <= i < |xs| :: p(xs[i], ys[|ys| - |xs| + i])
  }

  lemma PairedReplace<A, B>(xs: seq<A>, ys: seq<B>, x: A, y: B, p: (A, B) -> bool)
    requires xs != [] && Paired(xs, ys, p) && p(x, y)
    ensures Paired(xs[|xs| - 1 := x], ys[|ys| - 1 := y], p)
  {
  }

  lemma PairedAppend<A, B>(xs: seq<A>, ys: seq<B>, x: A, y: B, p: (A, B) -> bool)
    requires Paired(xs, ys, p) && p(x, y)
    ensures Paired(xs + [x], ys + [y], p)
  {
    forall i | 0 <= i < |xs| ensures p((xs + [x])[i], (ys + [y])[|ys| - |xs| + i]) {
      assert p(xs[i], ys[|ys| - |xs| + i]);
    }
  }

  lemma PairedDrop<A, B>(xs: seq<A>, ys: seq<B>, k: nat, p: (A, B) -> bool)
    requires k <= |xs| && Paired(xs, ys, p)
    ensures Paired(xs[k..], ys, p)
  {
    forall i | 0 <= i < |xs| - k ensures p(xs[k..][i], ys[|ys| - (|xs| - k) + i]) {
      assert p(xs[k + i], ys[|ys| - |xs| + (k + i)]);
    }
  }

  /** The buckets fold the newest groups, one each. */
  ghost predicate FoldsNewest(buckets: seq<Candle>, groups: seq<seq<Share>>) {
    && |buckets| == (if |groups| <= 31 then |groups| else 31)
    && Paired(buckets, groups, IsFold)
  }

  function Folded(c: Candle, s: Share): Candle {
    Candle(c.minute, c.open, Max(c.high, s.tick.price), Min(c.low, s.tick.price), s.tick.price, c.volume + s.increase)
  }

  lemma PricesSnoc(c: Candle, group: seq<Share>, s: Share)
    requires PricesFold(c, group) && MinuteOf(s.tick) == c.minute
    ensures PricesFold(Folded(c, s), group + [s])
  {
    var all := group + [s];
    assert all[0] == group[0];
    assert forall u :: u in all <==> u in group || u == s;
    var high :| high in group && high.tick.price == c.high;
    var low :| low in group && low.tick.price == c.low;
    assert high in all && low in all && s in all;
  }

  lemma FoldSnoc(c: Candle, group: seq<Share>, s: Share)
    requires IsFold(c, group) && MinuteOf(s.tick) == c.minute
    ensures IsFold(Folded(c, s), group + [s])
  {
    hide PricesFold;
    PricesSnoc(c, group, s);
    assert (group + [s])[..|group|] == group;
  }

  lemma FoldMinute(c: Candle, group: seq<Share>)
    requires IsFold(c, group)
    ensures group != [] && MinuteOf(group[0].tick) == c.minute
  {
    assert group[0] in group;
  }

  lemma OneFold(s: Share)
    ensures IsFold(Candle(MinuteOf(s.tick), s.tick.price, s.tick.price, s.tick.price, s.tick.price, s.increase), [s])
  {
    assert s in [s] && [s][..0] == [];
    assert Increases([s]) == Increases([]) + s.increase;
  }

  lemma TickFolds(st: SymbolState, groups: seq<seq<Share>>, s: Share)
    requires Shaped(st) && FoldsNewest(st.buckets, groups) && s.tick.tsMs.Some? && st.lastTsMs <= s.tick.tsMs.value
    ensures var filled := Fill(st.buckets, MinuteOf(s.tick), s.tick.price, s.increase);
      FoldsNewest(filled[Excess(|filled|)..], Grouped(groups, s))
  {
    hide IsFold, Fill;
    var n, minute := |st.buckets|, MinuteOf(s.tick);
    assert Minute(st.lastTsMs) <= minute;
    if n > 0 && st.buckets[n - 1].minute == minute {
      assert IndexOf(st.buckets, minute) == n - 1;
      TickFoldsIntoLast(st.buckets, groups, s);
    } else {
      forall j | 0 <= j < n ensures st.buckets[j].minute != minute {
        assert st.buckets[n - 1] in st.buckets;
        assert st.buckets[j].minute <= st.buckets[n - 1].minute;
      }
      TickFoldsIntoNew(st.buckets, groups, s);
    }
  }

  lemma TickFoldsIntoLast(buckets: seq<Candle>, groups: seq<seq<Share>>, s: Share)
    requires |buckets| > 0 && FoldsNewest(buckets, groups)
    requires IndexOf(buckets, MinuteOf(s.tick)) == |buckets| - 1
    ensures var filled := Fill(buckets, MinuteOf(s.tick), s.tick.price, s.increase);
      FoldsNewest(filled[Excess(|filled|)..], Grouped(groups, s))
  {
    hide IsFold;
    var n, m := |buckets|, |groups|;
    var last, group := buckets[n - 1], groups[m - 1];
    FoldMinute(last, group);
    FoldSnoc(last, group, s);
    PairedReplace(buckets, groups, Folded(last, s), group + [s], IsFold);
    assert Grouped(groups, s) == groups[m - 1 := group + [s]];
    assert Fill(buckets, MinuteOf(s.tick), s.tick.price, s.increase) == buckets[n - 1 := Folded(last, s)];
    assert buckets[n - 1 := Folded(last, s)][0..] == buckets[n - 1 := Folded(last, s)];
  }

  lemma TickFoldsIntoNew(buckets: seq<Candle>, groups: seq<seq<Share>>, s: Share)
    requires FoldsNewest(buckets, groups)
    requires forall j | 0 <= j < |buckets| :: buckets[j].minute != MinuteOf(s.tick)
    ensures var filled := Fill(buckets, MinuteOf(s.tick), s.tick.price, s.increase);
      FoldsNewest(filled[Excess(|filled|)..], Grouped(groups, s))
  {
    hide IsFold;
    var n, m := |buckets|, |groups|;
    assert IndexOf(buckets, MinuteOf(s.tick)) == n;
    if n > 0 { FoldMinute(buckets[n - 1], groups[m - 1]); }
    assert Grouped(groups, s) == groups + [[s]];
    var filled := Fill(buckets, MinuteOf(s.tick), s.tick.price, s.increase);
    OneFold(s);
    PairedAppend(buckets, groups, filled[n], [s], IsFold);
    PairedDrop(filled, groups + [[s]], Excess(n + 1), IsFold);
  }

  lemma GroupsSnoc(events: seq<Event>, e: Event)
    ensures Groups(events + [e]) ==
      if e.Flushed? then []
      else if !InOrder(events + [e], |events|) then Groups(events)
      else Grouped(Groups(events), Share(e.tick, Increase(Accepted(events), e.tick)))
  {
    hide InOrder, Grouped, Accepted;
    assert (events + [e])[..|events|] == events;
  }

  /** Main result: after every run the held buckets are at most 31, in ascending minutes, and each is
      the open, highest, lowest and last price of exactly its accepted ticks, with the volume they added. */
  lemma {:induction false} BucketsFoldTheirTicks(events: seq<Event>)
    ensures FoldsNewest(Held(Run(events).state), Groups(events))
    ensures Run(events).state.Some? ==> Shaped(Run(events).state.value)
  {
    hide FoldsNewest, Grouped, Increase, Shaped, After, Accepts, Mirrors, Run, Accepted, LastTimed;
    RunShaped(events);
    if events == [] {
      NothingRuns();
      NothingFolds();
    } else {
      var before, e := events[..|events| - 1], events[|events| - 1];
      BucketsFoldTheirTicks(before);
      NextGroups(before, e);
      RunMirrors(before);
      StepFolds(Run(before), Accepted(before), Groups(before), e);
      assert events == before + [e];
    }
  }

  ghost predicate Timed(groups: seq<seq<Share>>) {
    forall g <- groups, s <- g :: s.tick.tsMs.Some?
  }

  lemma GroupedTimed(groups: seq<seq<Share>>, s: Share)
    requires Timed(groups) && s.tick.tsMs.Some?
    ensures Timed(Grouped(groups, s))
  {
    var m, all := |groups|, Grouped(groups, s);
    forall g <- all, u <- g ensures u.tick.tsMs.Some? {
      if g !in groups {
        assert g == all[|all| - 1];
        assert |all| == m ==> groups[m - 1] in groups && (u in groups[m - 1] || u == s);
      }
    }
  }

  lemma {:induction false} GroupsAreTimed(events: seq<Event>)
    ensures Timed(Groups(events))
  {
    if events != [] {
      hide Timed, Grouped;
      var n := |events| - 1;
      GroupsAreTimed(events[..n]);
      NoGroupsTimed();
      if InOrder(events, n) {
        GroupedTimed(Groups(events[..n]), Share(events[n].tick, Increase(Accepted(events[..n]), events[n].tick)));
      }
    } else {
      NoGroupsTimed();
    }
  }

  lemma NoGroupsTimed()
    ensures Timed([])
  {
  }

  /** And each group's ticks are those of one minute of the clock: 60 seconds from a whole multiple of 60. */
  lemma BucketsAreMinutes(events: seq<Event>, i: nat, s: Share)
    requires var held, groups := Held(Run(events).state), Groups(events);
      i < |held| <= |groups| && s in groups[|groups| - |held| + i]
    ensures var c := Held(Run(events).state)[i];
      s.tick.tsMs.Some? && 60_000 * c.minute <= s.tick.tsMs.value < 60_000 * (c.minute + 1)
  {
    hide Groups, Run, Shaped;
    BucketsFoldTheirTicks(events);
    GroupsAreTimed(events);
    var held, groups := Held(Run(events).state), Groups(events);
    var group := groups[|groups| - |held| + i];
    assert IsFold(held[i], group) && group in groups;
    MinuteSpan(s.tick.tsMs.value);
  }

  lemma MinuteSpan(ms: int)
    ensures 60_000 * Minute(ms) <= ms < 60_000 * (Minute(ms) + 1)
  {
    assert ms == 60_000 * (ms / 60_000) + ms % 60_000;
  }

  lemma NothingRuns()
    ensures Run([]) == Ledger(None, [], []) && Accepted([]) == []
  {
  }

  lemma NothingFolds()
    ensures FoldsNewest([], [])
  {
  }

  lemma RunShaped(events: seq<Event>)
    ensures Run(events).state.Some? ==> Shaped(Run(events).state.value)
  {
    hide Run, Accepted, Dated, Balanced, Peak, LastTimed, Shaped;
    RunMirrors(events);
  }

  lemma NextGroups(events: seq<Event>, e: Event)
    ensures Run(events + [e]) == After(Run(events), e)
    ensures Groups(events + [e]) ==
      if e.Flushed? then []
      else if Accepts(Run(events).state, e) then
          Grouped(Groups(events), Share(e.tick, Increase(Accepted(events), e.tick)))
      else Groups(events)
  {
    hide Run, Groups, Grouped, Increase, Accepted, InOrder, Mirrors, LastTimed, After;
    Snoc(events, e);
    GroupsSnoc(events, e);
    RunMirrors(events);
    AcceptsInOrder(events, e, Run(events).state);
  }

  lemma StepFolds(l: Ledger, ticks: seq<Tick>, groups: seq<seq<Share>>, e: Event)
    requires Mirrors(l, ticks) && FoldsNewest(Held(l.state), groups) && (l.state.Some? ==> Shaped(l.state.value))
    ensures FoldsNewest(Held(After(l, e).state),
      if e.Flushed? then []
      else if Accepts(l.state, e) then Grouped(groups, Share(e.tick, Increase(ticks, e.tick)))
      else groups)
  {
    hide FoldsNewest, Grouped, Fill, Increase, Count, Mirrors, IstDay;
    if e.Flushed? {
      NothingFolds();
    } else if Accepts(l.state, e) {
      var t := e.tick;
      FreshIsShaped(t);
      CountIsIncrease(l, ticks, t);
      TickFolds(Before(l, t), groups, Share(t, Increase(ticks, t)));
    }
  }
}
