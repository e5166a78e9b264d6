/** Class `CandleWriter` of server/workers/candle-writer.ts: one state per symbol, updated in place
    and proved equal to the per-symbol step functions of `Candles`. */
module CandleWriting {
  import opened Basics
  import opened Candles
  import opened IstClock

  class CandleWriter {
    var symbols: map<string, SymbolState>

    constructor ()
      ensures symbols == map[]
    {
      symbols := map[];
    }

    function Lookup(symbol: string): Option<SymbolState>
      reads this
    {
      if symbol in symbols then Some(symbols[symbol]) else None
    }

    /** Only the tick's own symbol changes, and as `Candles.OnTick` says. */
    method OnTickReceived(t: Tick)
      modifies this
      ensures Lookup(t.symbol) == OnTick(old(Lookup(t.symbol)), t).0
      ensures forall s | s != t.symbol :: Lookup(s) == old(Lookup(s))
    {
      if t.tsMs.None? { return; }
      var tsMs := t.tsMs.value;
      var day := IstDay(tsMs);
      var state: SymbolState;
      if t.symbol !in symbols {
        state := SymbolState([], tsMs, day, t.volume);
      } else {
        state := symbols[t.symbol];
        if tsMs < state.lastTsMs { return; }
      }
      var volumeDelta := 0.0;
      if state.volumeDay != day {
        volumeDelta := t.volume;
        state := state.(volumeDay := day, cumulativeVolume := t.volume);
      } else if t.volume > state.cumulativeVolume {
        volumeDelta := t.volume - state.cumulativeVolume;
        state := state.(cumulativeVolume := t.volume);
      }
      state := state.(lastTsMs := tsMs);
      var key := Minute(tsMs);
      var i := IndexOf(state.buckets, key);
      if i < |state.buckets| {
        var bucket := state.buckets[i];
        bucket := Candle(key, bucket.open, Max(bucket.high, t.price), Min(bucket.low, t.price), t.price,
                         bucket.volume + volumeDelta);
        state := state.(buckets := state.buckets[i := bucket]);
      } else {
        var kept := EvictOldest(state.buckets + [Candle(key, t.price, t.price, t.price, t.price, volumeDelta)]);
        state := state.(buckets := kept);
      }
      symbols := symbols[t.symbol := state];
    }

    /** The candles a flush returns are the held ones, oldest first; afterwards none is held. */
    method FlushSymbol(symbol: string) returns (out: seq<Candle>)
      modifies this
      ensures (Lookup(symbol), out) == Flush(old(Lookup(symbol)))
      ensures forall s | s != symbol :: Lookup(s) == old(Lookup(s))
    {
      if symbol !in symbols { return []; }
      out := symbols[symbol].buckets;
      symbols := symbols[symbol := symbols[symbol].(buckets := [])];
    }
  }

  method EvictOldest(buckets: seq<Candle>) returns (kept: seq<Candle>)
    ensures kept == buckets[Excess(|buckets|)..]
  {
    kept := buckets;
    while |kept| > RETAINED_CLOSED_MINUTES + 1
      invariant |kept| <= |buckets| && kept == buckets[|buckets| - |kept|..]
      invariant |buckets| > RETAINED_CLOSED_MINUTES + 1 ==> |kept| >= RETAINED_CLOSED_MINUTES + 1
      invariant |buckets| <= RETAINED_CLOSED_MINUTES + 1 ==> kept == buckets
    {
      kept := kept[1..];
    }
  }
}
