/** Calendar days in Asia/Kolkata (UTC+05:30, no daylight saving) of instants in epoch milliseconds:
    istDateKey of server/domain/market/clock.ts and the session day of shared/indicators/canonical.ts. */
module IstClock {
  const MINUTE_MS := 60_000
  const DAY_MS := 24 * 60 * MINUTE_MS
  const IST_OFFSET_MS := 330 * MINUTE_MS

  /** The day as a number; Dafny's division rounds down here as Math.floor does. */
  function IstDay(ms: int): int { (ms + IST_OFFSET_MS) / DAY_MS }

  /** Day d runs for 24 hours from midnight in India, 18:30 UTC of the day before. */
  lemma IstDayIs(ms: int, d: int)
    ensures IstDay(ms) == d <==> 86_400_000 * d - 19_800_000 <= ms < 86_400_000 * (d + 1) - 19_800_000
  {
    assert ms + IST_OFFSET_MS == 86_400_000 * IstDay(ms) + (ms + IST_OFFSET_MS) % DAY_MS;
  }
}
