/** Class `DailyProcessorSchedule` of server/workers/daily-processor-schedule.ts: `tick` split where it
    awaits.  Each part is proved equal to its step in module `DailySchedule`, about whose clusters of
    instances the results are proved. */
module DailyProcessor {
  import opened Basics
  import D = DailySchedule
  import IstClock

  class DailyProcessorSchedule {
    var completedIstDate: Option<D.Date>
    var retryNotBefore: D.Time
    var running: bool
    /** Where the current tick is suspended. */
    var phase: D.Phase

    function State(): D.Instance
      reads this
    {
      D.Instance(completedIstDate, retryNotBefore, running, phase)
    }

    constructor ()
      ensures State() == D.STARTED
    {
      completedIstDate, retryNotBefore, running, phase := None, 0, false, D.Resting;
    }

    method Tick(now: D.Time, holidays: seq<D.Time>)
      modifies this
      ensures State() == D.TickStep(old(State()), now, holidays)
    {
      if running || !D.InWindow(now, holidays) { return; }
      var istDate := IstClock.IstDay(now);
      if completedIstDate == Some(istDate) || now < retryNotBefore { return; }
      running := true;
      phase := D.Checking(istDate, now);
    }

    /** The answer of a Redis command, or the fallback when it failed. */
    static method Guard(answer: Option<bool>, fallback: bool) returns (r: bool)
      ensures r == if answer.Some? then answer.value else fallback
    {
      if answer.Some? { r := answer.value; } else { r := fallback; }
    }

    method CheckAnswered(answer: Option<bool>, now: D.Time)
      requires phase.Checking?
      modifies this
      ensures State() == D.CheckedStep(old(State()), answer == Some(true), now)
    {
      var completed := Guard(answer, false);
      if completed {
        completedIstDate := Some(phase.date);
        Finally();
        return;
      }
      phase := D.Locking(phase.date, phase.tickAt, now);
    }

    method LockAnswered(answer: Option<bool>, run: nat)
      requires phase.Locking?
      modifies this
      ensures State() == D.LockedStep(old(State()), answer != Some(false), run)
    {
      var granted := Guard(answer, true);
      if !granted {
        Finally();
        return;
      }
      phase := D.Running(phase.date, phase.tickAt, run);
    }

    method RunEnded(ok: bool)
      requires phase.Running?
      modifies this
      ensures State() == D.RunEndedStep(old(State()), ok)
    {
      if !ok {
        retryNotBefore := phase.tickAt + D.LOCK_TTL_MS;
        Finally();
        return;
      }
      completedIstDate := Some(phase.date);
      phase := D.Marking(phase.date, phase.run);
    }

    method MarkAnswered()
      requires phase.Marking?
      modifies this
      ensures State() == D.Rest(old(State()))
    {
      Finally();
    }

    method Finally()
      modifies this
      ensures State() == D.Rest(old(State()))
    {
      running := false;
      phase := D.Resting;
    }
  }
}
