/** The once-a-day job over any number of server instances: server/workers/daily-processor-schedule.ts
    wired to Redis as in server/orchestrator.ts.

    `Cluster` holds one clock, the Redis keys with their expiry times, every instance and a log of
    the runs started.  An instance suspends at each await; any event may come next, time may pass
    between any two, an instance may crash at any point, and a Redis command may fail. */
module DailySchedule {
  import opened Basics
  import opened IstClock

  type Time = int
  type Date = int
  type InstanceId = nat

  const DAILY_PROCESSOR_IST_MINUTES := 18 * 60 + 30
  const LOCK_TTL_MS := 2 * 60 * 60 * 1000
  const DONE_TTL_MS := 2 * 24 * 60 * 60 * 1000

  function DayStart(d: Date): Time { d * DAY_MS - IST_OFFSET_MS }

  function IstMinutes(t: Time): int { (t + IST_OFFSET_MS) % DAY_MS / MINUTE_MS }

  /** 0 is Sunday; day 0 was a Thursday. */
  function Weekday(d: Date): int { (d + 4) % 7 }

  predicate InWindow(now: Time, holidays: seq<Time>) {
    var d := IstDay(now);
    && Weekday(d) != 0 && Weekday(d) != 6
    && (forall h <- holidays :: IstDay(h) != d)
    && IstMinutes(now) >= DAILY_PROCESSOR_IST_MINUTES
  }

  /** Where a tick is suspended: awaiting the completion check, the lock, the run, or the marker. */
  datatype Phase =
    | Resting
    | Checking(date: Date, tickAt: Time)
    | Locking(date: Date, tickAt: Time, checkedAt: Time)
    | Running(date: Date, tickAt: Time, run: nat)
    | Marking(date: Date, run: nat)

  datatype Instance = Instance(completed: Option<Date>, retryNotBefore: Time, running: bool, phase: Phase)

  const STARTED := Instance(None, 0, false, Resting)

  /** One run: when its tick began, when the completion check answered, when the lock was granted and the
      run started, when it ended (or its instance crashed), how, and when the marker was in place. */
  datatype Run = Run(
    instance: InstanceId, date: Date, tickAt: Time, checkedAt: Time, startedAt: Time,
    endedAt: Option<Time>, succeeded: bool, markedAt: Option<Time>)

  datatype Cluster = Cluster(
    now: Time,
    locks: map<Date, Time>,
    done: map<Date, Time>,
    instances: map<InstanceId, Instance>,
    log: seq<Run>)

  datatype Event =
    | Pass(to: Time)
    | Tick(instance: InstanceId)
    | Checked(instance: InstanceId, fails: bool)
    | Locked(instance: InstanceId, fails: bool)
    | RunEnded(instance: InstanceId, ok: bool)
    | Marked(instance: InstanceId, fails: bool)
    | Crash(instance: InstanceId)

  // ------------------------------------------------------------------ one instance

  function TickStep(i: Instance, now: Time, holidays: seq<Time>): Instance {
    if i.running || !InWindow(now, holidays) then i
    else if i.completed == Some(IstDay(now)) || now < i.retryNotBefore then i
    else i.(running := true, phase := Checking(IstDay(now), now))
  }

  function Rest(i: Instance): Instance {
    i.(running := false, phase := Resting)
  }

  /** The completion check answered; a failed command counts as "not completed". */
  function CheckedStep(i: Instance, completed: bool, now: Time): Instance
    requires i.phase.Checking?
  {
    if completed then Rest(i.(completed := Some(i.phase.date)))
    else i.(phase := Locking(i.phase.date, i.phase.tickAt, now))
  }

  /** The lock answered; a failed command counts as granted. */
  function LockedStep(i: Instance, granted: bool, run: nat): Instance
    requires i.phase.Locking?
  {
    if granted then i.(phase := Running(i.phase.date, i.phase.tickAt, run)) else Rest(i)
  }

  function RunEndedStep(i: Instance, ok: bool): Instance
    requires i.phase.Running?
  {
    if ok then i.(completed := Some(i.phase.date), phase := Marking(i.phase.date, i.phase.run))
    else Rest(i.(retryNotBefore := i.phase.tickAt + LOCK_TTL_MS))
  }

  // ------------------------------------------------------------------ the cluster

  /** A Redis key is there until it expires. */
  predicate Held(keys: map<Date, Time>, d: Date, now: Time) {
    d in keys && now < keys[d]
  }

  /** SET key NX EX ttl */
  function SetIfAbsent(keys: map<Date, Time>, d: Date, now: Time, ttl: int): map<Date, Time> {
    if Held(keys, d, now) then keys else keys[d := now + ttl]
  }

  function Put(c: Cluster, i: InstanceId, instance: Instance): Cluster {
    c.(instances := c.instances[i := instance])
  }

  predicate Enabled(c: Cluster, e: Event) {
    match e
    case Pass(to) => c.now <= to
    case Tick(i) => i in c.instances
    case Checked(i, _) => i in c.instances && c.instances[i].phase.Checking?
    case Locked(i, _) => i in c.instances && c.instances[i].phase.Locking?
    case RunEnded(i, _) => i in c.instances && c.instances[i].phase.Running? && c.instances[i].phase.run < |c.log|
    case Marked(i, _) => i in c.instances && c.instances[i].phase.Marking? && c.instances[i].phase.run < |c.log|
    case Crash(i) => i in c.instances && (c.instances[i].phase.Running? ==> c.instances[i].phase.run < |c.log|)
  }

  function LockStep(c: Cluster, i: InstanceId, fails: bool): Cluster
    requires Enabled(c, Locked(i, fails))
  {
    var phase := c.instances[i].phase;
    var granted := fails || !Held(c.locks, phase.date, c.now);
    var c1 := Put(c, i, LockedStep(c.instances[i], granted, |c.log|));
    if !granted then c1
    else
      c1.(locks := if fails then c.locks else c.locks[phase.date := c.now + LOCK_TTL_MS],
          log := c.log + [Run(i, phase.date, phase.tickAt, phase.checkedAt, c.now, None, false, None)])
  }

  function Ended(c: Cluster, run: nat, ok: bool): seq<Run>
    requires run < |c.log|
  {
    c.log[run := c.log[run].(endedAt := Some(c.now), succeeded := ok)]
  }

  function Step(c: Cluster, holidays: seq<Time>, e: Event): Cluster
    requires Enabled(c, e)
  {
    match e
    case Pass(to) => c.(now := to)
    case Tick(i) => Put(c, i, TickStep(c.instances[i], c.now, holidays))
    case Checked(i, fails) =>
      Put(c, i, CheckedStep(c.instances[i], !fails && Held(c.done, c.instances[i].phase.date, c.now), c.now))
    case Locked(i, fails) => LockStep(c, i, fails)
    case RunEnded(i, ok) =>
      Put(c, i, RunEndedStep(c.instances[i], ok)).(log := Ended(c, c.instances[i].phase.run, ok))
    case Marked(i, fails) =>
      var phase := c.instances[i].phase;
      var c1 := Put(c, i, Rest(c.instances[i]));
      if fails then c1
      else c1.(done := SetIfAbsent(c.done, phase.date, c.now, DONE_TTL_MS),
               log := c.log[phase.run := c.log[phase.run].(markedAt := Some(c.now))])
    case Crash(i) =>
      var c1 := Put(c, i, STARTED);
      if c.instances[i].phase.Running? then c1.(log := Ended(c, c.instances[i].phase.run, false)) else c1
  }

  ghost predicate IsRun(states: seq<Cluster>, holidays: seq<Time>, events: seq<Event>) {
    && |states| == |events| + 1
    && (forall i :: i in states[0].instances ==> states[0].instances[i] == STARTED)
    && states[0].locks == map[] && states[0].done == map[] && states[0].log == []
    && forall n | 0 <= n < |events| ::
         Enabled(states[n], events[n]) && states[n + 1] == Step(states[n], holidays, events[n])
  }

  predicate Fails(e: Event) {
    match e
    case Checked(_, fails) => fails
    case Locked(_, fails) => fails
    case Marked(_, fails) => fails
    case _ => false
  }

  /** Every Redis command succeeded. */
  ghost predicate RedisWorks(events: seq<Event>) {
    forall n | 0 <= n < |events| :: !Fails(events[n])
  }

  // ------------------------------------------------------------------ the invariant

  /** An instance between ticks is not running; a suspended tick began and was checked in the past, on its
      own date; a run belongs to its instance and is open while it runs. */
  ghost predicate InstanceOk(c: Cluster, i: InstanceId) {
    i in c.instances ==>
      var p := c.instances[i].phase;
      && (c.instances[i].running <==> !p.Resting?)
      && (p.Checking? ==> IstDay(p.tickAt) == p.date && p.tickAt <= c.now)
      && (p.Locking? ==> IstDay(p.tickAt) == p.date && p.tickAt <= p.checkedAt <= c.now)
      && (p.Running? ==> p.run < |c.log| && c.log[p.run].instance == i && c.log[p.run].date == p.date
                         && c.log[p.run].endedAt.None? && c.log[p.run].markedAt.None?)
      && (p.Marking? ==> p.run < |c.log| && c.log[p.run].instance == i && c.log[p.run].date == p.date
                         && c.log[p.run].endedAt.Some? && c.log[p.run].markedAt.None?)
  }

  /** Times of a logged run are in order, and it has not ended only while its instance runs it. */
  ghost predicate RunOk(c: Cluster, j: nat) {
    j < |c.log| ==>
      var r := c.log[j];
      && IstDay(r.tickAt) == r.date && r.tickAt <= r.checkedAt <= r.startedAt <= c.now
      && (r.endedAt.Some? ==> r.startedAt <= r.endedAt.value <= c.now)
      && (r.endedAt.None? ==>
            r.instance in c.instances && c.instances[r.instance].phase == Running(r.date, r.tickAt, j))
      && (r.markedAt.Some? ==> r.startedAt <= r.markedAt.value <= c.now)
  }

  ghost predicate Serial(c: Cluster, j: nat, k: nat) {
    j < k < |c.log| && c.log[j].instance == c.log[k].instance ==>
      c.log[j].endedAt.Some? && c.log[j].endedAt.value <= c.log[k].startedAt
  }

  /** What holds whatever Redis does. */
  ghost predicate Sound(c: Cluster) {
    && (forall i :: InstanceOk(c, i))
    && (forall j :: RunOk(c, j))
    && (forall j, k :: Serial(c, j, k))
  }

  lemma TickKeeps(c: Cluster, holidays: seq<Time>, i: InstanceId)
    requires Sound(c) && i in c.instances
    ensures Sound(Step(c, holidays, Tick(i)))
  {
    var n := Step(c, holidays, Tick(i));
    assert InstanceOk(c, i);
    forall x ensures InstanceOk(n, x) { assert InstanceOk(c, x); }
    forall j ensures RunOk(n, j) { assert RunOk(c, j); }
    forall j, k ensures Serial(n, j, k) { assert Serial(c, j, k); }
  }

  lemma PassKeeps(c: Cluster, to: Time)
    requires Sound(c) && c.now <= to
    ensures Sound(c.(now := to))
  {
    var n := c.(now := to);
    forall x ensures InstanceOk(n, x) { assert InstanceOk(c, x); }
    forall j ensures RunOk(n, j) { assert RunOk(c, j); }
    forall j, k ensures Serial(n, j, k) { assert Serial(c, j, k); }
  }

  lemma CheckedKeeps(c: Cluster, holidays: seq<Time>, e: Event)
    requires Sound(c) && e.Checked? && Enabled(c, e)
    ensures Sound(Step(c, holidays, e))
  {
    var n := Step(c, holidays, e);
    assert InstanceOk(c, e.instance);
    forall x ensures InstanceOk(n, x) { assert InstanceOk(c, x); }
    forall j ensures RunOk(n, j) { assert RunOk(c, j); }
    forall j, k ensures Serial(n, j, k) { assert Serial(c, j, k); }
  }

  lemma LockedKeeps(c: Cluster, i: InstanceId, fails: bool)
    requires Sound(c) && Enabled(c, Locked(i, fails))
    ensures Sound(LockStep(c, i, fails))
  {
    var n := LockStep(c, i, fails);
    assert InstanceOk(c, i);
    forall x ensures InstanceOk(n, x) { assert InstanceOk(c, x); }
    forall j ensures RunOk(n, j) { assert RunOk(c, j); }
    forall j, k ensures Serial(n, j, k) { assert Serial(c, j, k) && RunOk(c, j); }
  }

  lemma EndedKeeps(c: Cluster, holidays: seq<Time>, i: InstanceId, ok: bool)
    requires Sound(c) && Enabled(c, RunEnded(i, ok))
    ensures Sound(Step(c, holidays, RunEnded(i, ok)))
  {
    var n := Step(c, holidays, RunEnded(i, ok));
    var run := c.instances[i].phase.run;
    assert InstanceOk(c, i) && RunOk(c, run);
    forall x ensures InstanceOk(n, x) { assert InstanceOk(c, x); }
    forall j ensures RunOk(n, j) { assert RunOk(c, j); }
    forall j, k ensures Serial(n, j, k) { assert Serial(c, j, k) && Serial(c, run, k); }
  }

  lemma CrashKeeps(c: Cluster, holidays: seq<Time>, i: InstanceId)
    requires Sound(c) && Enabled(c, Crash(i))
    ensures Sound(Step(c, holidays, Crash(i)))
  {
    var p := c.instances[i].phase;
    assert InstanceOk(c, i);
    if p.Running? {
      EndedKeeps(c, holidays, i, false);
      var c1 := Step(c, holidays, RunEnded(i, false));
      RestKeeps(c1, i);
      assert c1.instances[i := STARTED] == c.instances[i := STARTED];
    } else {
      RestKeeps(c, i);
    }
  }

  /** Restarting an instance that runs nothing. */
  lemma RestKeeps(c: Cluster, i: InstanceId)
    requires Sound(c) && i in c.instances && !c.instances[i].phase.Running?
    ensures Sound(Put(c, i, STARTED))
  {
    var n := Put(c, i, STARTED);
    forall x ensures InstanceOk(n, x) { assert InstanceOk(c, x); }
    forall j ensures RunOk(n, j) { assert RunOk(c, j); }
    forall j, k ensures Serial(n, j, k) { assert Serial(c, j, k); }
  }

  lemma MarkedKeeps(c: Cluster, holidays: seq<Time>, e: Event)
    requires Sound(c) && e.Marked? && Enabled(c, e)
    ensures Sound(Step(c, holidays, e))
  {
    var n := Step(c, holidays, e);
    assert InstanceOk(c, e.instance);
    forall x ensures InstanceOk(n, x) { assert InstanceOk(c, x); }
    forall j ensures RunOk(n, j) { assert RunOk(c, j); }
    forall j, k ensures Serial(n, j, k) { assert Serial(c, j, k); }
  }

  lemma StepKeepsSound(c: Cluster, holidays: seq<Time>, e: Event)
    requires Sound(c) && Enabled(c, e)
    ensures Sound(Step(c, holidays, e))
  {
    hide Sound;
    match e
    case Pass(to) => PassKeeps(c, to);
    case Tick(i) => TickKeeps(c, holidays, i);
    case Checked(_, _) => CheckedKeeps(c, holidays, e);
    case Locked(i, fails) => LockedKeeps(c, i, fails);
    case RunEnded(i, ok) => EndedKeeps(c, holidays, i, ok);
    case Marked(_, _) => MarkedKeeps(c, holidays, e);
    case Crash(i) => CrashKeeps(c, holidays, i);
  }

  lemma {:induction false} RunsAreSound(states: seq<Cluster>, holidays: seq<Time>, events: seq<Event>, n: nat)
    requires IsRun(states, holidays, events) && n <= |events|
    ensures Sound(states[n])
  {
    if n > 0 {
      RunsAreSound(states, holidays, events, n - 1);
      StepKeepsSound(states[n - 1], holidays, events[n - 1]);
    }
  }

  // ------------------------------------------------------------------ when runs start

  /** The instant is on a weekday that is no holiday, from half past six in the evening to midnight, in India. */
  ghost predicate Evening(at: Time, d: Date, holidays: seq<Time>) {
    && 86_400_000 * d - 19_800_000 + 66_600_000 <= at < 86_400_000 * (d + 1) - 19_800_000
    && 1 <= (d + 4) % 7 <= 5
    && forall h <- holidays :: h < 86_400_000 * d - 19_800_000 || 86_400_000 * (d + 1) - 19_800_000 <= h
  }

  lemma WindowIsEvening(at: Time, holidays: seq<Time>)
    requires InWindow(at, holidays)
    ensures Evening(at, IstDay(at), holidays)
  {
    var d := IstDay(at);
    IstDayIs(at, d);
    forall h <- holidays ensures h < 86_400_000 * d - 19_800_000 || 86_400_000 * (d + 1) - 19_800_000 <= h {
      IstDayIs(h, d);
    }
    var rest := (at + IST_OFFSET_MS) % DAY_MS;
    assert at + IST_OFFSET_MS == DAY_MS * d + rest;
    assert rest == MINUTE_MS * (rest / MINUTE_MS) + rest % MINUTE_MS;
  }

  lemma EveningIsInWindow(at: Time, d: Date, holidays: seq<Time>)
    requires Evening(at, d, holidays)
    ensures InWindow(at, holidays) && IstDay(at) == d
  {
    IstDayIs(at, d);
    forall h <- holidays ensures IstDay(h) != d { IstDayIs(h, d); }
    var rest := (at + IST_OFFSET_MS) % DAY_MS;
    assert at + IST_OFFSET_MS == DAY_MS * d + rest;
    assert rest == MINUTE_MS * (rest / MINUTE_MS) + rest % MINUTE_MS;
  }

  /** Ticks under way, and runs, began in the evening of their date. */
  ghost predicate Timely(c: Cluster, holidays: seq<Time>) {
    && (forall i <- c.instances ::
          var p := c.instances[i].phase;
          && (p.Checking? ==> Evening(p.tickAt, p.date, holidays))
          && (p.Locking? ==> Evening(p.tickAt, p.date, holidays)))
    && (forall run <- c.log :: Evening(run.tickAt, run.date, holidays))
  }

  lemma TimelyStep(c: Cluster, holidays: seq<Time>, e: Event)
    requires Timely(c, holidays) && Enabled(c, e)
    ensures Timely(Step(c, holidays, e), holidays)
  {
    hide Evening, InWindow;
    if e.Tick? && InWindow(c.now, holidays) { WindowIsEvening(c.now, holidays); }
    var n := Step(c, holidays, e);
    forall run <- n.log ensures Evening(run.tickAt, run.date, holidays) {
      var j :| 0 <= j < |n.log| && n.log[j] == run;
      if j < |c.log| { assert c.log[j] in c.log; }
    }
  }

  /** Main result: every run began with a tick in the evening of its date, half past six to midnight in India,
      Monday to Friday, never on a holiday. */
  lemma {:induction false} RunsStartInTheEvening(
    states: seq<Cluster>, holidays: seq<Time>, events: seq<Event>, n: nat)
    requires IsRun(states, holidays, events) && n <= |events|
    ensures Timely(states[n], holidays)
  {
    hide Step, Enabled, Timely;
    if n == 0 {
      NoneYet(states[0], holidays);
    } else {
      RunsStartInTheEvening(states, holidays, events, n - 1);
      TimelyStep(states[n - 1], holidays, events[n - 1]);
    }
  }

  lemma NoneYet(c: Cluster, holidays: seq<Time>)
    requires (forall i :: i in c.instances ==> c.instances[i] == STARTED) && c.log == []
    ensures Timely(c, holidays)
  {
  }

  /** And in such an evening a tick goes to work unless its instance is busy, knows the date done, or still waits
      after a failure. */
  lemma EveningTickGoesOn(c: Cluster, holidays: seq<Time>, i: InstanceId, d: Date)
    requires i in c.instances && Evening(c.now, d, holidays)
    ensures var before, after := c.instances[i], Step(c, holidays, Tick(i)).instances[i];
      if before.running || before.completed == Some(d) || c.now < before.retryNotBefore then after == before
      else after == before.(running := true, phase := Checking(d, c.now))
  {
    EveningIsInWindow(c.now, d, holidays);
  }

  /** A check that finds its date's marker ends the tick and is remembered; one that does not, or that fails, goes
      on to the lock. */
  lemma MarkerIsRemembered(states: seq<Cluster>, holidays: seq<Time>, events: seq<Event>, n: nat)
    requires IsRun(states, holidays, events) && n < |events| && events[n].Checked?
    ensures var i := events[n].instance;
      && i in states[n].instances && i in states[n + 1].instances && states[n].instances[i].phase.Checking?
      && var (before, after) := (states[n].instances[i], states[n + 1].instances[i]);
      var d := before.phase.date;
      if !events[n].fails && d in states[n].done && states[n].now < states[n].done[d] then
        after == before.(completed := Some(d), running := false, phase := Resting)
      else after == before.(phase := Locking(d, before.phase.tickAt, states[n].now))
  {
  }

  // ------------------------------------------------------------------ while Redis works

  ghost predicate KeysOk(c: Cluster, j: nat) {
    j < |c.log| ==>
      var r := c.log[j];
      && r.date in c.locks && r.startedAt + LOCK_TTL_MS <= c.locks[r.date]
      && (r.markedAt.Some? ==> r.date in c.done)
  }

  /** Run j put the marker of date d in place at time `at`. */
  ghost predicate MarkedAt(log: seq<Run>, j: nat, d: Date, at: Time) {
    j < |log| && log[j].date == d && log[j].markedAt == Some(at)
  }

  ghost predicate SomeMarkedAt(log: seq<Run>, d: Date, at: Time) {
    exists j :: MarkedAt(log, j, d, at)
  }

  /** A completion marker was put in place by a logged run, one time to live before it expires. */
  ghost predicate MarkerOk(c: Cluster, d: Date) {
    d in c.done ==> SomeMarkedAt(c.log, d, c.done[d] - DONE_TTL_MS)
  }

  /** A completion check of date d answered before any marker put in place for d could have expired. */
  ghost predicate InTime(log: seq<Run>, d: Date, checkedAt: Time) {
    forall j, at :: MarkedAt(log, j, d, at) ==> checkedAt < at + 172_800_000
  }

  /** A check in time that let its tick go on came before any marker of its date. */
  ghost predicate CheckOk(c: Cluster, d: Date, checkedAt: Time, j: nat) {
    InTime(c.log, d, checkedAt) ==> forall at :: MarkedAt(c.log, j, d, at) ==> checkedAt <= at
  }

  ghost predicate PendingOk(c: Cluster, i: InstanceId, j: nat) {
    i in c.instances && c.instances[i].phase.Locking? ==>
      CheckOk(c, c.instances[i].phase.date, c.instances[i].phase.checkedAt, j)
  }

  ghost predicate PairOk(c: Cluster, j: nat, k: nat) {
    k < |c.log| ==>
      && CheckOk(c, c.log[k].date, c.log[k].checkedAt, j)
      && (j < k && c.log[j].date == c.log[k].date ==> c.log[k].startedAt - c.log[j].startedAt >= LOCK_TTL_MS)
  }

  ghost predicate Guarded(c: Cluster) {
    && (forall j :: KeysOk(c, j))
    && (forall d :: MarkerOk(c, d))
    && (forall i, j :: PendingOk(c, i, j))
    && (forall j, k :: PairOk(c, j, k))
  }

  /** Steps that touch neither keys nor the log's dates, starts, checks and marks. */
  lemma QuietKeeps(c: Cluster, n: Cluster)
    requires Guarded(c) && n.locks == c.locks && n.done == c.done && |n.log| == |c.log|
    requires forall j | 0 <= j < |c.log| ::
      && n.log[j].date == c.log[j].date && n.log[j].startedAt == c.log[j].startedAt
      && n.log[j].checkedAt == c.log[j].checkedAt && n.log[j].markedAt == c.log[j].markedAt
    requires forall i :: i in n.instances && n.instances[i].phase.Locking? ==>
      i in c.instances && c.instances[i].phase == n.instances[i].phase
    ensures Guarded(n)
  {
    forall j, d, at ensures MarkedAt(n.log, j, d, at) <==> MarkedAt(c.log, j, d, at) { }
    SameMarks(c, n);
    forall j ensures KeysOk(n, j) { assert KeysOk(c, j); }
    forall i, j ensures PendingOk(n, i, j) { assert PendingOk(c, i, j); }
    forall j, k ensures PairOk(n, j, k) { assert PairOk(c, j, k); }
  }

  /** With the same marks in place, markers stay explained and checks stay as early. */
  lemma SameMarks(c: Cluster, n: Cluster)
    requires n.done == c.done && forall j, d, at :: MarkedAt(n.log, j, d, at) <==> MarkedAt(c.log, j, d, at)
    ensures forall d | MarkerOk(c, d) :: MarkerOk(n, d)
    ensures forall d, at, j | CheckOk(c, d, at, j) :: CheckOk(n, d, at, j)
  {
    hide MarkedAt;
    forall d | MarkerOk(c, d) ensures MarkerOk(n, d) {
      if d in c.done { var j :| MarkedAt(c.log, j, d, c.done[d] - DONE_TTL_MS); }
    }
  }

  lemma CheckedKeepsGuarded(c: Cluster, holidays: seq<Time>, i: InstanceId)
    requires Guarded(c) && Enabled(c, Checked(i, false))
    ensures Guarded(Step(c, holidays, Checked(i, false)))
  {
    var n := Step(c, holidays, Checked(i, false));
    var d := c.instances[i].phase.date;
    SameMarks(c, n);
    forall j ensures KeysOk(n, j) { assert KeysOk(c, j); }
    forall x ensures MarkerOk(n, x) { assert MarkerOk(c, x); }
    forall j | !Held(c.done, d, c.now) ensures CheckOk(c, d, c.now, j) { UnheldIsUnmarked(c, d, j); }
    forall x, j ensures PendingOk(n, x, j) { assert PendingOk(c, x, j); }
    forall j, k ensures PairOk(n, j, k) { assert PairOk(c, j, k); }
  }

  /** A check that finds no marker is not in time, or there was none yet. */
  lemma UnheldIsUnmarked(c: Cluster, d: Date, j: nat)
    requires Guarded(c) && !Held(c.done, d, c.now)
    ensures CheckOk(c, d, c.now, j)
  {
    assert KeysOk(c, j) && MarkerOk(c, d);
    if d in c.done {
      var first :| MarkedAt(c.log, first, d, c.done[d] - DONE_TTL_MS);
    }
  }

  lemma LockedKeepsGuarded(c: Cluster, i: InstanceId)
    requires Guarded(c) && Enabled(c, Locked(i, false))
    ensures Guarded(LockStep(c, i, false))
  {
    var n := LockStep(c, i, false);
    forall j, d, at ensures MarkedAt(n.log, j, d, at) <==> MarkedAt(c.log, j, d, at) { }
    SameMarks(c, n);
    forall j ensures KeysOk(n, j) { assert KeysOk(c, j); }
    forall x ensures MarkerOk(n, x) { assert MarkerOk(c, x); }
    forall x, j ensures PendingOk(n, x, j) { assert PendingOk(c, x, j); }
    forall j, k ensures PairOk(n, j, k) { assert PairOk(c, j, k) && PendingOk(c, i, j) && KeysOk(c, j); }
  }

  lemma MarkedKeepsGuarded(c: Cluster, holidays: seq<Time>, i: InstanceId)
    requires Sound(c) && Guarded(c) && Enabled(c, Marked(i, false))
    ensures Guarded(Step(c, holidays, Marked(i, false)))
  {
    var n := Step(c, holidays, Marked(i, false));
    var run := c.instances[i].phase.run;
    assert InstanceOk(c, i);
    forall j, d, at ensures MarkedAt(n.log, j, d, at) <==>
      MarkedAt(c.log, j, d, at) || (j == run && d == c.log[run].date && at == c.now) { }
    OneMoreMark(c, n, run);
    forall j ensures KeysOk(n, j) { assert KeysOk(c, j); }
    forall x, j ensures PendingOk(n, x, j) { assert PendingOk(c, x, j) && InstanceOk(c, x); }
    forall j, k ensures PairOk(n, j, k) { assert PairOk(c, j, k) && RunOk(c, k); }
  }

  /** One run's mark added: markers stay explained, and checks already made stay early. */
  lemma OneMoreMark(c: Cluster, n: Cluster, run: nat)
    requires run < |c.log| && n.done == SetIfAbsent(c.done, c.log[run].date, c.now, DONE_TTL_MS)
    requires forall j, d, at :: MarkedAt(n.log, j, d, at) <==>
      MarkedAt(c.log, j, d, at) || (j == run && d == c.log[run].date && at == c.now)
    ensures forall d | MarkerOk(c, d) :: MarkerOk(n, d)
    ensures forall d, at, j | CheckOk(c, d, at, j) && at <= c.now :: CheckOk(n, d, at, j)
  {
    hide MarkedAt;
    assert MarkedAt(n.log, run, c.log[run].date, c.now);
    forall d | MarkerOk(c, d) ensures MarkerOk(n, d) {
      if d in c.done { var j :| MarkedAt(c.log, j, d, c.done[d] - DONE_TTL_MS); }
    }
  }

  lemma StepKeepsGuarded(c: Cluster, holidays: seq<Time>, e: Event)
    requires Sound(c) && Guarded(c) && Enabled(c, e) && !Fails(e)
    ensures Guarded(Step(c, holidays, e))
  {
    match e
    case Checked(i, _) => CheckedKeepsGuarded(c, holidays, i);
    case Locked(i, _) => LockedKeepsGuarded(c, i);
    case Marked(i, _) => MarkedKeepsGuarded(c, holidays, i);
    case _ => QuietKeeps(c, Step(c, holidays, e));
  }

  lemma {:induction false} RunsAreGuarded(states: seq<Cluster>, holidays: seq<Time>, events: seq<Event>, n: nat)
    requires IsRun(states, holidays, events) && RedisWorks(events) && n <= |events|
    ensures Guarded(states[n])
  {
    if n > 0 {
      RunsAreGuarded(states, holidays, events, n - 1);
      RunsAreSound(states, holidays, events, n - 1);
      StepKeepsGuarded(states[n - 1], holidays, events[n - 1]);
    }
  }

  // ------------------------------------------------------------------ main results

  /** Main result: whatever Redis does, the runs of one instance never overlap. */
  lemma InstanceRunsNeverOverlap(states: seq<Cluster>, holidays: seq<Time>, events: seq<Event>, n: nat, j: nat, k: nat)
    requires IsRun(states, holidays, events) && n <= |events| && j < k < |states[n].log|
    requires states[n].log[j].instance == states[n].log[k].instance
    ensures var log := states[n].log; log[j].endedAt.Some? && log[j].endedAt.value <= log[k].startedAt
  {
    RunsAreSound(states, holidays, events, n);
    assert Serial(states[n], j, k);
  }

  /** A tick while its instance is suspended changes nothing. */
  lemma TickDuringRunDoesNothing(states: seq<Cluster>, holidays: seq<Time>, events: seq<Event>, n: nat, i: InstanceId)
    requires IsRun(states, holidays, events) && n <= |events| && i in states[n].instances
    requires states[n].instances[i].phase != Resting
    ensures Step(states[n], holidays, Tick(i)) == states[n]
  {
    RunsAreSound(states, holidays, events, n);
    assert InstanceOk(states[n], i);
    assert states[n].instances[i := states[n].instances[i]] == states[n].instances;
  }

  /** Main result: with a working Redis two runs for one date, on any instances, start at least the
      lock's lifetime apart, so runs no longer than that never overlap. */
  lemma LockKeepsRunsApart(states: seq<Cluster>, holidays: seq<Time>, events: seq<Event>, n: nat, j: nat, k: nat)
    requires IsRun(states, holidays, events) && RedisWorks(events) && n <= |events| && j < k < |states[n].log|
    requires states[n].log[j].date == states[n].log[k].date
    ensures var log := states[n].log;
      && log[k].startedAt - log[j].startedAt >= 7_200_000
      && (log[j].endedAt.Some? && log[j].endedAt.value - log[j].startedAt <= 7_200_000 ==>
            log[j].endedAt.value <= log[k].startedAt)
  {
    RunsAreGuarded(states, holidays, events, n);
    assert PairOk(states[n], j, k);
  }

  /** The marker was in place within r of the run's start. */
  predicate MarkedWithin(run: Run, r: int) {
    run.markedAt.Some? && run.markedAt.value - run.startedAt <= r
  }

  /** The lock came less than the given time after the completion check. */
  predicate LockedWithin(run: Run, gap: int) {
    run.startedAt - run.checkedAt < gap
  }

  /** Once a run is marked within r of its start, no run for that date follows whose completion check was
      answered before the marker expired and whose lock came less than the lock's lifetime minus r later. */
  lemma MarkedRunIsLast(states: seq<Cluster>, holidays: seq<Time>, events: seq<Event>, n: nat, j: nat, k: nat, r: int)
    requires IsRun(states, holidays, events) && RedisWorks(events) && n <= |events| && j < k < |states[n].log|
    requires states[n].log[j].date == states[n].log[k].date && MarkedWithin(states[n].log[j], r)
    ensures var log := states[n].log;
      !(LockedWithin(log[k], 7_200_000 - r) && InTime(log, log[k].date, log[k].checkedAt))
  {
    RunsAreGuarded(states, holidays, events, n);
    var log := states[n].log;
    assert PairOk(states[n], j, k) && MarkedAt(log, j, log[k].date, log[j].markedAt.value);
  }

  /** Main result: with a working Redis, when every successful run is marked within r of its start, and its
      completion check was answered before any marker of its date expired and less than the lock's
      lifetime minus r before its lock, a date has at most one successful run. */
  lemma AtMostOneSuccess(states: seq<Cluster>, holidays: seq<Time>, events: seq<Event>, n: nat, r: int, j: nat, k: nat)
    requires IsRun(states, holidays, events) && RedisWorks(events) && n <= |events|
    requires var log := states[n].log; forall run <- log :: run.succeeded ==>
      MarkedWithin(run, r) && LockedWithin(run, 7_200_000 - r) && InTime(log, run.date, run.checkedAt)
    requires j < |states[n].log| && k < |states[n].log| && states[n].log[j].date == states[n].log[k].date
    requires states[n].log[j].succeeded && states[n].log[k].succeeded
    ensures j == k
  {
    if j < k { MarkedRunIsLast(states, holidays, events, n, j, k, r); }
    if k < j { MarkedRunIsLast(states, holidays, events, n, k, j, r); }
  }

  predicate Leads(c: Cluster, e: Event, n: Cluster) {
    Enabled(c, e) && n == Step(c, [], e)
  }

  const T0 := DayStart(1) + DAILY_PROCESSOR_IST_MINUTES * MINUTE_MS

  function Asking(at: Time): Instance { Instance(None, 0, true, Checking(1, at)) }

  function Waiting(at: Time): Instance { Instance(None, 0, true, Locking(1, at, at)) }

  function Succeeded(i: InstanceId, tickAt: Time, startedAt: Time, endedAt: Time): Run {
    Run(i, 1, tickAt, tickAt, startedAt, Some(endedAt), true, Some(endedAt))
  }

  lemma EveningIsWindow(r: int)
    requires 0 <= r <= LOCK_TTL_MS
    ensures IstDay(T0 + r) == 1 && InWindow(T0 + r, [])
  {
  }

  /** The first instance ticks, checks and takes the lock. */
  lemma FirstStarts(r: int) returns (s: seq<Cluster>)
    requires 0 <= r <= LOCK_TTL_MS
    ensures |s| == 5 && s[0] == Cluster(T0, map[], map[], map[0 := STARTED, 1 := STARTED], [])
    ensures Leads(s[0], Tick(0), s[1]) && Leads(s[1], Checked(0, false), s[2])
    ensures Leads(s[2], Locked(0, false), s[3]) && Leads(s[3], Pass(T0 + r), s[4])
    ensures s[4] == Cluster(T0 + r, map[1 := T0 + LOCK_TTL_MS], map[],
                            map[0 := Instance(None, 0, true, Running(1, T0, 0)), 1 := STARTED],
                            [Run(0, 1, T0, T0, T0, None, false, None)])
  {
    EveningIsWindow(0);
    var s0 := Cluster(T0, map[], map[], map[0 := STARTED, 1 := STARTED], []);
    var s1 := Step(s0, [], Tick(0));
    var s2 := Step(s1, [], Checked(0, false));
    var s3 := Step(s2, [], Locked(0, false));
    var s4 := Step(s3, [], Pass(T0 + r));
    s := [s0, s1, s2, s3, s4];
  }

  /** r later the second ticks and checks, and only then the first ends and marks. */
  lemma SecondChecks(c: Cluster, r: int) returns (s: seq<Cluster>)
    requires 0 <= r <= LOCK_TTL_MS
    requires c == Cluster(T0 + r, map[1 := T0 + LOCK_TTL_MS], map[],
                          map[0 := Instance(None, 0, true, Running(1, T0, 0)), 1 := STARTED],
                          [Run(0, 1, T0, T0, T0, None, false, None)])
    ensures |s| == 4 && Leads(c, Tick(1), s[0]) && Leads(s[0], Checked(1, false), s[1])
    ensures Leads(s[1], RunEnded(0, true), s[2]) && Leads(s[2], Marked(0, false), s[3])
    ensures s[3] == Cluster(T0 + r, map[1 := T0 + LOCK_TTL_MS], map[1 := T0 + r + DONE_TTL_MS],
                            map[0 := Instance(Some(1), 0, false, Resting), 1 := Waiting(T0 + r)],
                            [Succeeded(0, T0, T0, T0 + r)])
  {
    EveningIsWindow(r);
    var s1 := Step(c, [], Tick(1));
    var s2 := Step(s1, [], Checked(1, false));
    var s3 := Step(s2, [], RunEnded(0, true));
    var s4 := Step(s3, [], Marked(0, false));
    s := [s1, s2, s3, s4];
  }

  /** The second's lock command reaches Redis just as the lock expires. */
  lemma SecondSucceeds(c: Cluster, r: int) returns (s: seq<Cluster>)
    requires 0 <= r <= LOCK_TTL_MS
    requires c == Cluster(T0 + r, map[1 := T0 + LOCK_TTL_MS], map[1 := T0 + r + DONE_TTL_MS],
                          map[0 := Instance(Some(1), 0, false, Resting), 1 := Waiting(T0 + r)],
                          [Succeeded(0, T0, T0, T0 + r)])
    ensures |s| == 4 && Leads(c, Pass(T0 + LOCK_TTL_MS), s[0]) && Leads(s[0], Locked(1, false), s[1])
    ensures Leads(s[1], RunEnded(1, true), s[2]) && Leads(s[2], Marked(1, false), s[3])
    ensures s[3].log == [Succeeded(0, T0, T0, T0 + r), Succeeded(1, T0 + r, T0 + LOCK_TTL_MS, T0 + LOCK_TTL_MS)]
  {
    var s1 := Step(c, [], Pass(T0 + LOCK_TTL_MS));
    var s2 := Step(s1, [], Locked(1, false));
    var s3 := Step(s2, [], RunEnded(1, true));
    var s4 := Step(s3, [], Marked(1, false));
    s := [s1, s2, s3, s4];
  }

  /** The bound of `AtMostOneSuccess` is sharp for every r: there is a run with a working Redis in which both
      successes of a date are marked within r and the second lock comes exactly lifetime - r after its check,
      answered in the same millisecond as, but before, the first one's marker. */
  lemma EqualGapRunsTwice(r: int) returns (states: seq<Cluster>, events: seq<Event>)
    requires 0 <= r <= LOCK_TTL_MS
    ensures |events| == 12 && IsRun(states, [], events) && RedisWorks(events)
    ensures var log := states[12].log;
      && |log| == 2 && log[0].date == log[1].date && log[0].succeeded && log[1].succeeded
      && (forall run <- log :: MarkedWithin(run, r) && InTime(log, run.date, run.checkedAt))
      && log[1].startedAt - log[1].checkedAt == 7_200_000 - r
  {
    hide Step, Enabled;
    var first := FirstStarts(r);
    var second := SecondChecks(first[4], r);
    var third := SecondSucceeds(second[3], r);
    states := first + second + third;
    events := [Tick(0), Checked(0, false), Locked(0, false), Pass(T0 + r),
               Tick(1), Checked(1, false), RunEnded(0, true), Marked(0, false),
               Pass(T0 + LOCK_TTL_MS), Locked(1, false), RunEnded(1, true), Marked(1, false)];
    forall n | 0 <= n < 12 ensures Leads(states[n], events[n], states[n + 1]) {}
  }

  /** The second ticks as early as the first, which then does everything at once. */
  lemma FirstDoesItAll() returns (s: seq<Cluster>)
    ensures |s| == 7 && s[0] == Cluster(T0, map[], map[], map[0 := STARTED, 1 := STARTED], [])
    ensures Leads(s[0], Tick(1), s[1]) && Leads(s[1], Tick(0), s[2]) && Leads(s[2], Checked(0, false), s[3])
    ensures Leads(s[3], Locked(0, false), s[4]) && Leads(s[4], RunEnded(0, true), s[5])
    ensures Leads(s[5], Marked(0, false), s[6])
    ensures s[6] == Cluster(T0, map[1 := T0 + LOCK_TTL_MS], map[1 := T0 + DONE_TTL_MS],
                            map[0 := Instance(Some(1), 0, false, Resting), 1 := Asking(T0)],
                            [Succeeded(0, T0, T0, T0)])
  {
    EveningIsWindow(0);
    var s0 := Cluster(T0, map[], map[], map[0 := STARTED, 1 := STARTED], []);
    var s1 := Step(s0, [], Tick(1));
    var s2 := Step(s1, [], Tick(0));
    var s3 := Step(s2, [], Checked(0, false));
    var s4 := Step(s3, [], Locked(0, false));
    var s5 := Step(s4, [], RunEnded(0, true));
    var s6 := Step(s5, [], Marked(0, false));
    s := [s0, s1, s2, s3, s4, s5, s6];
  }

  /** The second's check reaches Redis just as the marker expires. */
  lemma CheckedTooLate(c: Cluster) returns (s: seq<Cluster>)
    requires c == Cluster(T0, map[1 := T0 + LOCK_TTL_MS], map[1 := T0 + DONE_TTL_MS],
                          map[0 := Instance(Some(1), 0, false, Resting), 1 := Asking(T0)],
                          [Succeeded(0, T0, T0, T0)])
    ensures |s| == 5 && Leads(c, Pass(T0 + DONE_TTL_MS), s[0]) && Leads(s[0], Checked(1, false), s[1])
    ensures Leads(s[1], Locked(1, false), s[2]) && Leads(s[2], RunEnded(1, true), s[3])
    ensures Leads(s[3], Marked(1, false), s[4])
    ensures var late := T0 + DONE_TTL_MS;
      s[4].log == [Succeeded(0, T0, T0, T0), Run(1, 1, T0, late, late, Some(late), true, Some(late))]
  {
    var s1 := Step(c, [], Pass(T0 + DONE_TTL_MS));
    var s2 := Step(s1, [], Checked(1, false));
    var s3 := Step(s2, [], Locked(1, false));
    var s4 := Step(s3, [], RunEnded(1, true));
    var s5 := Step(s4, [], Marked(1, false));
    s := [s1, s2, s3, s4, s5];
  }

  /** The other bound is sharp too: a run with a working Redis in which a date succeeds twice although its
      second lock comes with its check, answered exactly when the first one's marker expires. */
  lemma LateCheckRunsTwice() returns (states: seq<Cluster>, events: seq<Event>)
    ensures |events| == 11 && IsRun(states, [], events) && RedisWorks(events)
    ensures var log := states[11].log;
      && |log| == 2 && log[0].date == log[1].date && log[0].succeeded && log[1].succeeded
      && (forall run <- log :: MarkedWithin(run, 0) && LockedWithin(run, 1))
      && log[0].markedAt == Some(log[1].checkedAt - 172_800_000)
  {
    hide Step, Enabled;
    var first := FirstDoesItAll();
    var second := CheckedTooLate(first[6]);
    states := first + second;
    events := [Tick(1), Tick(0), Checked(0, false), Locked(0, false), RunEnded(0, true), Marked(0, false),
               Pass(T0 + DONE_TTL_MS), Checked(1, false), Locked(1, false), RunEnded(1, true),
               Marked(1, false)];
    forall n | 0 <= n < 11 ensures Leads(states[n], events[n], states[n + 1]) {}
  }

  // ------------------------------------------------------------------ without Redis

  ghost predicate NoCrash(events: seq<Event>) {
    forall n | 0 <= n < |events| :: !events[n].Crash?
  }

  /** What the in-process date check knows: the last completed date is not in the future and precedes the
      date of a tick under way. */
  ghost predicate DateOk(c: Cluster, i: InstanceId) {
    i in c.instances && c.instances[i].completed.Some? ==>
      var d, p := c.instances[i].completed.value, c.instances[i].phase;
      && d <= IstDay(c.now)
      && (p.Checking? || p.Locking? || p.Running? ==> d < p.date)
  }

  /** A successful run's date is recorded in its instance; the dates of an instance's runs increase after
      a success. */
  ghost predicate SuccessOk(c: Cluster, j: nat) {
    j < |c.log| && c.log[j].succeeded ==>
      && c.log[j].instance in c.instances
      && c.instances[c.log[j].instance].completed.Some?
      && c.log[j].date <= c.instances[c.log[j].instance].completed.value
  }

  ghost predicate Ascends(c: Cluster, j: nat, k: nat) {
    j < k < |c.log| && c.log[j].instance == c.log[k].instance && c.log[j].succeeded ==> c.log[j].date < c.log[k].date
  }

  ghost predicate Local(c: Cluster) {
    && (forall i :: DateOk(c, i))
    && (forall j :: SuccessOk(c, j))
    && (forall j, k :: Ascends(c, j, k))
  }

  lemma DatesMonotone(a: Time, b: Time)
    requires a <= b
    ensures IstDay(a) <= IstDay(b)
  {
  }

  /** Steps that leave the log's dates, instances and outcomes alone and only advance completed dates. */
  lemma QuietKeepsLocal(c: Cluster, n: Cluster)
    requires Local(c) && |n.log| >= |c.log|
    requires forall j | 0 <= j < |c.log| :: n.log[j] == c.log[j].(markedAt := n.log[j].markedAt)
    requires forall j | |c.log| <= j < |n.log| :: !n.log[j].succeeded
    requires forall i :: DateOk(n, i)
    requires forall i :: i in c.instances && c.instances[i].completed.Some? ==>
      && i in n.instances && n.instances[i].completed.Some?
      && c.instances[i].completed.value <= n.instances[i].completed.value
    requires forall j, k | 0 <= j < |c.log| <= k < |n.log| :: Ascends(n, j, k)
    ensures Local(n)
  {
    forall j ensures SuccessOk(n, j) { assert SuccessOk(c, j); }
    forall j, k ensures Ascends(n, j, k) { assert Ascends(c, j, k); }
  }

  lemma PassKeepsLocal(c: Cluster, to: Time)
    requires Local(c) && c.now <= to
    ensures Local(c.(now := to))
  {
    DatesMonotone(c.now, to);
    forall x ensures DateOk(c.(now := to), x) { assert DateOk(c, x); }
    QuietKeepsLocal(c, c.(now := to));
  }

  lemma InstanceKeepsLocal(c: Cluster, holidays: seq<Time>, e: Event)
    requires Sound(c) && Local(c) && Enabled(c, e) && (e.Tick? || e.Checked? || e.Marked?)
    ensures Local(Step(c, holidays, e))
  {
    var n := Step(c, holidays, e);
    PhaseDate(c, e.instance);
    forall x ensures DateOk(n, x) { assert DateOk(c, x) && InstanceOk(c, x); }
    assert DateOk(c, e.instance);
    QuietKeepsLocal(c, n);
  }

  lemma LockedKeepsLocal(c: Cluster, i: InstanceId, fails: bool)
    requires Sound(c) && Local(c) && Enabled(c, Locked(i, fails))
    ensures Local(LockStep(c, i, fails))
  {
    var n := LockStep(c, i, fails);
    forall x ensures DateOk(n, x) { assert DateOk(c, x); }
    forall j, k | 0 <= j < |c.log| <= k < |n.log| ensures Ascends(n, j, k) {
      assert SuccessOk(c, j) && DateOk(c, i);
    }
    QuietKeepsLocal(c, n);
  }

  lemma EndedKeepsLocal(c: Cluster, holidays: seq<Time>, i: InstanceId, ok: bool)
    requires Sound(c) && Local(c) && Enabled(c, RunEnded(i, ok))
    ensures Local(Step(c, holidays, RunEnded(i, ok)))
  {
    var n := Step(c, holidays, RunEnded(i, ok));
    var run := c.instances[i].phase.run;
    PhaseDate(c, i);
    assert InstanceOk(c, i) && DateOk(c, i);
    forall x ensures DateOk(n, x) { assert DateOk(c, x); }
    forall j ensures SuccessOk(n, j) { assert SuccessOk(c, j); }
    forall j, k ensures Ascends(n, j, k) { assert Ascends(c, j, k) && Serial(c, run, k); }
  }

  lemma StepKeepsLocal(c: Cluster, holidays: seq<Time>, e: Event)
    requires Sound(c) && Local(c) && Enabled(c, e) && !e.Crash?
    ensures Local(Step(c, holidays, e))
  {
    hide Sound, Local;
    match e
    case Pass(to) => PassKeepsLocal(c, to);
    case Locked(i, fails) => LockedKeepsLocal(c, i, fails);
    case RunEnded(i, ok) => EndedKeepsLocal(c, holidays, i, ok);
    case _ => InstanceKeepsLocal(c, holidays, e);
  }

  /** The date of a suspended tick is not in the future. */
  lemma PhaseDate(c: Cluster, i: InstanceId)
    requires Sound(c) && i in c.instances
    ensures var p := c.instances[i].phase;
      p.Checking? || p.Locking? || p.Running? ==> p.date <= IstDay(c.now)
  {
    assert InstanceOk(c, i);
    var p := c.instances[i].phase;
    match p
    case Checking(_, tickAt) => DatesMonotone(tickAt, c.now);
    case Locking(_, tickAt, _) => DatesMonotone(tickAt, c.now);
    case Running(_, _, run) =>
      assert RunOk(c, run);
      DatesMonotone(c.log[run].tickAt, c.now);
    case _ =>
  }

  lemma {:induction false} RunsAreLocal(states: seq<Cluster>, holidays: seq<Time>, events: seq<Event>, n: nat)
    requires IsRun(states, holidays, events) && NoCrash(events) && n <= |events|
    ensures Local(states[n])
  {
    if n > 0 {
      RunsAreLocal(states, holidays, events, n - 1);
      RunsAreSound(states, holidays, events, n - 1);
      StepKeepsLocal(states[n - 1], holidays, events[n - 1]);
    }
  }

  /** A run that failed keeps its instance from starting another for the lock's lifetime. */
  ghost predicate FailureOk(c: Cluster, j: nat) {
    j < |c.log| && c.log[j].endedAt.Some? && !c.log[j].succeeded ==>
      && c.log[j].instance in c.instances
      && c.log[j].tickAt + LOCK_TTL_MS <= c.instances[c.log[j].instance].retryNotBefore
  }

  ghost predicate LaterOk(c: Cluster, j: nat, k: nat) {
    j < k < |c.log| && c.log[j].instance == c.log[k].instance && c.log[j].endedAt.Some? && !c.log[j].succeeded ==>
      c.log[j].tickAt + LOCK_TTL_MS <= c.log[k].tickAt
  }

  /** A tick under way began no earlier than its instance was to retry. */
  ghost predicate PatientOk(c: Cluster, i: InstanceId) {
    i in c.instances ==>
      var p := c.instances[i].phase;
      && (p.Checking? || p.Locking? ==> c.instances[i].retryNotBefore <= p.tickAt)
      && (p.Running? ==> p.run < |c.log| ==> c.log[p.run].tickAt == p.tickAt)
  }

  ghost predicate Patient(c: Cluster) {
    && (forall j :: FailureOk(c, j))
    && (forall j, k :: LaterOk(c, j, k))
    && (forall i :: PatientOk(c, i))
  }

  lemma PatientStep(c: Cluster, holidays: seq<Time>, e: Event)
    requires Sound(c) && Patient(c) && Enabled(c, e) && !e.Crash?
    ensures Patient(Step(c, holidays, e))
  {
    match e
    case Locked(i, fails) => PatientLock(c, i, fails);
    case RunEnded(i, ok) => PatientEnd(c, holidays, i, ok);
    case Pass(to) => PatientElse(c, c.(now := to));
    case Tick(i) =>
      assert PatientOk(c, i) && InstanceOk(c, i);
      PatientElse(c, Step(c, holidays, e));
    case Checked(i, _) =>
      assert PatientOk(c, i);
      PatientElse(c, Step(c, holidays, e));
    case Marked(i, _) => PatientElse(c, Step(c, holidays, e));
  }

  /** Steps that keep the log's instances, outcomes and ticks, and the times to retry. */
  lemma PatientElse(c: Cluster, n: Cluster)
    requires Patient(c) && |n.log| == |c.log| && n.instances.Keys == c.instances.Keys
    requires forall j | 0 <= j < |c.log| :: n.log[j] == c.log[j].(markedAt := n.log[j].markedAt)
    requires forall i <- c.instances :: n.instances[i].retryNotBefore == c.instances[i].retryNotBefore
    requires forall i <- c.instances | n.instances[i].phase != c.instances[i].phase :: PatientOk(n, i)
    ensures Patient(n)
  {
    forall j ensures FailureOk(n, j) { assert FailureOk(c, j); }
    forall j, k ensures LaterOk(n, j, k) { assert LaterOk(c, j, k); }
    forall i ensures PatientOk(n, i) { assert PatientOk(c, i); }
  }

  lemma PatientLock(c: Cluster, i: InstanceId, fails: bool)
    requires Sound(c) && Patient(c) && Enabled(c, Locked(i, fails))
    ensures Patient(LockStep(c, i, fails))
  {
    var n := LockStep(c, i, fails);
    assert PatientOk(c, i);
    forall j ensures FailureOk(n, j) { assert FailureOk(c, j); }
    forall j, k ensures LaterOk(n, j, k) { assert LaterOk(c, j, k) && FailureOk(c, j); }
    forall x ensures PatientOk(n, x) { assert PatientOk(c, x) && InstanceOk(c, x); }
  }

  lemma PatientEnd(c: Cluster, holidays: seq<Time>, i: InstanceId, ok: bool)
    requires Sound(c) && Patient(c) && Enabled(c, RunEnded(i, ok))
    ensures Patient(Step(c, holidays, RunEnded(i, ok)))
  {
    var n, run := Step(c, holidays, RunEnded(i, ok)), c.instances[i].phase.run;
    assert PatientOk(c, i) && InstanceOk(c, i);
    forall j: nat ensures FailureOk(n, j) {
      assert FailureOk(c, j) && LaterOk(c, j, run);
      if j > run && j < |c.log| { assert Serial(c, run, j); }
    }
    forall j, k ensures LaterOk(n, j, k) { assert LaterOk(c, j, k) && Serial(c, run, k); }
    forall x ensures PatientOk(n, x) { assert PatientOk(c, x); }
  }

  /** Main result: after a failed run an instance that does not crash waits the lock's lifetime, from the tick that
      ran it, before any tick of it runs again, even with Redis failing at any point. */
  lemma FailedRunsWait(states: seq<Cluster>, holidays: seq<Time>, events: seq<Event>, n: nat, j: nat, k: nat)
    requires IsRun(states, holidays, events) && NoCrash(events) && n <= |events| && j < k < |states[n].log|
    requires states[n].log[j].instance == states[n].log[k].instance && !states[n].log[j].succeeded
    ensures states[n].log[j].tickAt + 7_200_000 <= states[n].log[k].tickAt
  {
    RunsArePatient(states, holidays, events, n);
    InstanceRunsNeverOverlap(states, holidays, events, n, j, k);
    assert LaterOk(states[n], j, k);
  }

  lemma {:induction false} RunsArePatient(states: seq<Cluster>, holidays: seq<Time>, events: seq<Event>, n: nat)
    requires IsRun(states, holidays, events) && NoCrash(events) && n <= |events|
    ensures Patient(states[n])
  {
    if n > 0 {
      hide Step, Patient;
      RunsArePatient(states, holidays, events, n - 1);
      RunsAreSound(states, holidays, events, n - 1);
      PatientStep(states[n - 1], holidays, events[n - 1]);
    }
  }

  /** Main result: even with Redis failing at any point, an instance that does not crash never runs a date
      again once its run for that date succeeded. */
  lemma NoRepeatInProcess(states: seq<Cluster>, holidays: seq<Time>, events: seq<Event>, n: nat, j: nat, k: nat)
    requires IsRun(states, holidays, events) && NoCrash(events) && n <= |events| && j < k < |states[n].log|
    requires states[n].log[j].instance == states[n].log[k].instance && states[n].log[j].succeeded
    ensures states[n].log[j].date < states[n].log[k].date
  {
    RunsAreLocal(states, holidays, events, n);
    assert Ascends(states[n], j, k);
  }
}
