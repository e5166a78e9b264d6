/** The shared paper-trading stream, src/lib/paper-stream-manager.ts.

    `Manager` is the manager's own state together with the world it talks to: every connection
    attempt it ever made, the aborted ones, the armed timers and the session lookups that are
    still waiting for a token.  The environment may answer, deliver, fail or fire any of them,
    in any order. */
module PaperStream {
  import opened Basics

  type Subscriber = nat
  type Token = string
  type Id = nat

  /** A connection attempt asks for a token, then streams until it reports an error. */
  datatype Phase = AwaitingToken | Live | Ended

  datatype TimerKind = Retry | IdleClose

  datatype StreamEvent = Connected | OutboxEvent | OtherEvent

  /** `subscribers` maps each subscriber to the status last reported to it. */
  datatype Manager = Manager(
    subscribers: map<Subscriber, bool>,
    controller: Option<Id>,
    cancelRetry: Option<Id>,
    cancelIdleClose: Option<Id>,
    failures: nat,
    connected: bool,
    token: Option<Token>,
    watching: bool,
    attempts: map<Id, Phase>,
    aborted: set<Id>,
    armed: map<Id, TimerKind>,
    lookups: set<Id>,
    nextId: Id)

  const FRESH := Manager(map[], None, None, None, 0, false, None, false, map[], {}, map[], {}, 0)

  datatype Event =
    | Subscribe(subscriber: Subscriber)
    | Unsubscribe(subscriber: Subscriber)
    | TokenArrived(attempt: Id, token: Option<Token>)
    | StreamEvent(attempt: Id, event: StreamEvent)
    | StreamFailed(attempt: Id)
    | TimerFired(timer: Id)
    | SessionChanged
    | LookupDone(lookup: Id, token: Option<Token>)

  // ------------------------------------------------------------------ the manager's steps

  function Disarm(m: Manager, timer: Option<Id>): Manager {
    if timer.Some? then m.(armed := m.armed - {timer.value}) else m
  }

  function SetConnected(m: Manager, connected: bool): (n: Manager)
    ensures n.subscribers.Keys == m.subscribers.Keys && (n.subscribers == map[] <==> m.subscribers == map[])
  {
    if m.connected == connected then m
    else m.(connected := connected, subscribers := map s | s in m.subscribers :: connected)
  }

  function Open(m: Manager): Manager {
    m.(cancelRetry := None, controller := Some(m.nextId),
       attempts := m.attempts[m.nextId := AwaitingToken], nextId := m.nextId + 1)
  }

  function SubscribeStep(m: Manager, s: Subscriber): Manager {
    var m1 := m.(subscribers := m.subscribers[s := m.connected]);
    var m2 := Disarm(m1, m1.cancelIdleClose).(cancelIdleClose := None, watching := true);
    if m2.controller.None? && m2.cancelRetry.None? then Open(m2) else m2
  }

  function UnsubscribeStep(m: Manager, s: Subscriber): Manager {
    if s !in m.subscribers then m
    else
      var m1 := m.(subscribers := m.subscribers - {s});
      if m1.subscribers != map[] then m1
      else m1.(cancelIdleClose := Some(m1.nextId), armed := m1.armed[m1.nextId := IdleClose], nextId := m1.nextId + 1)
  }

  function PhaseOf(m: Manager, a: Id): Phase {
    if a in m.attempts then m.attempts[a] else Ended
  }

  /** An empty token is as good as none. */
  predicate SignedOut(token: Option<Token>) {
    token.None? || token.value == ""
  }

  function TokenStep(m: Manager, a: Id, token: Option<Token>): Manager {
    if a in m.aborted then m.(attempts := m.attempts[a := Ended])
    else if SignedOut(token) then
      SetConnected(m.(token := token, controller := None, attempts := m.attempts[a := Ended]), false)
    else m.(token := token, attempts := m.attempts[a := Live])
  }

  /** Outbox events refresh the subscribers' queries and leave the manager as it is. */
  function EventStep(m: Manager, a: Id, event: StreamEvent): Manager {
    if a in m.aborted then m
    else if event.Connected? then SetConnected(m.(failures := 0), true)
    else m
  }

  function FailStep(m: Manager, a: Id): Manager {
    var m0 := m.(attempts := m.attempts[a := Ended]);
    if a in m.aborted then m0
    else
      var m1 := SetConnected(m0.(controller := None), false);
      if m1.subscribers == map[] then m1
      else m1.(cancelRetry := Some(m1.nextId), armed := m1.armed[m1.nextId := Retry], nextId := m1.nextId + 1,
               failures := m1.failures + 1)
  }

  function Disconnect(m: Manager): Manager {
    var m1 := Disarm(m, m.cancelRetry);
    var m2 := m1.(cancelRetry := None, controller := None, failures := 0,
                  aborted := if m1.controller.Some? then m1.aborted + {m1.controller.value} else m1.aborted);
    SetConnected(m2, false)
  }

  function Close(m: Manager): Manager {
    Disconnect(m).(watching := false, token := None)
  }

  function TimerStep(m: Manager, t: Id): Manager
    requires t in m.armed
  {
    var m1 := m.(armed := m.armed - {t});
    match m.armed[t]
    case Retry => Open(m1)
    case IdleClose => Close(m1.(cancelIdleClose := None))
  }

  function SessionStep(m: Manager): Manager {
    if m.subscribers == map[] then m else m.(lookups := m.lookups + {m.nextId}, nextId := m.nextId + 1)
  }

  function LookupStep(m: Manager, l: Id, token: Option<Token>): Manager {
    var m1 := m.(lookups := m.lookups - {l});
    if token == m1.token || m1.subscribers == map[] then m1 else Open(Disconnect(m1))
  }

  /** What the world can do: answer an attempt that waits, deliver to or fail one that streams,
      fire an armed timer, report a session change while watched, answer a pending lookup. */
  predicate Enabled(m: Manager, e: Event) {
    match e
    case Subscribe(_) => true
    case Unsubscribe(_) => true
    case TokenArrived(a, _) => PhaseOf(m, a) == AwaitingToken
    case StreamEvent(a, _) => PhaseOf(m, a) == Live
    case StreamFailed(a) => PhaseOf(m, a) == Live
    case TimerFired(t) => t in m.armed
    case SessionChanged => m.watching
    case LookupDone(l, _) => l in m.lookups
  }

  function Step(m: Manager, e: Event): Manager
    requires Enabled(m, e)
  {
    match e
    case Subscribe(s) => SubscribeStep(m, s)
    case Unsubscribe(s) => UnsubscribeStep(m, s)
    case TokenArrived(a, token) => TokenStep(m, a, token)
    case StreamEvent(a, event) => EventStep(m, a, event)
    case StreamFailed(a) => FailStep(m, a)
    case TimerFired(t) => TimerStep(m, t)
    case SessionChanged => SessionStep(m)
    case LookupDone(l, token) => LookupStep(m, l, token)
  }

  ghost predicate IsRun(states: seq<Manager>, events: seq<Event>) {
    && |states| == |events| + 1 && states[0] == FRESH
    && forall i | 0 <= i < |events| :: Enabled(states[i], events[i]) && states[i + 1] == Step(states[i], events[i])
  }

  // ------------------------------------------------------------------ the invariant

  /** Not ended and not aborted: the attempt has, or may still get, a connection. */
  predicate Active(m: Manager, a: Id) {
    PhaseOf(m, a) != Ended && a !in m.aborted
  }

  ghost predicate AttemptOk(m: Manager, a: Id) {
    && (Active(m, a) <==> m.controller == Some(a))
    && (a >= m.nextId ==> a !in m.attempts && a !in m.aborted)
  }

  ghost predicate TimerOk(m: Manager, t: Id) {
    && (t in m.armed && m.armed[t].Retry? <==> m.cancelRetry == Some(t))
    && (t in m.armed && m.armed[t].IdleClose? <==> m.cancelIdleClose == Some(t))
    && (t >= m.nextId ==> t !in m.armed)
  }

  ghost predicate StatusOk(m: Manager, s: Subscriber) {
    s in m.subscribers ==> m.subscribers[s] == m.connected
  }

  /** A retry is only pending while there is no attempt; with subscribers no idle close is pending,
      session changes are watched, and an attempt or a retry is under way unless the last token
      was missing; without subscribers the idle close is pending or everything is closed. */
  ghost predicate Steady(m: Manager) {
    && (m.cancelRetry.Some? ==> m.controller.None?)
    && (m.connected ==> m.controller.Some? && PhaseOf(m, m.controller.value) == Live)
    && (m.subscribers != map[] ==>
          && m.cancelIdleClose.None? && m.watching
          && (m.controller.Some? || m.cancelRetry.Some? || SignedOut(m.token)))
    && (m.subscribers == map[] ==>
          m.cancelIdleClose.Some? || (m.controller.None? && m.cancelRetry.None? && !m.watching))
  }

  ghost predicate Safe(m: Manager) {
    && (forall a :: AttemptOk(m, a))
    && (forall t :: TimerOk(m, t))
    && (forall s :: StatusOk(m, s))
    && Steady(m)
  }

  lemma SubscribeKeeps(m: Manager, s: Subscriber)
    requires Safe(m)
    ensures Safe(SubscribeStep(m, s))
  {
    var m1 := m.(subscribers := m.subscribers[s := m.connected]);
    var m2 := Disarm(m1, m1.cancelIdleClose).(cancelIdleClose := None, watching := true);
    forall a ensures AttemptOk(m2, a) { assert AttemptOk(m, a); }
    forall t ensures TimerOk(m2, t) { assert TimerOk(m, t); }
    forall x ensures StatusOk(m2, x) { assert StatusOk(m, x); }
    assert s in m2.subscribers;
    if m2.controller.None? && m2.cancelRetry.None? {
      NewAttemptKeeps(m2);
    }
  }

  /** Opening from a state that is safe but for being idle. */
  lemma NewAttemptKeeps(m: Manager)
    requires (forall a :: AttemptOk(m, a)) && (forall t :: TimerOk(m, t)) && (forall s :: StatusOk(m, s))
    requires m.controller.None? && m.cancelRetry.None? && !m.connected
    requires m.subscribers != map[] ==> m.cancelIdleClose.None? && m.watching
    requires m.subscribers == map[] ==> m.cancelIdleClose.Some?
    ensures Safe(Open(m))
  {
    var n := Open(m);
    forall a ensures AttemptOk(n, a) { assert AttemptOk(m, a); }
    forall t ensures TimerOk(n, t) { assert TimerOk(m, t); }
    forall s ensures StatusOk(n, s) { assert StatusOk(m, s); }
  }

  lemma UnsubscribeKeeps(m: Manager, s: Subscriber)
    requires Safe(m)
    ensures Safe(UnsubscribeStep(m, s))
  {
    var n := UnsubscribeStep(m, s);
    forall a ensures AttemptOk(n, a) { assert AttemptOk(m, a); }
    forall t ensures TimerOk(n, t) { assert TimerOk(m, t) && TimerOk(m, m.nextId); }
    forall x ensures StatusOk(n, x) { assert StatusOk(m, x); }
  }

  lemma TokenKeeps(m: Manager, a: Id, token: Option<Token>)
    requires Safe(m) && PhaseOf(m, a) == AwaitingToken
    ensures Safe(TokenStep(m, a, token))
  {
    var n := TokenStep(m, a, token);
    assert AttemptOk(m, a);
    forall x ensures AttemptOk(n, x) { assert AttemptOk(m, x); }
    forall t ensures TimerOk(n, t) { assert TimerOk(m, t); }
    forall s ensures StatusOk(n, s) { assert StatusOk(m, s); }
  }

  lemma EventKeeps(m: Manager, a: Id, event: StreamEvent)
    requires Safe(m) && PhaseOf(m, a) == Live
    ensures Safe(EventStep(m, a, event))
  {
    var n := EventStep(m, a, event);
    assert AttemptOk(m, a);
    forall x ensures AttemptOk(n, x) { assert AttemptOk(m, x); }
    forall t ensures TimerOk(n, t) { assert TimerOk(m, t); }
    forall s ensures StatusOk(n, s) { assert StatusOk(m, s); }
  }

  lemma FailKeeps(m: Manager, a: Id)
    requires Safe(m) && PhaseOf(m, a) == Live
    ensures Safe(FailStep(m, a))
  {
    var n := FailStep(m, a);
    assert AttemptOk(m, a);
    forall x ensures AttemptOk(n, x) { assert AttemptOk(m, x); }
    forall t ensures TimerOk(n, t) { assert TimerOk(m, t) && TimerOk(m, m.nextId); }
    forall s ensures StatusOk(n, s) { assert StatusOk(m, s); }
  }

  /** Disconnecting leaves nothing under way; everything but that is as before. */
  lemma DisconnectKeeps(m: Manager)
    requires (forall a :: AttemptOk(m, a)) && (forall t :: TimerOk(m, t)) && (forall s :: StatusOk(m, s))
    ensures var n := Disconnect(m);
      && (forall a :: AttemptOk(n, a)) && (forall t :: TimerOk(n, t)) && (forall s :: StatusOk(n, s))
      && n.controller.None? && n.cancelRetry.None? && !n.connected
      && n.cancelIdleClose == m.cancelIdleClose && n.watching == m.watching && n.token == m.token
      && n.subscribers.Keys == m.subscribers.Keys
  {
    var n := Disconnect(m);
    DisconnectKeepsAttempts(m);
    DisconnectKeepsTimers(m);
    hide AttemptOk, TimerOk;
    forall s ensures StatusOk(n, s) { assert StatusOk(m, s); }
  }

  lemma DisconnectKeepsTimers(m: Manager)
    requires forall t :: TimerOk(m, t)
    ensures forall t :: TimerOk(Disconnect(m), t)
  {
    forall t ensures TimerOk(Disconnect(m), t) { assert TimerOk(m, t); }
  }

  lemma DisconnectKeepsAttempts(m: Manager)
    requires forall a :: AttemptOk(m, a)
    ensures forall a :: AttemptOk(Disconnect(m), a)
  {
    if m.controller.Some? { assert AttemptOk(m, m.controller.value); }
    forall a ensures AttemptOk(Disconnect(m), a) { assert AttemptOk(m, a); }
  }

  lemma TimerKeeps(m: Manager, t: Id)
    requires Safe(m) && t in m.armed
    ensures Safe(TimerStep(m, t))
  {
    assert TimerOk(m, t);
    var m1 := m.(armed := m.armed - {t});
    if m.armed[t].Retry? {
      var m2 := m1.(cancelRetry := None);
      forall a ensures AttemptOk(m2, a) { assert AttemptOk(m, a); }
      forall x ensures TimerOk(m2, x) { assert TimerOk(m, x); }
      forall s ensures StatusOk(m2, s) { assert StatusOk(m, s); }
      NewAttemptKeeps(m2);
      assert Open(m2) == Open(m1);
    } else {
      var m2 := m1.(cancelIdleClose := None);
      forall a ensures AttemptOk(m2, a) { assert AttemptOk(m, a); }
      forall x ensures TimerOk(m2, x) { assert TimerOk(m, x); }
      forall s ensures StatusOk(m2, s) { assert StatusOk(m, s); }
      DisconnectKeeps(m2);
      CloseKeeps(Disconnect(m2), Close(m2));
    }
  }

  /** Closing a disconnected manager without subscribers. */
  lemma CloseKeeps(m: Manager, n: Manager)
    requires (forall a :: AttemptOk(m, a)) && (forall t :: TimerOk(m, t)) && (forall s :: StatusOk(m, s))
    requires m.controller.None? && m.cancelRetry.None? && !m.connected && m.subscribers.Keys == {}
    requires n == m.(watching := false, token := None)
    ensures Safe(n)
  {
    forall a ensures AttemptOk(n, a) { assert AttemptOk(m, a); }
    forall x ensures TimerOk(n, x) { assert TimerOk(m, x); }
    forall s ensures StatusOk(n, s) { assert StatusOk(m, s); }
    assert m.subscribers == map[];
  }

  lemma SessionKeeps(m: Manager)
    requires Safe(m)
    ensures Safe(SessionStep(m))
  {
    var n := SessionStep(m);
    forall a ensures AttemptOk(n, a) { assert AttemptOk(m, a); }
    forall x ensures TimerOk(n, x) { assert TimerOk(m, x); }
    forall s ensures StatusOk(n, s) { assert StatusOk(m, s); }
  }

  lemma LookupKeeps(m: Manager, l: Id, token: Option<Token>)
    requires Safe(m)
    ensures Safe(LookupStep(m, l, token))
  {
    var m1 := m.(lookups := m.lookups - {l});
    forall a ensures AttemptOk(m1, a) { assert AttemptOk(m, a); }
    forall x ensures TimerOk(m1, x) { assert TimerOk(m, x); }
    forall s ensures StatusOk(m1, s) { assert StatusOk(m, s); }
    if !(token == m1.token || m1.subscribers == map[]) {
      DisconnectKeeps(m1);
      NewAttemptKeeps(Disconnect(m1));
    }
  }

  lemma StepKeeps(m: Manager, e: Event)
    requires Safe(m) && Enabled(m, e)
    ensures Safe(Step(m, e))
  {
    hide Safe;
    match e
    case Subscribe(s) => SubscribeKeeps(m, s);
    case Unsubscribe(s) => UnsubscribeKeeps(m, s);
    case TokenArrived(a, token) => TokenKeeps(m, a, token);
    case StreamEvent(a, event) => EventKeeps(m, a, event);
    case StreamFailed(a) => FailKeeps(m, a);
    case TimerFired(t) => TimerKeeps(m, t);
    case SessionChanged => SessionKeeps(m);
    case LookupDone(l, token) => LookupKeeps(m, l, token);
  }

  /** Every state of every run is safe. */
  lemma {:induction false} RunsAreSafe(states: seq<Manager>, events: seq<Event>, i: nat)
    requires IsRun(states, events) && i <= |events|
    ensures Safe(states[i])
  {
    if i == 0 {
      FreshIsSafe();
    } else {
      RunsAreSafe(states, events, i - 1);
      StepKeeps(states[i - 1], events[i - 1]);
    }
  }

  lemma FreshIsSafe()
    ensures Safe(FRESH)
  {
    forall a ensures AttemptOk(FRESH, a) {}
    forall t ensures TimerOk(FRESH, t) {}
  }

  /** Main result: in every state of every run there is at most one attempt that is neither ended nor
      aborted, so never two live connections; at most one retry is armed, and none beside an attempt. */
  lemma OneLiveConnection(states: seq<Manager>, events: seq<Event>, i: nat)
    requires IsRun(states, events) && i <= |events|
    ensures forall a, b :: Active(states[i], a) && Active(states[i], b) ==> a == b
    ensures forall s, t ::
      s in states[i].armed && t in states[i].armed && states[i].armed[s] == states[i].armed[t] ==> s == t
    ensures forall a, t :: Active(states[i], a) && t in states[i].armed ==> states[i].armed[t].IdleClose?
  {
    RunsAreSafe(states, events, i);
    var m := states[i];
    forall a, b | Active(m, a) && Active(m, b) ensures a == b { assert AttemptOk(m, a) && AttemptOk(m, b); }
    forall s, t | s in m.armed && t in m.armed && m.armed[s] == m.armed[t] ensures s == t {
      assert TimerOk(m, s) && TimerOk(m, t);
    }
    forall a, t | Active(m, a) && t in m.armed ensures m.armed[t].IdleClose? {
      assert AttemptOk(m, a) && TimerOk(m, t);
    }
  }

  /** Main result: while it has subscribers the manager is never idle, except that its last token was
      missing; and even then it watches the session and opens as soon as a lookup finds another token. */
  lemma NeverIdleWithSubscribers(states: seq<Manager>, events: seq<Event>, i: nat)
    requires IsRun(states, events) && i <= |events| && states[i].subscribers != map[]
    ensures var m := states[i];
      || (exists a :: Active(m, a))
      || (exists t :: t in m.armed && m.armed[t].Retry?)
      || ((m.token == None || m.token == Some("")) && m.watching &&
            forall l, token :: l in m.lookups && token != m.token ==> Active(LookupStep(m, l, token), m.nextId))
  {
    RunsAreSafe(states, events, i);
    var m := states[i];
    if m.controller.Some? {
      assert AttemptOk(m, m.controller.value);
    } else if m.cancelRetry.Some? {
      assert TimerOk(m, m.cancelRetry.value);
    } else {
      forall l, token | l in m.lookups && token != m.token ensures Active(LookupStep(m, l, token), m.nextId) {
        LookupKeeps(m, l, token);
        assert AttemptOk(LookupStep(m, l, token), m.nextId);
      }
    }
  }

  // ------------------------------------------------------------------ told from the events

  /** The server confirmed attempt a among the first k events. */
  ghost predicate Confirmed(events: seq<Event>, k: nat, a: Id)
    requires k <= |events|
  {
    k > 0 && (events[k - 1] == Event.StreamEvent(a, Connected) || Confirmed(events, k - 1, a))
  }

  /** s subscribed, and has not unsubscribed since. */
  ghost predicate Subscribed(events: seq<Event>, k: nat, s: Subscriber)
    requires k <= |events|
  {
    k > 0 && (events[k - 1] == Subscribe(s) || (events[k - 1] != Unsubscribe(s) && Subscribed(events, k - 1, s)))
  }

  /** The event makes the manager give up its connection: the idle close, or another token after a session change. */
  predicate Disconnects(m: Manager, e: Event) {
    match e
    case TimerFired(t) => t in m.armed && m.armed[t].IdleClose?
    case LookupDone(_, token) => token != m.token && m.subscribers != map[]
    case _ => false
  }

  /** The token last obtained by an attempt that was not aborted, none after an idle close. */
  ghost function LastToken(states: seq<Manager>, events: seq<Event>, k: nat): Option<Token>
    requires k <= |events| <= |states|
  {
    if k == 0 then None
    else
      var before, m := LastToken(states, events, k - 1), states[k - 1];
      match events[k - 1]
      case TokenArrived(a, token) => if a in m.aborted then before else token
      case TimerFired(t) => if Disconnects(m, events[k - 1]) then None else before
      case _ => before
  }

  /** How many connections in a row failed, with somebody listening, since one was last confirmed or given up. */
  ghost function FailuresInARow(states: seq<Manager>, events: seq<Event>, k: nat): nat
    requires k <= |events| <= |states|
  {
    if k == 0 then 0
    else
      var before, m := FailuresInARow(states, events, k - 1), states[k - 1];
      match events[k - 1]
      case StreamEvent(a, Connected) => if a in m.aborted then before else 0
      case StreamFailed(a) => if a in m.aborted || m.subscribers == map[] then before else before + 1
      case _ => if Disconnects(m, events[k - 1]) then 0 else before
  }

  /** Connected means the current attempt is confirmed. */
  ghost predicate ConnectedIf(m: Manager, a: Id, confirmed: bool) {
    && (confirmed ==> a in m.attempts && m.attempts[a] != AwaitingToken)
    && (m.controller == Some(a) ==> (m.connected <==> confirmed))
  }

  lemma ConnectedStep(m: Manager, e: Event, a: Id, confirmed: bool)
    requires Safe(m) && Enabled(m, e) && ConnectedIf(m, a, confirmed)
    ensures ConnectedIf(Step(m, e), a, confirmed || e == Event.StreamEvent(a, Connected))
  {
    hide Safe, Disconnect;
    AttemptsAre(m, a);
    match e
    case TokenArrived(b, _) => AttemptsAre(m, b);
    case StreamEvent(b, _) => AttemptsAre(m, b);
    case StreamFailed(b) => AttemptsAre(m, b);
    case TimerFired(t) =>
      TimersAre(m, t);
      DisconnectedIs(m.(armed := m.armed - {t}, cancelIdleClose := None));
    case LookupDone(l, _) => DisconnectedIs(m.(lookups := m.lookups - {l}));
    case _ =>
  }

  lemma AttemptsAre(m: Manager, a: Id)
    requires Safe(m)
    ensures Active(m, a) <==> m.controller == Some(a)
    ensures a >= m.nextId ==> a !in m.attempts && a !in m.aborted
    ensures m.controller.None? ==> !m.connected
  {
    assert AttemptOk(m, a);
  }

  lemma TimersAre(m: Manager, t: Id)
    requires Safe(m) && t in m.armed
    ensures m.armed[t].Retry? ==> m.controller.None? && !m.connected
    ensures m.armed[t].IdleClose? ==> m.subscribers == map[]
  {
    assert TimerOk(m, t);
  }

  lemma DisconnectedIs(m: Manager)
    ensures var n := Disconnect(m);
      && n.controller.None? && !n.connected && n.failures == 0 && n.token == m.token
      && n.attempts == m.attempts && n.nextId == m.nextId && n.lookups == m.lookups
      && n.subscribers.Keys == m.subscribers.Keys
  {
  }

  lemma TokenAfter(states: seq<Manager>, events: seq<Event>, k: nat)
    requires |states| == |events| + 1 && k < |events| && Enabled(states[k], events[k])
    requires states[k + 1] == Step(states[k], events[k]) && states[k].token == LastToken(states, events, k)
    ensures states[k + 1].token == LastToken(states, events, k + 1)
  {
    hide Disconnect, SetConnected;
    var m := states[k];
    match events[k]
    case TimerFired(t) => DisconnectedIs(m.(armed := m.armed - {t}, cancelIdleClose := None));
    case LookupDone(l, _) => DisconnectedIs(m.(lookups := m.lookups - {l}));
    case TokenArrived(a, token) =>
      SetConnectedIs(m.(token := token, controller := None, attempts := m.attempts[a := Ended]), false);
    case StreamEvent(_, _) => SetConnectedIs(m.(failures := 0), true);
    case StreamFailed(a) => SetConnectedIs(m.(attempts := m.attempts[a := Ended], controller := None), false);
    case _ =>
  }

  lemma SetConnectedIs(m: Manager, connected: bool)
    ensures var n := SetConnected(m, connected);
      n == m.(connected := connected, subscribers := n.subscribers) && n.subscribers.Keys == m.subscribers.Keys
  {
  }

  lemma FailuresAfter(states: seq<Manager>, events: seq<Event>, k: nat)
    requires |states| == |events| + 1 && k < |events| && Enabled(states[k], events[k])
    requires states[k + 1] == Step(states[k], events[k]) && states[k].failures == FailuresInARow(states, events, k)
    ensures states[k + 1].failures == FailuresInARow(states, events, k + 1)
  {
    hide Disconnect, SetConnected;
    var m := states[k];
    match events[k]
    case TimerFired(t) => DisconnectedIs(m.(armed := m.armed - {t}, cancelIdleClose := None));
    case LookupDone(l, _) => DisconnectedIs(m.(lookups := m.lookups - {l}));
    case TokenArrived(a, token) =>
      SetConnectedIs(m.(token := token, controller := None, attempts := m.attempts[a := Ended]), false);
    case StreamEvent(_, _) => SetConnectedIs(m.(failures := 0), true);
    case StreamFailed(a) => SetConnectedIs(m.(attempts := m.attempts[a := Ended], controller := None), false);
    case _ =>
  }

  lemma SubscribersStep(m: Manager, e: Event, s: Subscriber)
    requires Enabled(m, e)
    ensures s in Step(m, e).subscribers <==> e == Subscribe(s) || (e != Unsubscribe(s) && s in m.subscribers)
  {
    hide Disconnect;
    match e
    case TimerFired(t) => DisconnectedIs(m.(armed := m.armed - {t}, cancelIdleClose := None));
    case LookupDone(l, _) => DisconnectedIs(m.(lookups := m.lookups - {l}));
    case _ =>
  }

  /** Main result: in every state of every run the subscribers are those the events leave subscribed, the token
      is the last one obtained, the backoff counts the failures in a row, and the current attempt counts as
      connected exactly when the server confirmed it. */
  lemma {:induction false} HistoryTells(states: seq<Manager>, events: seq<Event>, k: nat, s: Subscriber, a: Id)
    requires IsRun(states, events) && k <= |events|
    ensures s in states[k].subscribers <==> Subscribed(events, k, s)
    ensures states[k].token == LastToken(states, events, k)
    ensures states[k].failures == FailuresInARow(states, events, k)
    ensures ConnectedIf(states[k], a, Confirmed(events, k, a))
  {
    hide Step, Enabled, ConnectedIf, LastToken, FailuresInARow, Safe;
    if k == 0 {
      NothingTold(states, events, a);
    } else {
      HistoryTells(states, events, k - 1, s, a);
      RunsAreSafe(states, events, k - 1);
      SubscribersStep(states[k - 1], events[k - 1], s);
      TokenAfter(states, events, k - 1);
      FailuresAfter(states, events, k - 1);
      ConnectedStep(states[k - 1], events[k - 1], a, Confirmed(events, k - 1, a));
    }
  }

  lemma NothingTold(states: seq<Manager>, events: seq<Event>, a: Id)
    requires |states| == |events| + 1 && states[0] == FRESH
    ensures LastToken(states, events, 0) == None && FailuresInARow(states, events, 0) == 0
    ensures ConnectedIf(states[0], a, false)
  {
  }

  /** Main result: every subscriber has been told the current status, and that is "connected" exactly while there
      is an active attempt the server has confirmed. */
  lemma StatusIsTruthful(states: seq<Manager>, events: seq<Event>, i: nat)
    requires IsRun(states, events) && i <= |events|
    ensures var m := states[i];
      && (forall s :: s in m.subscribers ==> m.subscribers[s] == m.connected)
      && (m.connected <==> exists a :: Active(m, a) && Confirmed(events, i, a))
      && (m.connected ==> m.controller.Some? && PhaseOf(m, m.controller.value) == Live)
  {
    RunsAreSafe(states, events, i);
    var m := states[i];
    forall s | s in m.subscribers ensures m.subscribers[s] == m.connected { assert StatusOk(m, s); }
    if m.controller.Some? {
      AttemptsAre(m, m.controller.value);
      HistoryTells(states, events, i, 0, m.controller.value);
    }
    forall a: Id | Active(m, a) ensures m.controller == Some(a) { AttemptsAre(m, a); }
  }

  /** Main result, what a token does: for the current attempt a non-empty one starts the stream, and without one
      the attempt is over, nothing retries and everybody is told "not connected"; either way it is kept.  An
      aborted attempt ends, whatever it gets. */
  lemma TokenDecides(states: seq<Manager>, events: seq<Event>, i: nat)
    requires IsRun(states, events) && i < |events| && events[i].TokenArrived?
    ensures var m, n, a, token := states[i], states[i + 1], events[i].attempt, events[i].token;
      if a in m.aborted then n == m.(attempts := m.attempts[a := Ended])
      else
        && m.controller == Some(a) && n.token == token && n.armed == m.armed
        && if token == None || token == Some("") then
             (forall b :: !Active(n, b)) && !n.connected && n.cancelRetry == None
           else n.controller == Some(a) && PhaseOf(n, a) == Live && n.connected == m.connected
  {
    RunsAreSafe(states, events, i);
    RunsAreSafe(states, events, i + 1);
    var m, n := states[i], states[i + 1];
    AttemptsAre(m, events[i].attempt);
    forall b: Id ensures Active(n, b) <==> n.controller == Some(b) { AttemptsAre(n, b); }
  }

  /** A session change with subscribers starts one lookup of the token, and nothing else does. */
  lemma OnlySessionChangesLookUp(states: seq<Manager>, events: seq<Event>, i: nat)
    requires IsRun(states, events) && i < |events|
    ensures var m, n := states[i], states[i + 1];
      if events[i].SessionChanged? && m.subscribers != map[] then n.lookups == m.lookups + {m.nextId}
      else n.lookups <= m.lookups
  {
    hide Disconnect;
    match events[i]
    case TimerFired(t) => DisconnectedIs(states[i].(armed := states[i].armed - {t}, cancelIdleClose := None));
    case LookupDone(l, _) => DisconnectedIs(states[i].(lookups := states[i].lookups - {l}));
    case _ =>
  }

  /** Main result: without subscribers either the idle close is armed, and its firing leaves no active
      attempt, no timer and no session watch, or that is already so. */
  lemma ClosesWhenUnused(states: seq<Manager>, events: seq<Event>, i: nat)
    requires IsRun(states, events) && i <= |events| && states[i].subscribers == map[]
    ensures Closed(states[i]) ||
      exists t :: t in states[i].armed && states[i].armed[t].IdleClose? && Closed(TimerStep(states[i], t))
  {
    RunsAreSafe(states, events, i);
    var m := states[i];
    if m.cancelIdleClose.Some? {
      var t := m.cancelIdleClose.value;
      assert TimerOk(m, t);
      TimerKeeps(m, t);
      NothingLeft(TimerStep(m, t));
    } else {
      NothingLeft(m);
    }
  }

  ghost predicate Closed(m: Manager) {
    (forall a :: !Active(m, a)) && m.armed == map[] && !m.watching && !m.connected
  }

  lemma NothingLeft(m: Manager)
    requires Safe(m) && m.controller.None? && m.cancelRetry.None? && m.cancelIdleClose.None? && !m.watching
    ensures Closed(m)
  {
    forall a ensures !Active(m, a) { assert AttemptOk(m, a); }
    forall t ensures t !in m.armed { assert TimerOk(m, t); }
  }

  /** What callers of the manager can observe. */
  function Visible(m: Manager): (map<Subscriber, bool>, Option<Id>, Option<Id>, Option<Id>, nat, bool,
                   Option<Token>, bool) {
    (m.subscribers, m.controller, m.cancelRetry, m.cancelIdleClose, m.failures, m.connected, m.token, m.watching)
  }

  /** Callbacks of an attempt that is not the current one change nothing. */
  lemma StaleCallbacksChangeNothing(states: seq<Manager>, events: seq<Event>, i: nat, e: Event)
    requires IsRun(states, events) && i <= |events| && Enabled(states[i], e)
    requires e.TokenArrived? || e.StreamEvent? || e.StreamFailed?
    requires states[i].controller != Some(e.attempt)
    ensures Visible(Step(states[i], e)) == Visible(states[i]) && Step(states[i], e).armed == states[i].armed
  {
    RunsAreSafe(states, events, i);
    assert AttemptOk(states[i], e.attempt);
  }
}
