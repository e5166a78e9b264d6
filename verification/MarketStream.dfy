/** The shared market-data stream, class MarketStreamManager of src/hooks/use-market-quotes.ts.

    `Manager` is the manager's own state together with the world it talks to: every event source it
    ever created, the armed timers, the status probes still waiting, and the URLs the server has
    answered 400 for.  The stream URL is any function of the subscriptions. */
module MarketStream {
  import opened Basics

  type Symbol = string
  type Callback = nat
  type Id = nat
  type Url = string

  /** Symbol to subscribed callbacks, each with its subscription order. */
  type Listeners = map<Symbol, map<Callback, nat>>

  type UrlOf = Listeners -> Url

  datatype ReadyState = CONNECTING | OPEN | CLOSED

  /** `wasOpen` is the handlers' own `opened` flag. */
  datatype Source = Source(url: Url, wasOpen: bool, readyState: ReadyState)

  /** Why a source reports an error.  On a network drop the browser is about to reconnect by itself, on a
      refused response it has given up: section 9.2 of the WHATWG HTML Standard. */
  datatype Cause = NetworkDrop | RefusedResponse

  function BrowserState(cause: Cause): ReadyState {
    match cause
    case NetworkDrop => CONNECTING
    case RefusedResponse => CLOSED
  }

  /** `statusListeners` maps each status callback to the status last reported to it. */
  datatype Manager = Manager(
    eventSource: Option<Id>,
    listeners: Listeners,
    nextSubscription: nat,
    rejectedUrl: Option<Url>,
    statusListeners: map<Callback, bool>,
    cancelReconnect: Option<Id>,
    failures: nat,
    isConnected: bool,
    sources: map<Id, Source>,
    armed: set<Id>,
    probes: map<Id, Url>,
    answered400: set<Url>,
    nextId: Id)

  const FRESH := Manager(None, map[], 0, None, map[], None, 0, false, map[], {}, map[], {}, 0)

  datatype Event =
    | Subscribe(symbols: seq<Symbol>, callback: Callback, onStatus: Callback)
    | Unsubscribe(symbols: seq<Symbol>, callback: Callback, onStatus: Callback)
    | TimerFired(timer: Id, constructs: bool)
    | Opened(source: Id)
    | Errored(source: Id, cause: Cause)
    | Probed(probe: Id, status: int)

  // ------------------------------------------------------------------ the manager's steps

  function AddListener(listeners: Listeners, symbol: Symbol, callback: Callback, order: nat): Listeners {
    var there := if symbol in listeners then listeners[symbol] else map[];
    listeners[symbol := there[callback := order]]
  }

  function AddListeners(listeners: Listeners, symbols: seq<Symbol>, callback: Callback, order: nat): Listeners
    decreases |symbols|
  {
    if symbols == [] then listeners
    else AddListeners(AddListener(listeners, symbols[0], callback, order), symbols[1..], callback, order)
  }

  function DropListener(listeners: Listeners, symbol: Symbol, callback: Callback): Listeners {
    if symbol !in listeners then listeners
    else
      var left := listeners[symbol] - {callback};
      if left == map[] then listeners - {symbol} else listeners[symbol := left]
  }

  function DropListeners(listeners: Listeners, symbols: seq<Symbol>, callback: Callback): Listeners
    decreases |symbols|
  {
    if symbols == [] then listeners
    else DropListeners(DropListener(listeners, symbols[0], callback), symbols[1..], callback)
  }

  function SetConnected(m: Manager, connected: bool): Manager {
    if m.isConnected == connected then m
    else m.(isConnected := connected, statusListeners := map s | s in m.statusListeners :: connected)
  }

  function Schedule(m: Manager): Manager {
    m.(armed := (if m.cancelReconnect.Some? then m.armed - {m.cancelReconnect.value} else m.armed) + {m.nextId},
       cancelReconnect := Some(m.nextId), nextId := m.nextId + 1)
  }

  function Backoff(m: Manager): Manager {
    Schedule(m.(failures := m.failures + 1))
  }

  function SubscriptionsChanged(m: Manager): Manager {
    if m.failures > 0 && m.cancelReconnect.Some? then m else Schedule(m)
  }

  function SubscribeStep(m: Manager, symbols: seq<Symbol>, callback: Callback, onStatus: Callback): Manager {
    SubscriptionsChanged(
      m.(listeners := AddListeners(m.listeners, symbols, callback, m.nextSubscription),
         nextSubscription := m.nextSubscription + 1,
         statusListeners := m.statusListeners[onStatus := m.isConnected]))
  }

  function UnsubscribeStep(m: Manager, symbols: seq<Symbol>, callback: Callback, onStatus: Callback): Manager {
    SubscriptionsChanged(
      m.(listeners := DropListeners(m.listeners, symbols, callback),
         statusListeners := m.statusListeners - {onStatus}))
  }

  function CloseSource(m: Manager, s: Id): Manager {
    if s in m.sources then m.(sources := m.sources[s := m.sources[s].(readyState := CLOSED)]) else m
  }

  function Release(m: Manager): Manager {
    if m.eventSource.Some? then CloseSource(m, m.eventSource.value).(eventSource := None) else m
  }

  /** `constructs` tells whether creating the event source succeeds. */
  function Reconnect(m: Manager, urlOf: UrlOf, constructs: bool): Manager {
    var m1 := Release(m);
    if m1.listeners == map[] then SetConnected(m1.(failures := 0), false)
    else
      var url := urlOf(m1.listeners);
      if m1.rejectedUrl == Some(url) then SetConnected(m1.(failures := 0), false)
      else if !constructs then Backoff(m1)
      else
        m1.(eventSource := Some(m1.nextId), sources := m1.sources[m1.nextId := Source(url, false, CONNECTING)],
            nextId := m1.nextId + 1)
  }

  function TimerStep(m: Manager, urlOf: UrlOf, t: Id, constructs: bool): Manager {
    Reconnect(m.(armed := m.armed - {t}, cancelReconnect := None), urlOf, constructs)
  }

  function OpenedStep(m: Manager, s: Id): Manager
    requires s in m.sources
  {
    SetConnected(m.(sources := m.sources[s := m.sources[s].(wasOpen := true, readyState := OPEN)], failures := 0), true)
  }

  /** The browser's part: it sets readyState before it reports the error. */
  function BrowserFails(m: Manager, s: Id, cause: Cause): Manager
    requires s in m.sources
  {
    m.(sources := m.sources[s := m.sources[s].(readyState := BrowserState(cause))])
  }

  /** The handler's part: it closes the source, and reads readyState only after that. */
  function HandleError(m: Manager, s: Id): Manager
    requires s in m.sources
  {
    var m1 := CloseSource(m, s);
    var m2 := SetConnected(m1.(eventSource := if m1.eventSource == Some(s) then None else m1.eventSource), false);
    var source := m2.sources[s];
    if !source.wasOpen && source.readyState == CLOSED then
      m2.(probes := m2.probes[m2.nextId := source.url], nextId := m2.nextId + 1)
    else Backoff(m2)
  }

  function ErroredStep(m: Manager, s: Id, cause: Cause): Manager
    requires s in m.sources
  {
    HandleError(BrowserFails(m, s, cause), s)
  }

  /** A probe that could not be made answers 0. */
  function ProbedStep(m: Manager, p: Id, status: int): Manager
    requires p in m.probes
  {
    var url := m.probes[p];
    var m1 := m.(probes := m.probes - {p},
                 answered400 := if status == 400 then m.answered400 + {url} else m.answered400);
    if m1.eventSource.Some? || m1.cancelReconnect.Some? then m1
    else if status == 400 then m1.(rejectedUrl := Some(url), failures := 0)
    else Backoff(m1)
  }

  predicate IsOpen(m: Manager, s: Id) {
    s in m.sources && m.sources[s].readyState != CLOSED
  }

  /** Closed sources are silent. */
  predicate Enabled(m: Manager, e: Event) {
    match e
    case Subscribe(_, _, _) => true
    case Unsubscribe(_, _, _) => true
    case TimerFired(t, _) => t in m.armed
    case Opened(s) => IsOpen(m, s)
    case Errored(s, _) => IsOpen(m, s)
    case Probed(p, _) => p in m.probes
  }

  function Step(m: Manager, urlOf: UrlOf, e: Event): Manager
    requires Enabled(m, e)
  {
    match e
    case Subscribe(symbols, callback, onStatus) => SubscribeStep(m, symbols, callback, onStatus)
    case Unsubscribe(symbols, callback, onStatus) => UnsubscribeStep(m, symbols, callback, onStatus)
    case TimerFired(t, constructs) => TimerStep(m, urlOf, t, constructs)
    case Opened(s) => OpenedStep(m, s)
    case Errored(s, cause) => ErroredStep(m, s, cause)
    case Probed(p, status) => ProbedStep(m, p, status)
  }

  ghost predicate IsRun(states: seq<Manager>, urlOf: UrlOf, events: seq<Event>) {
    && |states| == |events| + 1 && states[0] == FRESH
    && forall i | 0 <= i < |events| ::
         Enabled(states[i], events[i]) && states[i + 1] == Step(states[i], urlOf, events[i])
  }

  // ------------------------------------------------------------------ the invariant

  ghost predicate SourceOk(m: Manager, s: Id) {
    && (IsOpen(m, s) <==> m.eventSource == Some(s))
    && (s >= m.nextId ==> s !in m.sources)
  }

  ghost predicate TimerOk(m: Manager, t: Id) {
    && (t in m.armed <==> m.cancelReconnect == Some(t))
    && (t >= m.nextId ==> t !in m.armed)
  }

  ghost predicate StatusOk(m: Manager, s: Callback) {
    s in m.statusListeners ==> m.statusListeners[s] == m.isConnected
  }

  ghost predicate ProbeOk(m: Manager, p: Id) {
    p >= m.nextId ==> p !in m.probes
  }

  ghost predicate ProbeFor(m: Manager, url: Url) {
    exists p :: p in m.probes && m.probes[p] == url
  }

  ghost predicate Idle(m: Manager) {
    m.eventSource.None? && m.cancelReconnect.None?
  }

  /** Without a pending reconnect, a source serves exactly the current subscriptions, and its absence
      is due to there being none, to the server having answered 400 for their URL, or to a probe that
      will tell. */
  ghost predicate Steady(m: Manager, urlOf: UrlOf) {
    && (m.eventSource.Some? && m.cancelReconnect.None? ==>
          m.listeners != map[] && IsOpen(m, m.eventSource.value)
          && m.sources[m.eventSource.value].url == urlOf(m.listeners))
    && (Idle(m) && m.listeners != map[] ==>
          urlOf(m.listeners) in m.answered400 || ProbeFor(m, urlOf(m.listeners)))
    && (m.rejectedUrl.Some? ==> m.rejectedUrl.value in m.answered400)
    && (m.isConnected ==> !Idle(m))
  }

  ghost predicate Tracked(m: Manager) {
    && (forall s :: SourceOk(m, s))
    && (forall t :: TimerOk(m, t))
    && (forall s :: StatusOk(m, s))
    && (forall p :: ProbeOk(m, p))
    && (m.rejectedUrl.Some? ==> m.rejectedUrl.value in m.answered400)
  }

  ghost predicate Safe(m: Manager, urlOf: UrlOf) {
    Tracked(m) && Steady(m, urlOf)
  }

  lemma ScheduleKeeps(m: Manager, urlOf: UrlOf)
    requires Tracked(m)
    ensures Safe(Schedule(m), urlOf)
  {
    var n := Schedule(m);
    forall s ensures SourceOk(n, s) { assert SourceOk(m, s); }
    forall t ensures TimerOk(n, t) { assert TimerOk(m, t); }
    forall s ensures StatusOk(n, s) { assert StatusOk(m, s); }
    forall p ensures ProbeOk(n, p) { assert ProbeOk(m, p); }
  }

  lemma ChangeKeeps(m: Manager, urlOf: UrlOf)
    requires Tracked(m)
    ensures Safe(SubscriptionsChanged(m), urlOf)
  {
    if m.failures > 0 && m.cancelReconnect.Some? {} else { ScheduleKeeps(m, urlOf); }
  }

  lemma SetConnectedKeeps(m: Manager, connected: bool)
    requires Tracked(m)
    ensures Tracked(SetConnected(m, connected))
  {
    var n := SetConnected(m, connected);
    forall s ensures SourceOk(n, s) { assert SourceOk(m, s); }
    forall t ensures TimerOk(n, t) { assert TimerOk(m, t); }
    forall s ensures StatusOk(n, s) { assert StatusOk(m, s); }
    forall p ensures ProbeOk(n, p) { assert ProbeOk(m, p); }
  }

  /** Closing the current source. */
  lemma ReleaseKeeps(m: Manager)
    requires Tracked(m)
    ensures Tracked(Release(m)) && Release(m).eventSource.None?
  {
    var n := Release(m);
    forall s ensures SourceOk(n, s) {
      assert SourceOk(m, s);
      if m.eventSource.Some? { assert SourceOk(m, m.eventSource.value); }
    }
    forall t ensures TimerOk(n, t) { assert TimerOk(m, t); }
    forall s ensures StatusOk(n, s) { assert StatusOk(m, s); }
    forall p ensures ProbeOk(n, p) { assert ProbeOk(m, p); }
  }

  lemma ReconnectKeeps(m: Manager, urlOf: UrlOf, constructs: bool)
    requires Tracked(m) && m.cancelReconnect.None?
    ensures Safe(Reconnect(m, urlOf, constructs), urlOf)
  {
    ReleaseKeeps(m);
    var m1 := Release(m);
    var n := Reconnect(m, urlOf, constructs);
    if m1.listeners == map[] || m1.rejectedUrl == Some(urlOf(m1.listeners)) {
      var m2 := m1.(failures := 0);
      FieldsKeep(m1, m2);
      SetConnectedKeeps(m2, false);
    } else if !constructs {
      var m2 := m1.(failures := m1.failures + 1);
      FieldsKeep(m1, m2);
      ScheduleKeeps(m2, urlOf);
    } else {
      forall s ensures SourceOk(n, s) { assert SourceOk(m1, s); }
      forall t ensures TimerOk(n, t) { assert TimerOk(m1, t); }
      forall s ensures StatusOk(n, s) { assert StatusOk(m1, s); }
      forall p ensures ProbeOk(n, p) { assert ProbeOk(m1, p); }
    }
  }

  /** Tracking does not depend on listeners, failures, probes or order numbers. */
  lemma FieldsKeep(m: Manager, n: Manager)
    requires Tracked(m)
    requires n.eventSource == m.eventSource && n.sources == m.sources && n.cancelReconnect == m.cancelReconnect
    requires n.armed == m.armed && n.isConnected == m.isConnected && n.nextId >= m.nextId
    requires n.statusListeners == m.statusListeners || forall s :: StatusOk(n, s)
    requires forall p | p in n.probes && p !in m.probes :: p < n.nextId
    requires n.rejectedUrl.Some? ==> n.rejectedUrl.value in n.answered400
    ensures Tracked(n)
  {
    forall s ensures SourceOk(n, s) { assert SourceOk(m, s); }
    forall t ensures TimerOk(n, t) { assert TimerOk(m, t); }
    forall s ensures StatusOk(n, s) { assert StatusOk(m, s); }
    forall p ensures ProbeOk(n, p) { assert ProbeOk(m, p); }
  }

  lemma SubscribeKeeps(m: Manager, urlOf: UrlOf, symbols: seq<Symbol>, callback: Callback, onStatus: Callback)
    requires Safe(m, urlOf)
    ensures Safe(SubscribeStep(m, symbols, callback, onStatus), urlOf)
  {
    var n := m.(listeners := AddListeners(m.listeners, symbols, callback, m.nextSubscription),
                nextSubscription := m.nextSubscription + 1,
                statusListeners := m.statusListeners[onStatus := m.isConnected]);
    forall s ensures StatusOk(n, s) { assert StatusOk(m, s); }
    forall p ensures ProbeOk(n, p) { assert ProbeOk(m, p); }
    FieldsKeep(m, n);
    ChangeKeeps(n, urlOf);
  }

  lemma UnsubscribeKeeps(m: Manager, urlOf: UrlOf, symbols: seq<Symbol>, callback: Callback, onStatus: Callback)
    requires Safe(m, urlOf)
    ensures Safe(UnsubscribeStep(m, symbols, callback, onStatus), urlOf)
  {
    var n := m.(listeners := DropListeners(m.listeners, symbols, callback),
                statusListeners := m.statusListeners - {onStatus});
    forall s ensures StatusOk(n, s) { assert StatusOk(m, s); }
    forall p ensures ProbeOk(n, p) { assert ProbeOk(m, p); }
    FieldsKeep(m, n);
    ChangeKeeps(n, urlOf);
  }

  lemma TimerKeeps(m: Manager, urlOf: UrlOf, t: Id, constructs: bool)
    requires Safe(m, urlOf) && t in m.armed
    ensures Safe(TimerStep(m, urlOf, t, constructs), urlOf)
  {
    var n := m.(armed := m.armed - {t}, cancelReconnect := None);
    assert TimerOk(m, t);
    forall s ensures SourceOk(n, s) { assert SourceOk(m, s); }
    forall x ensures TimerOk(n, x) { assert TimerOk(m, x); }
    forall s ensures StatusOk(n, s) { assert StatusOk(m, s); }
    forall p ensures ProbeOk(n, p) { assert ProbeOk(m, p); }
    ReconnectKeeps(n, urlOf, constructs);
  }

  lemma OpenedKeeps(m: Manager, urlOf: UrlOf, s: Id)
    requires Safe(m, urlOf) && IsOpen(m, s)
    ensures Safe(OpenedStep(m, s), urlOf)
  {
    var n := m.(sources := m.sources[s := m.sources[s].(wasOpen := true, readyState := OPEN)], failures := 0);
    assert SourceOk(m, s);
    forall x ensures SourceOk(n, x) { assert SourceOk(m, x); }
    forall t ensures TimerOk(n, t) { assert TimerOk(m, t); }
    forall x ensures StatusOk(n, x) { assert StatusOk(m, x); }
    forall p ensures ProbeOk(n, p) { assert ProbeOk(m, p); }
    SetConnectedKeeps(n, true);
  }

  /** The browser's own change of readyState leaves no trace: the handler closes the source. */
  lemma ErroredIs(m: Manager, s: Id, cause: Cause)
    requires Tracked(m) && IsOpen(m, s)
    ensures var m2 := SetConnected(Release(m), false);
      ErroredStep(m, s, cause) ==
        if m.sources[s].wasOpen then Backoff(m2)
        else m2.(probes := m2.probes[m2.nextId := m.sources[s].url], nextId := m2.nextId + 1)
  {
    assert SourceOk(m, s);
    var closed := m.sources[s].(readyState := CLOSED);
    assert m.sources[s := m.sources[s].(readyState := BrowserState(cause))][s := closed] == m.sources[s := closed];
  }

  lemma ErroredKeeps(m: Manager, urlOf: UrlOf, s: Id, cause: Cause)
    requires Safe(m, urlOf) && IsOpen(m, s)
    ensures Safe(ErroredStep(m, s, cause), urlOf)
  {
    ErroredIs(m, s, cause);
    assert SourceOk(m, s);
    ReleaseKeeps(m);
    var m1 := Release(m);
    SetConnectedKeeps(m1, false);
    var m2 := SetConnected(m1, false);
    var url := m.sources[s].url;
    if !m.sources[s].wasOpen {
      var n := m2.(probes := m2.probes[m2.nextId := url], nextId := m2.nextId + 1);
      FieldsKeep(m2, n);
      assert n.probes[m2.nextId] == url;
      assert ProbeFor(n, url);
    } else {
      var n := m2.(failures := m2.failures + 1);
      FieldsKeep(m2, n);
      ScheduleKeeps(n, urlOf);
    }
  }

  lemma ProbedKeeps(m: Manager, urlOf: UrlOf, p: Id, status: int)
    requires Safe(m, urlOf) && p in m.probes
    ensures Safe(ProbedStep(m, p, status), urlOf)
  {
    var url := m.probes[p];
    var m1 := m.(probes := m.probes - {p},
                 answered400 := if status == 400 then m.answered400 + {url} else m.answered400);
    FieldsKeep(m, m1);
    if Idle(m) {
      if status == 400 {
        var n := m1.(rejectedUrl := Some(url), failures := 0);
        FieldsKeep(m1, n);
        StillExplained(m, n, urlOf(m.listeners), p);
      } else {
        var n := m1.(failures := m1.failures + 1);
        FieldsKeep(m1, n);
        ScheduleKeeps(n, urlOf);
      }
    }
  }

  /** Losing one probe to a 400 leaves every idle URL explained. */
  lemma StillExplained(m: Manager, n: Manager, url: Url, p: Id)
    requires p in m.probes && n.probes == m.probes - {p} && n.answered400 == m.answered400 + {m.probes[p]}
    ensures url in m.answered400 || ProbeFor(m, url) ==> url in n.answered400 || ProbeFor(n, url)
  {
    if ProbeFor(m, url) && m.probes[p] != url {
      var q :| q in m.probes && m.probes[q] == url;
      assert q in n.probes && n.probes[q] == url;
    }
  }

  lemma StepKeeps(m: Manager, urlOf: UrlOf, e: Event)
    requires Safe(m, urlOf) && Enabled(m, e)
    ensures Safe(Step(m, urlOf, e), urlOf)
  {
    hide Safe;
    match e
    case Subscribe(symbols, callback, onStatus) => SubscribeKeeps(m, urlOf, symbols, callback, onStatus);
    case Unsubscribe(symbols, callback, onStatus) => UnsubscribeKeeps(m, urlOf, symbols, callback, onStatus);
    case TimerFired(t, constructs) => TimerKeeps(m, urlOf, t, constructs);
    case Opened(s) => OpenedKeeps(m, urlOf, s);
    case Errored(s, cause) => ErroredKeeps(m, urlOf, s, cause);
    case Probed(p, status) => ProbedKeeps(m, urlOf, p, status);
  }

  lemma FreshIsSafe(urlOf: UrlOf)
    ensures Safe(FRESH, urlOf)
  {
    forall s ensures SourceOk(FRESH, s) {}
    forall t ensures TimerOk(FRESH, t) {}
  }

  lemma {:induction false} RunsAreSafe(states: seq<Manager>, urlOf: UrlOf, events: seq<Event>, i: nat)
    requires IsRun(states, urlOf, events) && i <= |events|
    ensures Safe(states[i], urlOf)
  {
    if i == 0 {
      FreshIsSafe(urlOf);
    } else {
      RunsAreSafe(states, urlOf, events, i - 1);
      StepKeeps(states[i - 1], urlOf, events[i - 1]);
    }
  }

  /** Main result: in every state of every run at most one source is open and at most one reconnect is
      armed; every status listener has been told the current status. */
  lemma OneOpenSource(states: seq<Manager>, urlOf: UrlOf, events: seq<Event>, i: nat)
    requires IsRun(states, urlOf, events) && i <= |events|
    ensures forall s, t :: IsOpen(states[i], s) && IsOpen(states[i], t) ==> s == t
    ensures forall s, t :: s in states[i].armed && t in states[i].armed ==> s == t
    ensures forall s :: s in states[i].statusListeners ==> states[i].statusListeners[s] == states[i].isConnected
  {
    RunsAreSafe(states, urlOf, events, i);
    var m := states[i];
    forall s, t | IsOpen(m, s) && IsOpen(m, t) ensures s == t { assert SourceOk(m, s) && SourceOk(m, t); }
    forall s, t | s in m.armed && t in m.armed ensures s == t { assert TimerOk(m, s) && TimerOk(m, t); }
    forall s | s in m.statusListeners ensures m.statusListeners[s] == m.isConnected { assert StatusOk(m, s); }
  }

  lemma NothingArmed(m: Manager)
    requires Tracked(m) && m.armed == {}
    ensures m.cancelReconnect.None?
  {
    var t := if m.cancelReconnect.Some? then m.cancelReconnect.value else 0;
    assert TimerOk(m, t);
  }

  /** Main result: with subscriptions, and no reconnect armed, the stream is open for exactly their URL,
      or the server has answered 400 for that URL, or a probe of that URL is still out. */
  lemma NeverIdleWithListeners(states: seq<Manager>, urlOf: UrlOf, events: seq<Event>, i: nat)
    requires IsRun(states, urlOf, events) && i <= |events|
    requires states[i].listeners != map[] && states[i].armed == {}
    ensures var m, url := states[i], urlOf(states[i].listeners);
      || (exists s :: IsOpen(m, s) && m.sources[s].url == url)
      || url in m.answered400
      || ProbeFor(m, url)
  {
    RunsAreSafe(states, urlOf, events, i);
    var m := states[i];
    NothingArmed(m);
  }

  /** Main result: without subscriptions, and no reconnect armed, no source is open. */
  lemma ClosesWhenUnused(states: seq<Manager>, urlOf: UrlOf, events: seq<Event>, i: nat)
    requires IsRun(states, urlOf, events) && i <= |events|
    requires states[i].listeners == map[] && states[i].armed == {}
    ensures forall s :: !IsOpen(states[i], s)
    ensures !states[i].isConnected
  {
    RunsAreSafe(states, urlOf, events, i);
    var m := states[i];
    NothingArmed(m);
    forall s ensures !IsOpen(m, s) { assert SourceOk(m, s); }
  }

  // ------------------------------------------------------------------ told from the events

  /** Source s opened among the first k events. */
  ghost predicate HasOpened(events: seq<Event>, k: nat, s: Id)
    requires k <= |events|
  {
    k > 0 && (events[k - 1] == Opened(s) || HasOpened(events, k - 1, s))
  }

  predicate WatchesAfter(e: Event, c: Callback, before: bool) {
    match e
    case Subscribe(_, _, onStatus) => onStatus == c || before
    case Unsubscribe(_, _, onStatus) => onStatus != c && before
    case _ => before
  }

  /** The status callback is registered: it subscribed, and has not unsubscribed since. */
  ghost predicate Watches(events: seq<Event>, k: nat, c: Callback)
    requires k <= |events|
  {
    k > 0 && WatchesAfter(events[k - 1], c, Watches(events, k - 1, c))
  }

  /** How many times somebody subscribed. */
  ghost function Subscriptions(events: seq<Event>, k: nat): nat
    requires k <= |events|
  {
    if k == 0 then 0 else Subscriptions(events, k - 1) + (if events[k - 1].Subscribe? then 1 else 0)
  }

  /** The number of the callback's latest subscription to the symbol, unless it has unsubscribed from it since. */
  ghost function LatestOrder(events: seq<Event>, k: nat, s: Symbol, c: Callback): Option<nat>
    requires k <= |events|
  {
    if k == 0 then None
    else
      match events[k - 1]
      case Subscribe(symbols, callback, _) =>
        if callback == c && s in symbols then Some(Subscriptions(events, k - 1)) else LatestOrder(events, k - 1, s, c)
      case Unsubscribe(symbols, callback, _) =>
        if callback == c && s in symbols then None else LatestOrder(events, k - 1, s, c)
      case _ => LatestOrder(events, k - 1, s, c)
  }

  /** The reconnect timer finds nothing to connect to: no subscriptions, or a URL the server rejected. */
  predicate FindsNothing(m: Manager, urlOf: UrlOf) {
    m.listeners == map[] || m.rejectedUrl == Some(urlOf(m.listeners))
  }

  predicate UpAfter(m: Manager, urlOf: UrlOf, e: Event, before: bool) {
    match e
    case Opened(_) => true
    case Errored(_, _) => false
    case TimerFired(_, _) => !FindsNothing(m, urlOf) && before
    case _ => before
  }

  /** A source opened, and none has failed since, nor has a reconnect found nothing to connect to. */
  ghost predicate Up(states: seq<Manager>, urlOf: UrlOf, events: seq<Event>, k: nat)
    requires k <= |events| <= |states|
  {
    k > 0 && UpAfter(states[k - 1], urlOf, events[k - 1], Up(states, urlOf, events, k - 1))
  }

  /** `answered` tells whether the source of a failure had opened. */
  function FailuresAfter(m: Manager, urlOf: UrlOf, e: Event, answered: bool, before: nat): nat {
    match e
    case Opened(_) => 0
    case Errored(_, _) => if answered then before + 1 else before
    case TimerFired(_, constructs) => if FindsNothing(m, urlOf) then 0 else if constructs then before else before + 1
    case Probed(_, status) =>
      if m.eventSource.Some? || m.cancelReconnect.Some? then before else if status == 400 then 0 else before + 1
    case _ => before
  }

  /** Failures in a row: opened sources that broke, sources that could not be made, and probes answered by
      other than 400 with nothing else under way, since one opened, was rejected or was not needed. */
  ghost function FailuresInARow(states: seq<Manager>, urlOf: UrlOf, events: seq<Event>, k: nat): nat
    requires k <= |events| <= |states|
  {
    if k == 0 then 0
    else
      var e := events[k - 1];
      FailuresAfter(states[k - 1], urlOf, e, e.Errored? && HasOpened(events, k - 1, e.source),
                    FailuresInARow(states, urlOf, events, k - 1))
  }

  /** What the fields of a source, a callback and the manager must be. */
  ghost predicate SourceTold(m: Manager, s: Id, answered: bool) {
    (answered ==> s in m.sources) && (s in m.sources ==> (m.sources[s].wasOpen <==> answered))
  }

  /** Apart from the fields named here nothing a listener sees changes. */
  ghost predicate SameEars(m: Manager, n: Manager) {
    n.listeners == m.listeners && n.nextSubscription == m.nextSubscription
    && n.statusListeners.Keys == m.statusListeners.Keys
  }

  ghost predicate SameOpened(m: Manager, n: Manager) {
    && (forall s <- m.sources :: s in n.sources && n.sources[s].wasOpen == m.sources[s].wasOpen)
    && (forall s <- n.sources | s !in m.sources :: !n.sources[s].wasOpen)
  }

  lemma SetConnectedIs(m: Manager, connected: bool)
    ensures var n := SetConnected(m, connected);
      && n == m.(isConnected := connected, statusListeners := n.statusListeners)
      && n.statusListeners.Keys == m.statusListeners.Keys
  {
  }

  lemma ReleaseIs(m: Manager)
    ensures var n := Release(m);
      && n == m.(sources := n.sources, eventSource := None) && SameOpened(m, n)
  {
  }

  lemma ScheduleIs(m: Manager)
    ensures var n := Schedule(m); n == m.(armed := n.armed, cancelReconnect := n.cancelReconnect, nextId := n.nextId)
  {
  }

  lemma TimerIs(m: Manager, urlOf: UrlOf, t: Id, constructs: bool)
    requires m.nextId !in m.sources
    ensures var n := TimerStep(m, urlOf, t, constructs);
      && SameEars(m, n) && SameOpened(m, n)
      && n.isConnected == (!FindsNothing(m, urlOf) && m.isConnected)
      && n.failures == if FindsNothing(m, urlOf) then 0 else if constructs then m.failures else m.failures + 1
  {
    hide Release, SetConnected, Schedule;
    var m1 := m.(armed := m.armed - {t}, cancelReconnect := None);
    ReleaseIs(m1);
    SetConnectedIs(Release(m1).(failures := 0), false);
    ScheduleIs(Release(m1).(failures := m.failures + 1));
  }

  lemma SubscriptionsChangedIs(m: Manager)
    ensures var n := SubscriptionsChanged(m);
      n == m.(armed := n.armed, cancelReconnect := n.cancelReconnect, nextId := n.nextId)
  {
    ScheduleIs(m);
  }

  lemma ErrorIs(m: Manager, s: Id, cause: Cause)
    requires Tracked(m) && IsOpen(m, s)
    ensures var n := ErroredStep(m, s, cause);
      && SameEars(m, n) && SameOpened(m, n) && !n.isConnected
      && n.failures == if m.sources[s].wasOpen then m.failures + 1 else m.failures
  {
    ErroredIs(m, s, cause);
    hide Tracked, Release, SetConnected, Schedule, ErroredStep;
    ReleaseIs(m);
    SetConnectedIs(Release(m), false);
    ScheduleIs(SetConnected(Release(m), false).(failures := m.failures + 1));
  }

  lemma OpenIs(m: Manager, s: Id)
    requires s in m.sources
    ensures var n := OpenedStep(m, s);
      && SameEars(m, n) && n.isConnected && n.failures == 0
      && n.sources == m.sources[s := m.sources[s].(wasOpen := true, readyState := OPEN)]
  {
    var source := m.sources[s].(wasOpen := true, readyState := OPEN);
    SetConnectedIs(m.(sources := m.sources[s := source], failures := 0), true);
  }

  lemma ProbeIs(m: Manager, p: Id, status: int)
    requires p in m.probes
    ensures var n := ProbedStep(m, p, status);
      && SameEars(m, n) && n.sources == m.sources && n.isConnected == m.isConnected
      && n.failures == if !Idle(m) then m.failures else if status == 400 then 0 else m.failures + 1
  {
    hide Schedule;
    var url := m.probes[p];
    var m1 := m.(probes := m.probes - {p},
                 answered400 := if status == 400 then m.answered400 + {url} else m.answered400);
    ScheduleIs(m1.(failures := m1.failures + 1));
  }

  lemma SubscribeIs(m: Manager, symbols: seq<Symbol>, c: Callback, onStatus: Callback)
    ensures var n := SubscribeStep(m, symbols, c, onStatus);
      && n.listeners == AddListeners(m.listeners, symbols, c, m.nextSubscription)
      && n.nextSubscription == m.nextSubscription + 1 && n.sources == m.sources
      && n.statusListeners == m.statusListeners[onStatus := m.isConnected]
      && n.isConnected == m.isConnected && n.failures == m.failures
  {
    hide SubscriptionsChanged, AddListeners;
    SubscriptionsChangedIs(m.(listeners := AddListeners(m.listeners, symbols, c, m.nextSubscription),
                              nextSubscription := m.nextSubscription + 1,
                              statusListeners := m.statusListeners[onStatus := m.isConnected]));
  }

  lemma UnsubscribeIs(m: Manager, symbols: seq<Symbol>, c: Callback, onStatus: Callback)
    ensures var n := UnsubscribeStep(m, symbols, c, onStatus);
      && n.listeners == DropListeners(m.listeners, symbols, c)
      && n.nextSubscription == m.nextSubscription && n.sources == m.sources
      && n.statusListeners == m.statusListeners - {onStatus}
      && n.isConnected == m.isConnected && n.failures == m.failures
  {
    hide SubscriptionsChanged, DropListeners;
    SubscriptionsChangedIs(m.(listeners := DropListeners(m.listeners, symbols, c),
                              statusListeners := m.statusListeners - {onStatus}));
  }

  lemma OrderStep(m: Manager, urlOf: UrlOf, e: Event, s: Symbol, c: Callback)
    requires Tracked(m) && Enabled(m, e) && NoEmptyEntry(m.listeners)
    ensures var n := Step(m, urlOf, e);
      && NoEmptyEntry(n.listeners)
      && n.nextSubscription == m.nextSubscription + (if e.Subscribe? then 1 else 0)
      && OrderOf(n.listeners, s, c) ==
           match e
           case Subscribe(symbols, callback, _) =>
             if callback == c && s in symbols then Some(m.nextSubscription) else OrderOf(m.listeners, s, c)
           case Unsubscribe(symbols, callback, _) =>
             if callback == c && s in symbols then None else OrderOf(m.listeners, s, c)
           case _ => OrderOf(m.listeners, s, c)
  {
    FreshId(m);
    hide OrderOf, NoEmptyEntry, AddListeners, DropListeners, Tracked, SubscribeStep, UnsubscribeStep, TimerStep,
      OpenedStep, ErroredStep, ProbedStep;
    match e
    case Subscribe(symbols, callback, onStatus) =>
      SubscribeIs(m, symbols, callback, onStatus);
      Added(m.listeners, symbols, callback, m.nextSubscription);
    case Unsubscribe(symbols, callback, onStatus) =>
      UnsubscribeIs(m, symbols, callback, onStatus);
      Dropped(m.listeners, symbols, callback);
    case TimerFired(t, constructs) => TimerIs(m, urlOf, t, constructs);
    case Opened(source) => OpenIs(m, source);
    case Errored(source, cause) => ErrorIs(m, source, cause);
    case Probed(p, status) => ProbeIs(m, p, status);
  }

  lemma FreshId(m: Manager)
    requires Tracked(m)
    ensures m.nextId !in m.sources
  {
    assert SourceOk(m, m.nextId);
  }

  lemma StatusStep(m: Manager, urlOf: UrlOf, e: Event, c: Callback, s: Id, answered: bool)
    requires Tracked(m) && Enabled(m, e) && SourceTold(m, s, answered)
    ensures var n := Step(m, urlOf, e);
      && SourceTold(n, s, answered || e == Opened(s))
      && (c in n.statusListeners <==> WatchesAfter(e, c, c in m.statusListeners))
      && n.isConnected == UpAfter(m, urlOf, e, m.isConnected)
      && n.failures == FailuresAfter(m, urlOf, e, e.Errored? && m.sources[e.source].wasOpen, m.failures)
  {
    FreshId(m);
    hide AddListeners, DropListeners, Tracked, SubscribeStep, UnsubscribeStep, TimerStep, OpenedStep, ErroredStep,
      ProbedStep, FindsNothing;
    match e
    case Subscribe(symbols, callback, onStatus) => SubscribeIs(m, symbols, callback, onStatus);
    case Unsubscribe(symbols, callback, onStatus) => UnsubscribeIs(m, symbols, callback, onStatus);
    case TimerFired(t, constructs) => TimerIs(m, urlOf, t, constructs);
    case Opened(source) => OpenIs(m, source);
    case Errored(source, cause) => ErrorIs(m, source, cause);
    case Probed(p, status) => ProbeIs(m, p, status);
  }

  /** Main result: in every state of every run, who listens to what, with which order number, who watches the
      status, which sources opened, the status and the failures in a row are what the events say. */
  lemma {:induction false} HistoryTells(
    states: seq<Manager>, urlOf: UrlOf, events: seq<Event>, k: nat, s: Symbol, c: Callback, source: Id)
    requires IsRun(states, urlOf, events) && k <= |events|
    ensures var m := states[k];
      && OrderOf(m.listeners, s, c) == LatestOrder(events, k, s, c)
      && (c in m.statusListeners <==> Watches(events, k, c))
      && SourceTold(m, source, HasOpened(events, k, source))
      && (m.isConnected <==> Up(states, urlOf, events, k))
      && m.failures == FailuresInARow(states, urlOf, events, k)
  {
    hide *;
    OrdersTold(states, urlOf, events, k, s, c);
    SourcesTold(states, urlOf, events, k, source);
    StatusTold(states, urlOf, events, k, c);
  }

  /** Event k's effect on the status, in terms of the events before it. */
  lemma StatusStepAt(states: seq<Manager>, urlOf: UrlOf, events: seq<Event>, k: nat, c: Callback)
    requires IsRun(states, urlOf, events) && k < |events|
    ensures var m, n, e := states[k], states[k + 1], events[k];
      && (c in n.statusListeners <==> WatchesAfter(e, c, c in m.statusListeners))
      && n.isConnected == UpAfter(m, urlOf, e, m.isConnected)
      && n.failures == FailuresAfter(m, urlOf, e, e.Errored? && HasOpened(events, k, e.source), m.failures)
  {
    var s := if events[k].Errored? then events[k].source else states[k].nextId;
    RunsAreSafe(states, urlOf, events, k);
    SourcesTold(states, urlOf, events, k, s);
    hide Step, Tracked, Steady, WatchesAfter, UpAfter, FailuresAfter, HasOpened;
    StatusStep(states[k], urlOf, events[k], c, s, HasOpened(events, k, s));
  }

  lemma {:induction false} StatusTold(states: seq<Manager>, urlOf: UrlOf, events: seq<Event>, k: nat, c: Callback)
    requires IsRun(states, urlOf, events) && k <= |events|
    ensures c in states[k].statusListeners <==> Watches(events, k, c)
    ensures states[k].isConnected <==> Up(states, urlOf, events, k)
    ensures states[k].failures == FailuresInARow(states, urlOf, events, k)
  {
    hide Step, Enabled, WatchesAfter, UpAfter, FailuresAfter, HasOpened;
    if k > 0 {
      StatusTold(states, urlOf, events, k - 1, c);
      StatusStepAt(states, urlOf, events, k - 1, c);
    }
  }

  lemma {:induction false} OrdersTold(
    states: seq<Manager>, urlOf: UrlOf, events: seq<Event>, k: nat, s: Symbol, c: Callback)
    requires IsRun(states, urlOf, events) && k <= |events|
    ensures NoEmptyEntry(states[k].listeners) && states[k].nextSubscription == Subscriptions(events, k)
    ensures OrderOf(states[k].listeners, s, c) == LatestOrder(events, k, s, c)
  {
    if k > 0 {
      hide Step, Enabled, Tracked, Steady, OrderOf, NoEmptyEntry;
      OrdersTold(states, urlOf, events, k - 1, s, c);
      RunsAreSafe(states, urlOf, events, k - 1);
      OrderStep(states[k - 1], urlOf, events[k - 1], s, c);
    }
  }

  lemma {:induction false} SourcesTold(states: seq<Manager>, urlOf: UrlOf, events: seq<Event>, k: nat, s: Id)
    requires IsRun(states, urlOf, events) && k <= |events|
    ensures SourceTold(states[k], s, HasOpened(events, k, s))
  {
    if k > 0 {
      hide Step, Enabled, Tracked, Steady, SourceTold;
      SourcesTold(states, urlOf, events, k - 1, s);
      RunsAreSafe(states, urlOf, events, k - 1);
      StatusStep(states[k - 1], urlOf, events[k - 1], 0, s, HasOpened(events, k - 1, s));
    }
  }

  /** A change of subscriptions never shortens a backoff: with failures behind it and a reconnect armed, that
      one stays; otherwise a new one takes the place of any other. */
  lemma BackoffIsKept(states: seq<Manager>, urlOf: UrlOf, events: seq<Event>, i: nat)
    requires IsRun(states, urlOf, events) && i < |events| && (events[i].Subscribe? || events[i].Unsubscribe?)
    ensures states[i + 1].armed ==
      if FailuresInARow(states, urlOf, events, i) > 0 && states[i].armed != {} then states[i].armed
      else {states[i].nextId}
  {
    hide AddListeners, DropListeners, FailuresInARow;
    RunsAreSafe(states, urlOf, events, i);
    HistoryTells(states, urlOf, events, i, "", 0, 0);
    OneArmed(states[i]);
  }

  lemma OneArmed(m: Manager)
    requires Tracked(m)
    ensures m.armed == if m.cancelReconnect.Some? then {m.cancelReconnect.value} else {}
  {
    forall t: Id ensures t in m.armed <==> m.cancelReconnect == Some(t) { assert TimerOk(m, t); }
  }

  /** Answered 400 with nothing else under way, the URL is remembered as rejected. */
  predicate Rejects(m: Manager, e: Event) {
    e.Probed? && e.status == 400 && e.probe in m.probes && m.eventSource.None? && m.cancelReconnect.None?
  }

  lemma {:induction false} StaysRejected(states: seq<Manager>, urlOf: UrlOf, events: seq<Event>, i: nat, k: nat)
    requires IsRun(states, urlOf, events) && i < k <= |events| && Rejects(states[i], events[i])
    requires forall j | i < j < k :: !Rejects(states[j], events[j])
    ensures states[k].rejectedUrl == Some(states[i].probes[events[i].probe])
    decreases k
  {
    hide Step, Rejects, Enabled;
    if i + 1 < k { StaysRejected(states, urlOf, events, i, k - 1); }
    RejectedAfter(states[k - 1], urlOf, events[k - 1]);
  }

  lemma RejectedAfter(m: Manager, urlOf: UrlOf, e: Event)
    requires Enabled(m, e)
    ensures Rejects(m, e) ==> e.probe in m.probes && Step(m, urlOf, e).rejectedUrl == Some(m.probes[e.probe])
    ensures !Rejects(m, e) ==> Step(m, urlOf, e).rejectedUrl == m.rejectedUrl
  {
    hide AddListeners, DropListeners;
    match e
    case TimerFired(t, constructs) => TimerRejected(m, urlOf, t, constructs);
    case Errored(s, cause) => ErrorRejected(m, s, cause);
    case _ =>
  }

  lemma TimerRejected(m: Manager, urlOf: UrlOf, t: Id, constructs: bool)
    ensures TimerStep(m, urlOf, t, constructs).rejectedUrl == m.rejectedUrl
  {
  }

  lemma ErrorRejected(m: Manager, s: Id, cause: Cause)
    requires s in m.sources
    ensures ErroredStep(m, s, cause).rejectedUrl == m.rejectedUrl
  {
  }

  /** Main result: a URL the server rejected is not tried again. After such an answer, until another one, no
      reconnect creates a source while the subscriptions have that URL. */
  lemma RejectedIsNotRetried(states: seq<Manager>, urlOf: UrlOf, events: seq<Event>, i: nat, k: nat)
    requires IsRun(states, urlOf, events) && i < k < |events| && Rejects(states[i], events[i])
    requires forall j | i < j < k :: !Rejects(states[j], events[j])
    requires events[k].TimerFired? && urlOf(states[k].listeners) == states[i].probes[events[i].probe]
    ensures states[k + 1].sources.Keys == states[k].sources.Keys && states[k + 1].armed == {}
    ensures !states[k + 1].isConnected
  {
    hide Rejects;
    StaysRejected(states, urlOf, events, i, k);
    RunsAreSafe(states, urlOf, events, k);
    OneArmed(states[k]);
    RejectedReconnect(states[k], urlOf, events[k].timer, events[k].constructs);
  }

  lemma RejectedReconnect(m: Manager, urlOf: UrlOf, t: Id, constructs: bool)
    requires m.rejectedUrl == Some(urlOf(m.listeners))
    ensures var n := TimerStep(m, urlOf, t, constructs);
      n.sources.Keys == m.sources.Keys && n.armed == m.armed - {t} && !n.isConnected
  {
  }

  // ------------------------------------------------------------------ which failures are probed

  /** A new probe of `url` is out. */
  ghost predicate ProbeSent(m: Manager, n: Manager, url: Url) {
    exists p :: p !in m.probes && p in n.probes && n.probes[p] == url
  }

  /** Main result: in every reachable state, whatever made the source fail, a probe of its URL is sent if and
      only if the source never opened, and a backed-off reconnect is armed if and only if it had. */
  lemma ProbedIffNeverOpened(
    states: seq<Manager>, urlOf: UrlOf, events: seq<Event>, i: nat, s: Id, cause: Cause)
    requires IsRun(states, urlOf, events) && i <= |events| && IsOpen(states[i], s)
    ensures var m, n := states[i], ErroredStep(states[i], s, cause);
      && (ProbeSent(m, n, m.sources[s].url) <==> !HasOpened(events, i, s))
      && (n.failures == m.failures + 1 && n.cancelReconnect == Some(m.nextId) <==> HasOpened(events, i, s))
  {
    RunsAreSafe(states, urlOf, events, i);
    SourcesTold(states, urlOf, events, i, s);
    var m, n := states[i], ErroredStep(states[i], s, cause);
    ErroredIs(m, s, cause);
    assert ProbeOk(m, m.nextId);
    if !m.sources[s].wasOpen {
      assert n.probes[m.nextId] == m.sources[s].url;
      assert ProbeSent(m, n, m.sources[s].url);
    }
  }

  /** What the comment beside the guard promises: a probe exactly when the browser failed the connection on
      its response before it ever opened.  The code keeps that promise if and only if the source had opened
      or the response was refused; a network drop before the first open is probed too. */
  lemma CommentHoldsUnlessDropped(
    states: seq<Manager>, urlOf: UrlOf, events: seq<Event>, i: nat, s: Id, cause: Cause)
    requires IsRun(states, urlOf, events) && i <= |events| && IsOpen(states[i], s)
    ensures var m, n := states[i], ErroredStep(states[i], s, cause);
      (ProbeSent(m, n, m.sources[s].url) <==> !HasOpened(events, i, s) && cause == RefusedResponse)
      <==> HasOpened(events, i, s) || cause == RefusedResponse
  {
    ProbedIffNeverOpened(states, urlOf, events, i, s, cause);
  }

  /** Such a run: one subscription, one reconnect, one network drop. */
  lemma NetworkDropIsProbed(urlOf: UrlOf) returns (states: seq<Manager>, events: seq<Event>)
    ensures |events| == 3 && IsRun(states, urlOf, events) && events[2].Errored? && events[2].cause == NetworkDrop
    ensures ProbeFor(states[3], urlOf(states[3].listeners)) && states[3].armed == {}
  {
    var e0, e1, e2 := Subscribe(["NIFTY"], 0, 0), TimerFired(0, true), Errored(1, NetworkDrop);
    var s1 := Step(FRESH, urlOf, e0);
    FirstListener(0, 0);
    var s2 := Step(s1, urlOf, e1);
    var s3 := Step(s2, urlOf, e2);
    states, events := [FRESH, s1, s2, s3], [e0, e1, e2];
    assert s3.probes[2] == urlOf(s3.listeners);
  }

  lemma FirstListener(callback: Callback, order: nat)
    ensures AddListeners(map[], ["NIFTY"], callback, order) == map["NIFTY" := map[callback := order]]
  {
    assert ["NIFTY"][1..] == [];
  }

  // ------------------------------------------------------------------ subscriptions

  /** No symbol is kept without a callback, so "no listeners" means no subscription. */
  ghost predicate NoEmptyEntry(listeners: Listeners) {
    forall s :: s in listeners ==> listeners[s] != map[]
  }

  predicate Listens(listeners: Listeners, symbol: Symbol, callback: Callback) {
    symbol in listeners && callback in listeners[symbol]
  }

  /** The order number of the callback's subscription to the symbol, if it has one. */
  function OrderOf(listeners: Listeners, symbol: Symbol, callback: Callback): Option<nat> {
    if Listens(listeners, symbol, callback) then Some(listeners[symbol][callback]) else None
  }

  lemma {:induction false} Added(listeners: Listeners, symbols: seq<Symbol>, callback: Callback, order: nat)
    requires NoEmptyEntry(listeners)
    ensures var after := AddListeners(listeners, symbols, callback, order);
      && NoEmptyEntry(after)
      && forall s, c :: OrderOf(after, s, c) ==
           if c == callback && s in symbols then Some(order) else OrderOf(listeners, s, c)
    decreases |symbols|
  {
    if symbols != [] {
      var first := AddListener(listeners, symbols[0], callback, order);
      AddedOne(listeners, symbols[0], callback, order);
      hide OrderOf, NoEmptyEntry;
      Added(first, symbols[1..], callback, order);
      assert symbols == [symbols[0]] + symbols[1..];
    }
  }

  lemma AddedOne(listeners: Listeners, symbol: Symbol, callback: Callback, order: nat)
    requires NoEmptyEntry(listeners)
    ensures var after := AddListener(listeners, symbol, callback, order);
      && NoEmptyEntry(after)
      && forall s, c :: OrderOf(after, s, c) ==
           if c == callback && s == symbol then Some(order) else OrderOf(listeners, s, c)
  {
    assert callback in AddListener(listeners, symbol, callback, order)[symbol];
  }

  lemma {:induction false} Dropped(listeners: Listeners, symbols: seq<Symbol>, callback: Callback)
    requires NoEmptyEntry(listeners)
    ensures var after := DropListeners(listeners, symbols, callback);
      && NoEmptyEntry(after)
      && forall s, c :: OrderOf(after, s, c) ==
           if c == callback && s in symbols then None else OrderOf(listeners, s, c)
    decreases |symbols|
  {
    if symbols != [] {
      var first := DropListener(listeners, symbols[0], callback);
      DroppedOne(listeners, symbols[0], callback);
      hide OrderOf, NoEmptyEntry;
      Dropped(first, symbols[1..], callback);
      assert symbols == [symbols[0]] + symbols[1..];
    }
  }

  lemma DroppedOne(listeners: Listeners, symbol: Symbol, callback: Callback)
    requires NoEmptyEntry(listeners)
    ensures var after := DropListener(listeners, symbol, callback);
      && NoEmptyEntry(after)
      && forall s, c :: OrderOf(after, s, c) ==
           if c == callback && s == symbol then None else OrderOf(listeners, s, c)
  {
    if symbol in listeners {
      var left := listeners[symbol] - {callback};
      if left == map[] {
        forall c | c in listeners[symbol] ensures c == callback { assert c !in left; }
      }
    }
  }

  /** Listener maps without empty entries are told apart by the order numbers in them. */
  lemma SameOrders(a: Listeners, b: Listeners)
    requires NoEmptyEntry(a) && NoEmptyEntry(b) && forall s, c :: OrderOf(a, s, c) == OrderOf(b, s, c)
    ensures a == b
  {
    SameKeys(a, b);
    SameKeys(b, a);
    forall s | s in a ensures a[s] == b[s] {
      forall c ensures c in a[s] <==> c in b[s] { assert OrderOf(a, s, c) == OrderOf(b, s, c); }
      forall c | c in a[s] ensures a[s][c] == b[s][c] { assert OrderOf(a, s, c) == OrderOf(b, s, c); }
    }
  }

  lemma SameKeys(a: Listeners, b: Listeners)
    requires NoEmptyEntry(a) && forall s, c :: OrderOf(a, s, c) == OrderOf(b, s, c)
    ensures forall s | s in a :: s in b
  {
    forall s | s in a ensures s in b {
      var c :| c in a[s];
      assert OrderOf(a, s, c) == OrderOf(b, s, c);
    }
  }

  function Unsubscribed(listeners: Listeners, symbols: seq<Symbol>, callback: Callback, order: nat): Listeners {
    DropListeners(AddListeners(listeners, symbols, callback, order), symbols, callback)
  }

  /** Main result: unsubscribing restores the listeners, order numbers included, if and only if the callback
      was listening to none of the symbols before; one that was loses that earlier subscription too. */
  lemma UnsubscribeUndoes(listeners: Listeners, symbols: seq<Symbol>, callback: Callback, order: nat)
    requires NoEmptyEntry(listeners)
    ensures NoEmptyEntry(Unsubscribed(listeners, symbols, callback, order))
    ensures Unsubscribed(listeners, symbols, callback, order) == listeners
      <==> forall s <- symbols :: !Listens(listeners, s, callback)
  {
    var after := Unsubscribed(listeners, symbols, callback, order);
    Added(listeners, symbols, callback, order);
    Dropped(AddListeners(listeners, symbols, callback, order), symbols, callback);
    if s :| s in symbols && Listens(listeners, s, callback) {
      assert OrderOf(after, s, callback) != OrderOf(listeners, s, callback);
    } else {
      forall s, c ensures OrderOf(after, s, c) == OrderOf(listeners, s, c) { }
      SameOrders(after, listeners);
    }
  }

  /** Such listeners: one callback subscribed twice to one symbol, then unsubscribed once, is deaf. */
  lemma UnsubscribeCanDeafen()
    ensures var once := AddListeners(map[], ["NIFTY"], 0, 0);
      Listens(once, "NIFTY", 0) && Unsubscribed(once, ["NIFTY"], 0, 1) == map[]
  {
    FirstListener(0, 0);
    var once: Listeners := map["NIFTY" := map[0 := 0]];
    assert ["NIFTY"][1..] == [];
    assert once["NIFTY"][0 := 1] == map[0 := 1];
    assert AddListener(once, "NIFTY", 0, 1) == map["NIFTY" := map[0 := 1]];
    assert map[0 := 1] - {0} == map[];
  }
}
