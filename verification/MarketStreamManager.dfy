/** Class `MarketStreamManager` of src/hooks/use-market-quotes.ts, updated in place; each method is
    proved equal to its step in module `MarketStream`, about whose runs the results are proved. */
module MarketStreaming {
  import opened Basics
  import M = MarketStream

  class MarketStreamManager {
    var eventSource: Option<M.Id>
    var listeners: M.Listeners
    var nextSubscription: nat
    var rejectedUrl: Option<M.Url>
    var statusListeners: map<M.Callback, bool>
    var cancelReconnect: Option<M.Id>
    var failures: nat
    var isConnected: bool
    const urlOf: M.UrlOf

    // The world outside: event sources, armed timers, pending probes and their answers.
    var sources: map<M.Id, M.Source>
    var armed: set<M.Id>
    var probes: map<M.Id, M.Url>
    var answered400: set<M.Url>
    var nextId: M.Id

    function State(): M.Manager
      reads this
    {
      M.Manager(eventSource, listeners, nextSubscription, rejectedUrl, statusListeners, cancelReconnect, failures,
                isConnected, sources, armed, probes, answered400, nextId)
    }

    constructor (urlOf: M.UrlOf)
      ensures State() == M.FRESH && this.urlOf == urlOf
    {
      this.urlOf := urlOf;
      eventSource, listeners, nextSubscription, rejectedUrl := None, map[], 0, None;
      statusListeners, cancelReconnect, failures, isConnected := map[], None, 0, false;
      sources, armed, probes, answered400, nextId := map[], {}, map[], {}, 0;
    }

    method Subscribe(symbols: seq<M.Symbol>, callback: M.Callback, onStatusChange: M.Callback)
      modifies this
      ensures State() == M.SubscribeStep(old(State()), symbols, callback, onStatusChange)
    {
      hide M.SubscriptionsChanged;
      var order := nextSubscription;
      nextSubscription := nextSubscription + 1;
      ghost var after := M.AddListeners(listeners, symbols, callback, order);
      for i := 0 to |symbols|
        invariant State() == old(State()).(listeners := listeners, nextSubscription := order + 1)
        invariant M.AddListeners(listeners, symbols[i..], callback, order) == after
      {
        assert symbols[i..][1..] == symbols[i + 1..];
        var there := if symbols[i] in listeners then listeners[symbols[i]] else map[];
        listeners := listeners[symbols[i] := there[callback := order]];
      }
      statusListeners := statusListeners[onStatusChange := isConnected];
      OnSubscriptionsChanged();
    }

    /** The function subscribe() returns. */
    method Unsubscribe(symbols: seq<M.Symbol>, callback: M.Callback, onStatusChange: M.Callback)
      modifies this
      ensures State() == M.UnsubscribeStep(old(State()), symbols, callback, onStatusChange)
    {
      ghost var after := M.DropListeners(listeners, symbols, callback);
      for i := 0 to |symbols|
        invariant State() == old(State()).(listeners := listeners)
        invariant M.DropListeners(listeners, symbols[i..], callback) == after
      {
        assert symbols[i..][1..] == symbols[i + 1..];
        if symbols[i] in listeners {
          var left := listeners[symbols[i]] - {callback};
          if left == map[] {
            listeners := listeners - {symbols[i]};
          } else {
            listeners := listeners[symbols[i] := left];
          }
        }
      }
      statusListeners := statusListeners - {onStatusChange};
      OnSubscriptionsChanged();
    }

    method OnSubscriptionsChanged()
      modifies this
      ensures State() == M.SubscriptionsChanged(old(State()))
    {
      if failures > 0 && cancelReconnect.Some? { return; }
      ScheduleReconnect();
    }

    method ScheduleReconnect()
      modifies this
      ensures State() == M.Schedule(old(State()))
    {
      if cancelReconnect.Some? { armed := armed - {cancelReconnect.value}; }
      armed := armed + {nextId};
      cancelReconnect := Some(nextId);
      nextId := nextId + 1;
    }

    method CloseSource(source: M.Id)
      modifies this
      ensures State() == M.CloseSource(old(State()), source)
    {
      if source in sources { sources := sources[source := sources[source].(readyState := M.CLOSED)]; }
    }

    method OnTimer(timer: M.Id, constructs: bool)
      modifies this
      ensures State() == M.TimerStep(old(State()), urlOf, timer, constructs)
    {
      hide M.Reconnect;
      armed := armed - {timer};
      cancelReconnect := None;
      Reconnect(constructs);
    }

    method Reconnect(constructs: bool)
      modifies this
      ensures State() == M.Reconnect(old(State()), urlOf, constructs)
    {
      hide M.SetConnected, M.Schedule;
      if eventSource.Some? {
        CloseSource(eventSource.value);
        eventSource := None;
      }
      if listeners == map[] {
        failures := 0;
        SetConnected(false);
        return;
      }
      var url := urlOf(listeners);
      if rejectedUrl == Some(url) {
        failures := 0;
        SetConnected(false);
        return;
      }
      if !constructs {
        failures := failures + 1;
        ScheduleReconnect();
        return;
      }
      eventSource := Some(nextId);
      sources := sources[nextId := M.Source(url, false, M.CONNECTING)];
      nextId := nextId + 1;
    }

    method OnOpen(source: M.Id)
      requires source in sources
      modifies this
      ensures State() == M.OpenedStep(old(State()), source)
    {
      sources := sources[source := sources[source].(wasOpen := true, readyState := M.OPEN)];
      failures := 0;
      SetConnected(true);
    }

    method OnError(source: M.Id)
      requires source in sources
      modifies this
      ensures State() == M.HandleError(old(State()), source)
    {
      hide M.Schedule;
      CloseSource(source);
      if eventSource == Some(source) { eventSource := None; }
      SetConnected(false);
      if !sources[source].wasOpen && sources[source].readyState == M.CLOSED {
        probes := probes[nextId := sources[source].url];
        nextId := nextId + 1;
        return;
      }
      failures := failures + 1;
      ScheduleReconnect();
    }

    method OnProbed(probe: M.Id, status: int)
      requires probe in probes
      modifies this
      ensures State() == M.ProbedStep(old(State()), probe, status)
    {
      var url := probes[probe];
      probes := probes - {probe};
      if status == 400 { answered400 := answered400 + {url}; }
      if eventSource.Some? || cancelReconnect.Some? { return; }
      if status == 400 {
        rejectedUrl := Some(url);
        failures := 0;
        return;
      }
      failures := failures + 1;
      ScheduleReconnect();
    }

    method SetConnected(connected: bool)
      modifies this
      ensures State() == M.SetConnected(old(State()), connected)
    {
      if isConnected == connected { return; }
      isConnected := connected;
      statusListeners := map s | s in statusListeners :: connected;
    }
  }
}
