/** Class `PaperStreamManager` of src/lib/paper-stream-manager.ts, updated in place; each method is
    proved equal to its step in module `PaperStream`, about whose runs the results are proved.  A
    method that awaits is split where it suspends. */
module PaperStreaming {
  import opened Basics
  import P = PaperStream

  class PaperStreamManager {
    var subscribers: map<P.Subscriber, bool>
    var controller: Option<P.Id>
    var cancelRetry: Option<P.Id>
    var cancelIdleClose: Option<P.Id>
    var failures: nat
    var connected: bool
    var token: Option<P.Token>
    var watching: bool

    // The world outside: attempts, abort signals, armed timers and pending lookups.
    var attempts: map<P.Id, P.Phase>
    var aborted: set<P.Id>
    var armed: map<P.Id, P.TimerKind>
    var lookups: set<P.Id>
    var nextId: P.Id

    function State(): P.Manager
      reads this
    {
      P.Manager(subscribers, controller, cancelRetry, cancelIdleClose, failures, connected, token, watching,
                attempts, aborted, armed, lookups, nextId)
    }

    constructor ()
      ensures State() == P.FRESH
    {
      subscribers, controller, cancelRetry, cancelIdleClose := map[], None, None, None;
      failures, connected, token, watching := 0, false, None, false;
      attempts, aborted, armed, lookups, nextId := map[], {}, map[], {}, 0;
    }

    method Schedule(kind: P.TimerKind) returns (timer: P.Id)
      modifies this
      ensures timer == old(nextId)
      ensures State() == old(State()).(armed := old(armed)[timer := kind], nextId := timer + 1)
    {
      timer := nextId;
      armed := armed[timer := kind];
      nextId := nextId + 1;
    }

    method Cancel(timer: Option<P.Id>)
      modifies this
      ensures State() == P.Disarm(old(State()), timer)
    {
      if timer.Some? { armed := armed - {timer.value}; }
    }

    method SetConnected(connected: bool)
      modifies this
      ensures State() == P.SetConnected(old(State()), connected)
    {
      if this.connected == connected { return; }
      this.connected := connected;
      subscribers := map s | s in subscribers :: connected;
    }

    /** open(), up to where it awaits the token. */
    method Open()
      modifies this
      ensures State() == P.Open(old(State()))
    {
      cancelRetry := None;
      controller := Some(nextId);
      attempts := attempts[nextId := P.AwaitingToken];
      nextId := nextId + 1;
    }

    method Subscribe(subscriber: P.Subscriber)
      modifies this
      ensures State() == P.SubscribeStep(old(State()), subscriber)
    {
      subscribers := subscribers[subscriber := connected];
      Cancel(cancelIdleClose);
      cancelIdleClose := None;
      watching := true;
      if controller.None? && cancelRetry.None? { Open(); }
    }

    /** The function subscribe() returns. */
    method Unsubscribe(subscriber: P.Subscriber)
      modifies this
      ensures State() == P.UnsubscribeStep(old(State()), subscriber)
    {
      if subscriber !in subscribers { return; }
      subscribers := subscribers - {subscriber};
      if subscribers != map[] { return; }
      var timer := Schedule(P.IdleClose);
      cancelIdleClose := Some(timer);
    }

    /** open(), from where the token arrives. */
    method TokenArrived(attempt: P.Id, token: Option<P.Token>)
      modifies this
      ensures State() == P.TokenStep(old(State()), attempt, token)
    {
      if attempt in aborted {
        attempts := attempts[attempt := P.Ended];
        return;
      }
      this.token := token;
      if P.SignedOut(token) {
        attempts := attempts[attempt := P.Ended];
        controller := None;
        SetConnected(false);
        return;
      }
      attempts := attempts[attempt := P.Live];
    }

    method OnEvent(attempt: P.Id, event: P.StreamEvent)
      modifies this
      ensures State() == P.EventStep(old(State()), attempt, event)
    {
      if attempt in aborted { return; }
      if event.Connected? {
        failures := 0;
        SetConnected(true);
      }
    }

    method OnError(attempt: P.Id)
      modifies this
      ensures State() == P.FailStep(old(State()), attempt)
    {
      attempts := attempts[attempt := P.Ended];
      if attempt in aborted { return; }
      controller := None;
      SetConnected(false);
      if subscribers == map[] { return; }
      var timer := Schedule(P.Retry);
      cancelRetry := Some(timer);
      failures := failures + 1;
    }

    method OnTimer(timer: P.Id)
      requires timer in armed
      modifies this
      ensures State() == P.TimerStep(old(State()), timer)
    {
      hide P.Open, P.Close;
      var kind := armed[timer];
      armed := armed - {timer};
      match kind
      case Retry =>
        Open();
      case IdleClose =>
        cancelIdleClose := None;
        Close();
    }

    /** onSessionChanged(), up to where it awaits the token. */
    method OnSessionChanged()
      modifies this
      ensures State() == P.SessionStep(old(State()))
    {
      if subscribers == map[] { return; }
      lookups := lookups + {nextId};
      nextId := nextId + 1;
    }

    /** onSessionChanged(), from where the token arrives. */
    method LookupDone(lookup: P.Id, token: Option<P.Token>)
      modifies this
      ensures State() == P.LookupStep(old(State()), lookup, token)
    {
      lookups := lookups - {lookup};
      if token == this.token || subscribers == map[] { return; }
      Disconnect();
      Open();
    }

    method Disconnect()
      modifies this
      ensures State() == P.Disconnect(old(State()))
    {
      Cancel(cancelRetry);
      cancelRetry := None;
      if controller.Some? { aborted := aborted + {controller.value}; }
      controller := None;
      failures := 0;
      SetConnected(false);
    }

    method Close()
      modifies this
      ensures State() == P.Close(old(State()))
    {
      Disconnect();
      watching := false;
      token := None;
    }
  }
}
