/** Class `AngelOneWorker` of server/workers/angelone-ws.ts.  Each method updates the worker's
    maps in place and is proved equal to its step function in `FeedWorker`, about whose runs
    the safety results are proved. */
module AngelOne {
  import opened Basics
  import F = FeedWorker

  class AngelOneWorker {
    var users: map<F.UserId, F.UserState>
    var connections: map<F.UserId, F.Connection>
    var reconnectTimers: map<F.UserId, F.TimerId>
    var stopped: bool

    // The world outside: far ends of the sockets, armed timers, emitted failures.
    var peers: map<F.SocketId, F.Peer>
    var armed: map<F.TimerId, F.Timer>
    var nextId: nat
    var sends: nat
    var attempts: map<F.UserId, nat>
    var failures: seq<(F.UserId, F.Reason)>
    const delivers: F.Delivery

    function State(): F.Worker
      reads this
    {
      F.Worker(users, connections, reconnectTimers, stopped, peers, armed, nextId, sends, attempts, failures)
    }

    constructor (delivers: F.Delivery)
      ensures State() == F.FRESH && this.delivers == delivers
    {
      this.delivers := delivers;
      users, connections, reconnectTimers, stopped := map[], map[], map[], true;
      peers, armed, nextId, sends, attempts, failures := map[], map[], 0, 0, map[], [];
    }

    method SendSubscription(socket: F.SocketId, action: F.Action, tokens: set<F.Token>)
      requires socket in peers
      modifies this
      ensures State() == F.Send(old(State()), socket, action, tokens, delivers)
    {
      if tokens == {} { return; }
      var peer := peers[socket];
      if !delivers(sends) {
        peer := peer.(lostFrame := true);
      } else if action.Subscribe? {
        peer := peer.(subscribed := peer.subscribed + tokens);
      } else {
        peer := peer.(subscribed := peer.subscribed - tokens);
      }
      peers := peers[socket := peer];
      sends := sends + 1;
    }

    method Connect(userId: F.UserId)
      modifies this
      ensures State() == F.Connect(old(State()), userId)
    {
      if userId !in users { return; }
      var socket := nextId;
      nextId := nextId + 1;
      peers := peers[socket := F.Peer(userId, true, {}, false)];
      attempts := attempts[userId := F.Attempts(State(), userId) + 1];
      connections := connections[userId := F.Connection(socket, false)];
    }

    method DropUser(userId: F.UserId)
      modifies this
      ensures State() == F.DropUser(old(State()), userId)
    {
      users := users - {userId};
      if userId in reconnectTimers {
        armed := armed - {reconnectTimers[userId]};
      }
      reconnectTimers := reconnectTimers - {userId};
      if userId in connections {
        var connection := connections[userId];
        connections := connections - {userId};
        Hangup(connection.socket);
      }
    }

    /** socket.close(): the far end goes; a close event may still be delivered later. */
    method Hangup(socket: F.SocketId)
      modifies this
      ensures State() == F.Hangup(old(State()), socket)
    {
      if socket in peers {
        peers := peers[socket := peers[socket].(live := false)];
      }
    }

    method AuthFailed(userId: F.UserId, reason: F.Reason)
      modifies this
      ensures State() == F.AuthFailed(old(State()), userId, reason)
    {
      failures := failures + [(userId, reason)];
      DropUser(userId);
    }

    method ManageUser(userId: F.UserId, session: F.Session, tokens: set<F.Token>)
      modifies this
      ensures State() == F.ManageUser(old(State()), userId, session, tokens)
    {
      DropUser(userId);
      users := users[userId := F.UserState(session, tokens, 0)];
      attempts := attempts[userId := 0];
      if !stopped {
        Connect(userId);
      }
    }

    method UpdateTokens(userId: F.UserId, tokens: set<F.Token>)
      modifies this
      ensures State() == F.UpdateTokens(old(State()), userId, tokens, delivers)
    {
      if userId !in users { return; }
      var previous := users[userId].tokens;
      users := users[userId := users[userId].(tokens := tokens)];
      if userId !in connections || !connections[userId].open { return; }
      var socket := connections[userId].socket;
      if socket !in peers { return; }
      SendSubscription(socket, F.Unsubscribe, previous - tokens);
      SendSubscription(socket, F.Subscribe, tokens - previous);
    }

    method Start() returns (ghost order: seq<F.UserId>)
      modifies this
      ensures NoRepeats(order) && forall u :: u in order <==> u in old(users)
      ensures State() == F.Start(old(State()), order)
    {
      stopped := false;
      ghost var started := State();
      var pending := users.Keys;
      order := [];
      while pending != {}
        invariant State() == F.ConnectAll(started, order) && users == started.users
        invariant NoRepeats(order) && pending <= users.Keys
        invariant forall u :: u in order <==> u in users.Keys - pending
        decreases pending
      {
        var u :| u in pending;
        assert u !in order;
        Connect(u);
        ConnectAllSnoc(started, order, u);
        order := order + [u];
        pending := pending - {u};
      }
    }

    method Stop() returns (ghost order: seq<F.UserId>)
      modifies this
      ensures forall u :: u in order <==> u in old(users) || u in old(connections)
      ensures State() == F.Stop(old(State()), order)
    {
      stopped := true;
      ghost var stopping := State();
      var pending := users.Keys + connections.Keys;
      ghost var all := pending;
      order := [];
      while pending != {}
        invariant State() == F.DropAll(stopping, order)
        invariant pending <= all && forall u :: u in order <==> u in all - pending
        decreases pending
      {
        var u :| u in pending;
        DropUser(u);
        DropAllSnoc(stopping, order, u);
        order := order + [u];
        pending := pending - {u};
      }
    }

    method OnOpen(socket: F.SocketId)
      requires socket in peers
      modifies this
      ensures State() == F.OnOpen(old(State()), socket, delivers)
    {
      var userId := peers[socket].user;
      if !F.IsCurrent(State(), userId, socket) { return; }
      if userId !in users { return; }
      connections := connections[userId := F.Connection(socket, true)];
      users := users[userId := users[userId].(reconnectAttempts := 0)];
      attempts := attempts[userId := 0];
      SendSubscription(socket, F.Subscribe, users[userId].tokens);
    }

    method OnMessage(socket: F.SocketId, message: F.Incoming)
      requires socket in peers
      modifies this
      ensures State() == F.OnMessage(old(State()), socket, message)
    {
      var userId := peers[socket].user;
      if !F.IsCurrent(State(), userId, socket) { return; }
      match message
      case Harmless =>
      case Rejection(aboutCredentials) =>
        if aboutCredentials { AuthFailed(userId, F.InvalidToken); }
    }

    method OnError(socket: F.SocketId, unauthorized: bool)
      requires socket in peers
      modifies this
      ensures State() == F.OnError(old(State()), socket, unauthorized)
    {
      var userId := peers[socket].user;
      if !F.IsCurrent(State(), userId, socket) { return; }
      if unauthorized { AuthFailed(userId, F.HandshakeUnauthorized); }
    }

    method OnClose(socket: F.SocketId)
      requires socket in peers
      modifies this
      ensures State() == F.OnClose(old(State()), socket)
    {
      var userId := peers[socket].user;
      Hangup(socket);
      if !F.IsCurrent(State(), userId, socket) { return; }
      connections := connections - {userId};
      if stopped || userId !in users { return; }
      var state := users[userId];
      if state.reconnectAttempts >= F.MAX_RECONNECT_ATTEMPTS {
        AuthFailed(userId, F.ReconnectExhausted);
        return;
      }
      users := users[userId := state.(reconnectAttempts := state.reconnectAttempts + 1)];
      var timer := nextId;
      nextId := nextId + 1;
      armed := armed[timer := F.Timer(userId, F.WaitMs(state.reconnectAttempts))];
      reconnectTimers := reconnectTimers[userId := timer];
    }

    method OnTimer(timer: F.TimerId)
      requires timer in armed
      modifies this
      ensures State() == F.OnTimer(old(State()), timer)
    {
      var userId := armed[timer].user;
      armed := armed - {timer};
      reconnectTimers := reconnectTimers - {userId};
      Connect(userId);
    }
  }

  lemma {:induction false} ConnectAllSnoc(w: F.Worker, order: seq<F.UserId>, u: F.UserId)
    ensures F.ConnectAll(w, order + [u]) == F.Connect(F.ConnectAll(w, order), u)
    decreases |order|
  {
    if order == [] {
      assert [u][1..] == [];
    } else {
      assert (order + [u])[1..] == order[1..] + [u];
      ConnectAllSnoc(F.Connect(w, order[0]), order[1..], u);
    }
  }

  lemma {:induction false} DropAllSnoc(w: F.Worker, order: seq<F.UserId>, u: F.UserId)
    ensures F.DropAll(w, order + [u]) == F.DropUser(F.DropAll(w, order), u)
    decreases |order|
  {
    if order == [] {
      assert [u][1..] == [];
    } else {
      assert (order + [u])[1..] == order[1..] + [u];
      DropAllSnoc(F.DropUser(w, order[0]), order[1..], u);
    }
  }
}
