/** The market-feed socket worker, server/workers/angelone-ws.ts.

    `Worker` is the worker's own state (users, connections, reconnect timers, the stopped
    flag) together with the world it talks to: the far end of every socket ever created,
    the timers that are armed, and the auth_failed events emitted.  Every handler and
    method is a function on `Worker`; class `AngelOneWorker` implements them by updating
    its fields.  The environment may deliver any event of any socket ever created, at any
    time and in any order, and may lose any frame. */
module FeedWorker {
  import opened Basics

  type UserId = string
  type Token = string
  type Session = string
  type SocketId = nat
  type TimerId = nat

  const MAX_RECONNECT_ATTEMPTS: nat := 10
  const MAX_WAIT_MS: nat := 30_000
  const BASE_WAIT_MS: nat := 500

  datatype UserState = UserState(session: Session, tokens: set<Token>, reconnectAttempts: nat)
  datatype Connection = Connection(socket: SocketId, open: bool)
  datatype Action = Unsubscribe | Subscribe
  datatype Reason = InvalidToken | ReconnectExhausted | HandshakeUnauthorized

  /** What a message frame amounts to for the worker: ticks, pongs and unparsable packets
      are all `Harmless`; a provider rejection may or may not be about the credentials. */
  datatype Incoming = Harmless | Rejection(aboutCredentials: bool)

  /** The far end of one socket: who it was opened for, whether it is still live, what the
      provider has subscribed on it, and whether a frame sent on it was lost. */
  datatype Peer = Peer(user: UserId, live: bool, subscribed: set<Token>, lostFrame: bool)

  datatype Timer = Timer(user: UserId, waitMs: nat)

  datatype Worker = Worker(
    users: map<UserId, UserState>,
    connections: map<UserId, Connection>,
    reconnectTimers: map<UserId, TimerId>,
    stopped: bool,
    peers: map<SocketId, Peer>,
    armed: map<TimerId, Timer>,
    nextId: nat,
    sends: nat,
    attempts: map<UserId, nat>,
    failures: seq<(UserId, Reason)>)

  /** Which of the frames sent so far reach the provider, by position. */
  type Delivery = nat -> bool

  const FRESH := Worker(map[], map[], map[], true, map[], map[], 0, 0, map[], [])

  function WaitMs(attempts: nat): nat {
    var wait := BASE_WAIT_MS * Pow2(attempts);
    if wait < MAX_WAIT_MS then wait else MAX_WAIT_MS
  }

  predicate IsCurrent(w: Worker, u: UserId, s: SocketId) {
    u in w.connections && w.connections[u].socket == s
  }

  /** Connection attempts for `u` since it was last managed or last had an open socket. */
  function Attempts(w: Worker, u: UserId): nat {
    if u in w.attempts then w.attempts[u] else 0
  }

  function Send(w: Worker, s: SocketId, action: Action, tokens: set<Token>, delivers: Delivery): Worker
    requires s in w.peers
  {
    if tokens == {} then w
    else
      var peer := w.peers[s];
      var after :=
        if !delivers(w.sends) then peer.(lostFrame := true)
        else if action.Subscribe? then peer.(subscribed := peer.subscribed + tokens)
        else peer.(subscribed := peer.subscribed - tokens);
      w.(peers := w.peers[s := after], sends := w.sends + 1)
  }

  function Connect(w: Worker, u: UserId): Worker {
    if u !in w.users then w
    else
      w.(connections := w.connections[u := Connection(w.nextId, false)],
         peers := w.peers[w.nextId := Peer(u, true, {}, false)],
         nextId := w.nextId + 1,
         attempts := w.attempts[u := Attempts(w, u) + 1])
  }

  function Hangup(w: Worker, s: SocketId): Worker {
    if s in w.peers then w.(peers := w.peers[s := w.peers[s].(live := false)]) else w
  }

  function DropUser(w: Worker, u: UserId): Worker {
    var w1 := w.(users := w.users - {u},
                 armed := if u in w.reconnectTimers then w.armed - {w.reconnectTimers[u]} else w.armed,
                 reconnectTimers := w.reconnectTimers - {u});
    if u in w1.connections then
      Hangup(w1.(connections := w1.connections - {u}), w1.connections[u].socket)
    else w1
  }

  function AuthFailed(w: Worker, u: UserId, reason: Reason): Worker {
    DropUser(w.(failures := w.failures + [(u, reason)]), u)
  }

  function ManageUser(w: Worker, u: UserId, session: Session, tokens: set<Token>): Worker {
    var w1 := DropUser(w, u);
    var w2 := w1.(users := w1.users[u := UserState(session, tokens, 0)], attempts := w1.attempts[u := 0]);
    if w2.stopped then w2 else Connect(w2, u)
  }

  function UpdateTokens(w: Worker, u: UserId, tokens: set<Token>, delivers: Delivery): Worker {
    if u !in w.users then w
    else
      var previous := w.users[u].tokens;
      var w1 := w.(users := w.users[u := w.users[u].(tokens := tokens)]);
      if u !in w1.connections || !w1.connections[u].open || w1.connections[u].socket !in w1.peers then w1
      else
        var s := w1.connections[u].socket;
        Send(Send(w1, s, Unsubscribe, previous - tokens, delivers), s, Subscribe, tokens - previous, delivers)
  }

  function ConnectAll(w: Worker, order: seq<UserId>): Worker
    decreases |order|
  {
    if order == [] then w else ConnectAll(Connect(w, order[0]), order[1..])
  }

  function Start(w: Worker, order: seq<UserId>): Worker {
    ConnectAll(w.(stopped := false), order)
  }

  function DropAll(w: Worker, order: seq<UserId>): Worker
    decreases |order|
  {
    if order == [] then w else DropAll(DropUser(w, order[0]), order[1..])
  }

  function Stop(w: Worker, order: seq<UserId>): Worker {
    DropAll(w.(stopped := true), order)
  }

  function OnOpen(w: Worker, s: SocketId, delivers: Delivery): Worker
    requires s in w.peers
  {
    var u := w.peers[s].user;
    if !IsCurrent(w, u, s) || u !in w.users then w
    else
      var w1 := w.(connections := w.connections[u := Connection(s, true)],
                   users := w.users[u := w.users[u].(reconnectAttempts := 0)],
                   attempts := w.attempts[u := 0]);
      Send(w1, s, Subscribe, w1.users[u].tokens, delivers)
  }

  function OnMessage(w: Worker, s: SocketId, message: Incoming): Worker
    requires s in w.peers
  {
    var u := w.peers[s].user;
    if IsCurrent(w, u, s) && message == Rejection(true) then AuthFailed(w, u, InvalidToken) else w
  }

  function OnError(w: Worker, s: SocketId, unauthorized: bool): Worker
    requires s in w.peers
  {
    var u := w.peers[s].user;
    if IsCurrent(w, u, s) && unauthorized then AuthFailed(w, u, HandshakeUnauthorized) else w
  }

  function OnClose(w: Worker, s: SocketId): Worker
    requires s in w.peers
  {
    var u := w.peers[s].user;
    var w1 := Hangup(w, s);
    if !IsCurrent(w1, u, s) then w1
    else
      var w2 := w1.(connections := w1.connections - {u});
      if w2.stopped || u !in w2.users then w2
      else if w2.users[u].reconnectAttempts >= MAX_RECONNECT_ATTEMPTS then AuthFailed(w2, u, ReconnectExhausted)
      else
        var state := w2.users[u];
        w2.(users := w2.users[u := state.(reconnectAttempts := state.reconnectAttempts + 1)],
            reconnectTimers := w2.reconnectTimers[u := w2.nextId],
            armed := w2.armed[w2.nextId := Timer(u, WaitMs(state.reconnectAttempts))],
            nextId := w2.nextId + 1)
  }

  function OnTimer(w: Worker, t: TimerId): Worker
    requires t in w.armed
  {
    var u := w.armed[t].user;
    Connect(w.(armed := w.armed - {t}, reconnectTimers := w.reconnectTimers - {u}), u)
  }

  // ------------------------------------------------------------------ invariant

  /** On an open socket that lost no frame the provider has exactly the user's tokens. */
  ghost predicate Mirrored(peer: Peer, open: bool, tokens: set<Token>) {
    if open then peer.lostFrame || peer.subscribed == tokens
    else peer.subscribed == {} && !peer.lostFrame
  }

  ghost predicate UserOk(w: Worker, u: UserId) {
    && (u in w.connections ==>
          && u in w.users && u !in w.reconnectTimers && !w.stopped
          && w.connections[u].socket in w.peers
          && w.peers[w.connections[u].socket].user == u
          && w.peers[w.connections[u].socket].live
          && Mirrored(w.peers[w.connections[u].socket], w.connections[u].open, w.users[u].tokens))
    && (u in w.reconnectTimers ==>
          && u in w.users && !w.stopped
          && w.reconnectTimers[u] in w.armed
          && w.armed[w.reconnectTimers[u]].user == u)
    && (u in w.users ==>
          && w.users[u].reconnectAttempts <= MAX_RECONNECT_ATTEMPTS
          && Attempts(w, u) <= w.users[u].reconnectAttempts + (if u in w.connections then 1 else 0))
  }

  /** A live socket is its user's current one. */
  ghost predicate SocketOk(w: Worker, s: SocketId) {
    s in w.peers ==> s < w.nextId && (w.peers[s].live ==> IsCurrent(w, w.peers[s].user, s))
  }

  /** An armed timer is its user's recorded one. */
  ghost predicate TimerOk(w: Worker, t: TimerId) {
    t in w.armed ==>
      && t < w.nextId
      && w.armed[t].waitMs <= MAX_WAIT_MS
      && w.armed[t].user in w.reconnectTimers
      && w.reconnectTimers[w.armed[t].user] == t
  }

  /** While running, a managed user has a current socket or a pending reconnect. */
  ghost predicate Served(w: Worker, u: UserId) {
    !w.stopped && u in w.users ==> u in w.connections || u in w.reconnectTimers
  }

  ghost predicate Core(w: Worker) {
    && (forall u :: UserOk(w, u))
    && (forall s :: SocketOk(w, s))
    && (forall t :: TimerOk(w, t))
  }

  ghost predicate Inv(w: Worker) {
    Core(w) && forall u :: Served(w, u)
  }

  // ------------------------------------------------------- preservation, step by step

  lemma SendKeeps(w: Worker, u: UserId, action: Action, tokens: set<Token>, delivers: Delivery)
    requires forall v | v != u :: UserOk(w, v)
    requires forall s :: SocketOk(w, s)
    requires forall t :: TimerOk(w, t)
    requires u in w.connections && w.connections[u].socket in w.peers
    requires w.peers[w.connections[u].socket].user == u
    ensures var w' := Send(w, w.connections[u].socket, action, tokens, delivers);
      var s := w.connections[u].socket;
      && (forall v | v != u :: UserOk(w', v))
      && (forall s :: SocketOk(w', s))
      && (forall t :: TimerOk(w', t))
      && w' == w.(peers := w.peers[s := w'.peers[s]], sends := w'.sends)
      && w'.peers[s] == w.peers[s].(subscribed := w'.peers[s].subscribed, lostFrame := w'.peers[s].lostFrame)
      && (w.peers[s].lostFrame ==> w'.peers[s].lostFrame)
      && (w'.peers[s].lostFrame || w'.peers[s].subscribed ==
            if action.Subscribe? then w.peers[s].subscribed + tokens else w.peers[s].subscribed - tokens)
  {
    var s := w.connections[u].socket;
    var w' := Send(w, s, action, tokens, delivers);
    assert SocketOk(w, s);
    forall v | v != u ensures UserOk(w', v) { assert UserOk(w, v); }
    forall r ensures SocketOk(w', r) { assert SocketOk(w, r); }
    forall t ensures TimerOk(w', t) { assert TimerOk(w, t); }
    if tokens == {} { assert w.peers[s := w.peers[s]] == w.peers; }
  }

  lemma ConnectKeeps(w: Worker, u: UserId)
    requires Core(w) && !w.stopped && u in w.users
    requires u !in w.connections && u !in w.reconnectTimers
    ensures Core(Connect(w, u))
    ensures forall v | v == u || Served(w, v) :: Served(Connect(w, u), v)
  {
    var w' := Connect(w, u);
    assert SocketOk(w, w.nextId);
    forall v ensures UserOk(w', v) { assert UserOk(w, v); }
    forall s ensures SocketOk(w', s) { assert SocketOk(w, s); }
    forall t ensures TimerOk(w', t) { assert TimerOk(w, t); }
  }

  lemma DropUserFrame(w: Worker, u: UserId)
    ensures var w' := DropUser(w, u);
      && w'.users == w.users - {u} && u !in w'.connections && u !in w'.reconnectTimers
      && w'.peers.Keys == w.peers.Keys && w'.armed.Keys <= w.armed.Keys
      && w' == w.(users := w'.users, connections := w.connections - {u}, reconnectTimers := w.reconnectTimers - {u},
                  armed := w'.armed, peers := w'.peers)
  {
    if u !in w.connections { assert w.connections - {u} == w.connections; }
  }

  lemma DropUserKeeps(w: Worker, u: UserId)
    requires Core(w)
    ensures Core(DropUser(w, u))
    ensures forall v | Served(w, v) :: Served(DropUser(w, u), v)
  {
    var w' := DropUser(w, u);
    DropUserFrame(w, u);
    assert UserOk(w, u);
    forall s ensures SocketOk(w', s) { assert SocketOk(w, s); }
    forall t ensures TimerOk(w', t) { assert TimerOk(w, t); }
    forall v ensures UserOk(w', v) { assert UserOk(w, v); }
  }

  lemma AuthFailedKeeps(w: Worker, u: UserId, reason: Reason)
    requires Inv(w)
    ensures var w' := AuthFailed(w, u, reason);
      && Inv(w') && u !in w'.users && u !in w'.reconnectTimers
      && w'.failures == w.failures + [(u, reason)]
      && w'.peers.Keys == w.peers.Keys && w'.armed.Keys <= w.armed.Keys && w'.stopped == w.stopped
  {
    var noted := w.(failures := w.failures + [(u, reason)]);
    forall v ensures UserOk(noted, v) { assert UserOk(w, v); }
    forall s ensures SocketOk(noted, s) { assert SocketOk(w, s); }
    forall t ensures TimerOk(noted, t) { assert TimerOk(w, t); }
    DropUserKeeps(noted, u);
    DropUserFrame(noted, u);
    forall v ensures Served(AuthFailed(w, u, reason), v) { assert Served(w, v); assert Served(noted, v); }
  }

  lemma ManageUserKeeps(w: Worker, u: UserId, session: Session, tokens: set<Token>)
    requires Inv(w)
    ensures Inv(ManageUser(w, u, session, tokens))
    ensures ManageUser(w, u, session, tokens).users == w.users[u := UserState(session, tokens, 0)]
    ensures ManageUser(w, u, session, tokens).stopped == w.stopped
    ensures w.stopped ==>
      && ManageUser(w, u, session, tokens).peers.Keys == w.peers.Keys
      && ManageUser(w, u, session, tokens).armed.Keys <= w.armed.Keys
  {
    DropUserKeeps(w, u);
    DropUserFrame(w, u);
    var w1 := DropUser(w, u);
    var w2 := w1.(users := w1.users[u := UserState(session, tokens, 0)], attempts := w1.attempts[u := 0]);
    forall v ensures UserOk(w2, v) { assert UserOk(w1, v); }
    forall s ensures SocketOk(w2, s) { assert SocketOk(w1, s); }
    forall t ensures TimerOk(w2, t) { assert TimerOk(w1, t); }
    forall v | v != u ensures Served(w2, v) { assert Served(w, v); assert Served(w1, v); }
    if !w2.stopped { ConnectKeeps(w2, u); }
  }

  lemma UpdateTokensKeeps(w: Worker, u: UserId, tokens: set<Token>, delivers: Delivery)
    requires Inv(w)
    ensures var w' := UpdateTokens(w, u, tokens, delivers);
      && Inv(w')
      && w'.users == (if u in w.users then w.users[u := w.users[u].(tokens := tokens)] else w.users)
      && w'.connections == w.connections && w'.stopped == w.stopped && w'.armed == w.armed
      && w'.peers.Keys == w.peers.Keys
  {
    if u in w.users {
      var w1 := w.(users := w.users[u := w.users[u].(tokens := tokens)]);
      assert UserOk(w, u);
      forall v | v != u ensures UserOk(w1, v) { assert UserOk(w, v); }
      forall s ensures SocketOk(w1, s) { assert SocketOk(w, s); }
      forall t ensures TimerOk(w1, t) { assert TimerOk(w, t); }
      if u in w1.connections && w1.connections[u].open {
        var s := w1.connections[u].socket;
        var previous := w.users[u].tokens;
        SendKeeps(w1, u, Unsubscribe, previous - tokens, delivers);
        var w2 := Send(w1, s, Unsubscribe, previous - tokens, delivers);
        SendKeeps(w2, u, Subscribe, tokens - previous, delivers);
        assert previous - (previous - tokens) + (tokens - previous) == tokens;
        assert UserOk(UpdateTokens(w, u, tokens, delivers), u);
      } else {
        assert UserOk(w1, u);
      }
      var w' := UpdateTokens(w, u, tokens, delivers);
      forall v ensures Served(w', v) { assert Served(w, v); }
    }
  }

  lemma OnOpenKeeps(w: Worker, s: SocketId, delivers: Delivery)
    requires Inv(w) && s in w.peers
    ensures Inv(OnOpen(w, s, delivers))
    ensures OnOpen(w, s, delivers).users.Keys == w.users.Keys
    ensures forall v <- w.users :: OnOpen(w, s, delivers).users[v].tokens == w.users[v].tokens
    ensures w.stopped ==> OnOpen(w, s, delivers) == w
  {
    var u := w.peers[s].user;
    assert UserOk(w, u);
    if IsCurrent(w, u, s) {
      var w1 := w.(connections := w.connections[u := Connection(s, true)],
                   users := w.users[u := w.users[u].(reconnectAttempts := 0)],
                   attempts := w.attempts[u := 0]);
      forall v | v != u ensures UserOk(w1, v) { assert UserOk(w, v); }
      forall r ensures SocketOk(w1, r) { assert SocketOk(w, r); }
      forall t ensures TimerOk(w1, t) { assert TimerOk(w, t); }
      SendKeeps(w1, u, Subscribe, w1.users[u].tokens, delivers);
      var w' := OnOpen(w, s, delivers);
      assert UserOk(w', u);
      forall v ensures Served(w', v) { assert Served(w, v); }
    }
  }

  lemma OnCloseKeeps(w: Worker, s: SocketId)
    requires Inv(w) && s in w.peers
    ensures Inv(OnClose(w, s))
    ensures OnClose(w, s).users.Keys <= w.users.Keys
    ensures forall v <- OnClose(w, s).users :: OnClose(w, s).users[v].tokens == w.users[v].tokens
    ensures w.stopped ==> OnClose(w, s) == w
  {
    var u := w.peers[s].user;
    assert UserOk(w, u);
    assert SocketOk(w, s);
    if !IsCurrent(w, u, s) {
      assert w.peers[s := w.peers[s].(live := false)] == w.peers;
    } else if w.users[u].reconnectAttempts >= MAX_RECONNECT_ATTEMPTS {
      GivingUpDrops(w, u, s);
    } else {
      RetryKeeps(w, s);
    }
  }

  lemma RetryKeeps(w: Worker, s: SocketId)
    requires Inv(w) && s in w.peers && IsCurrent(w, w.peers[s].user, s)
    requires w.peers[s].user in w.users && w.users[w.peers[s].user].reconnectAttempts < MAX_RECONNECT_ATTEMPTS
    ensures Inv(OnClose(w, s))
  {
    var u, w' := w.peers[s].user, OnClose(w, s);
    assert UserOk(w, u) && SocketOk(w, s) && TimerOk(w, w.nextId);
    forall v ensures UserOk(w', v) { assert UserOk(w, v); }
    forall r ensures SocketOk(w', r) { assert SocketOk(w, r); }
    forall t ensures TimerOk(w', t) { assert TimerOk(w, t); }
    forall v ensures Served(w', v) { assert Served(w, v); }
  }

  /** Closing the current socket for good is the same as dropping its user. */
  lemma GivingUpDrops(w: Worker, u: UserId, s: SocketId)
    requires Inv(w) && IsCurrent(w, u, s) && s in w.peers && w.peers[s].user == u
    requires u in w.users && w.users[u].reconnectAttempts >= MAX_RECONNECT_ATTEMPTS
    ensures OnClose(w, s) == AuthFailed(w, u, ReconnectExhausted)
    ensures Inv(OnClose(w, s))
  {
    AuthFailedKeeps(w, u, ReconnectExhausted);
    assert UserOk(w, u);
    assert w.connections - {u} - {u} == w.connections - {u};
    assert w.reconnectTimers - {u} == w.reconnectTimers;
  }

  lemma OnTimerKeeps(w: Worker, t: TimerId)
    requires Inv(w) && t in w.armed
    ensures Inv(OnTimer(w, t)) && OnTimer(w, t).users == w.users
    ensures !w.stopped
  {
    var u := w.armed[t].user;
    var w1 := w.(armed := w.armed - {t}, reconnectTimers := w.reconnectTimers - {u});
    assert TimerOk(w, t);
    assert UserOk(w, u);
    forall v ensures UserOk(w1, v) { assert UserOk(w, v); }
    forall s ensures SocketOk(w1, s) { assert SocketOk(w, s); }
    forall r ensures TimerOk(w1, r) { assert TimerOk(w, r); }
    forall v | v != u ensures Served(w1, v) { assert Served(w, v); }
    ConnectKeeps(w1, u);
  }

  lemma {:induction false} ConnectAllKeeps(w: Worker, order: seq<UserId>)
    requires Core(w) && !w.stopped && NoRepeats(order)
    requires forall u :: u in order || Served(w, u)
    requires forall u <- order :: u in w.users && u !in w.connections && u !in w.reconnectTimers
    ensures Inv(ConnectAll(w, order))
    ensures ConnectAll(w, order).users == w.users
    decreases |order|
  {
    if order != [] {
      ConnectKeeps(w, order[0]);
      assert forall u :: u in order <==> u == order[0] || u in order[1..];
      ConnectAllKeeps(Connect(w, order[0]), order[1..]);
    }
  }

  lemma StartKeeps(w: Worker, order: seq<UserId>)
    requires Inv(w) && w.stopped && NoRepeats(order) && (forall u :: u in order <==> u in w.users)
    ensures Inv(Start(w, order)) && Start(w, order).users == w.users
  {
    var w1 := w.(stopped := false);
    forall u ensures UserOk(w1, u) && (u in order || Served(w1, u)) { assert UserOk(w, u); }
    forall s ensures SocketOk(w1, s) { assert SocketOk(w, s); }
    forall t ensures TimerOk(w1, t) { assert TimerOk(w, t); }
    forall u <- order ensures u !in w.connections && u !in w.reconnectTimers { assert UserOk(w, u); }
    ConnectAllKeeps(w1, order);
  }

  /** stop() is running: `stopped` is set but some users are not dropped yet. */
  ghost predicate Stopping(w: Worker) {
    w.stopped && Core(w.(stopped := false))
  }

  lemma {:induction false} DropAllKeeps(w: Worker, order: seq<UserId>)
    requires Stopping(w)
    ensures var w' := DropAll(w, order);
      && Stopping(w') && w'.peers.Keys == w.peers.Keys
      && (forall u :: u in w'.users <==> u in w.users && u !in order)
    decreases |order|
  {
    if order != [] {
      var u := order[0];
      DropUserKeeps(w.(stopped := false), u);
      DropUserFrame(w, u);
      assert DropUser(w, u).(stopped := false) == DropUser(w.(stopped := false), u);
      DropAllKeeps(DropUser(w, u), order[1..]);
      assert forall v :: v in order <==> v == order[0] || v in order[1..];
    }
  }

  /** stop() leaves no user, no connection, no timer and no live socket. */
  lemma StopKeeps(w: Worker, order: seq<UserId>)
    requires Inv(w) && (forall u :: u in w.users || u in w.connections ==> u in order)
    ensures var w' := Stop(w, order);
      && Inv(w') && w'.stopped && w'.peers.Keys == w.peers.Keys
      && w'.users == map[] && w'.connections == map[] && w'.armed == map[]
      && forall s <- w'.peers :: !w'.peers[s].live
  {
    var w1 := w.(stopped := true);
    var w0 := w1.(stopped := false);
    forall u ensures UserOk(w0, u) { assert UserOk(w, u); }
    forall s ensures SocketOk(w0, s) { assert SocketOk(w, s); }
    forall t ensures TimerOk(w0, t) { assert TimerOk(w, t); }
    DropAllKeeps(w1, order);
    var w' := Stop(w, order);
    var w2 := w'.(stopped := false);
    forall u ensures u !in w'.users && u !in w'.connections && u !in w'.reconnectTimers && UserOk(w', u) {
      assert UserOk(w2, u);
    }
    forall s ensures SocketOk(w', s) && (s in w'.peers ==> !w'.peers[s].live) { assert SocketOk(w2, s); }
    forall t ensures TimerOk(w', t) && t !in w'.armed { assert TimerOk(w2, t); }
    assert w'.users.Keys == {} && w'.connections.Keys == {} && w'.armed.Keys == {};
  }

  // ------------------------------------------------------------------ all runs

  datatype Event =
    | Manage(user: UserId, session: Session, tokens: set<Token>)
    | Update(user: UserId, tokens: set<Token>)
    | Drop(user: UserId)
    | Started(order: seq<UserId>)
    | Halted(order: seq<UserId>)
    | Opened(socket: SocketId)
    | Received(socket: SocketId, message: Incoming)
    | Closed(socket: SocketId)
    | Errored(socket: SocketId, unauthorized: bool)
    | Fired(timer: TimerId)

  /** start() is called only while stopped; start() and stop() iterate all users; a socket event
      needs a socket that was created; a timer fires while armed. */
  ghost predicate Enabled(w: Worker, e: Event) {
    match e
    case Started(order) => w.stopped && NoRepeats(order) && (forall u :: u in order <==> u in w.users)
    case Halted(order) => forall u :: u in w.users || u in w.connections ==> u in order
    case Opened(s) => s in w.peers
    case Received(s, _) => s in w.peers
    case Closed(s) => s in w.peers
    case Errored(s, _) => s in w.peers
    case Fired(t) => t in w.armed
    case _ => true
  }

  ghost function Apply(w: Worker, e: Event, delivers: Delivery): Worker
    requires Enabled(w, e)
  {
    match e
    case Manage(u, session, tokens) => ManageUser(w, u, session, tokens)
    case Update(u, tokens) => UpdateTokens(w, u, tokens, delivers)
    case Drop(u) => DropUser(w, u)
    case Started(order) => Start(w, order)
    case Halted(order) => Stop(w, order)
    case Opened(s) => OnOpen(w, s, delivers)
    case Received(s, m) => OnMessage(w, s, m)
    case Closed(s) => OnClose(w, s)
    case Errored(s, unauthorized) => OnError(w, s, unauthorized)
    case Fired(t) => OnTimer(w, t)
  }

  /** `states` is a run of `events`: one enabled step after another from `FRESH`. */
  ghost predicate IsRun(states: seq<Worker>, events: seq<Event>, delivers: Delivery) {
    && |states| == |events| + 1
    && states[0] == FRESH
    && forall i | 0 <= i < |events| ::
         Enabled(states[i], events[i]) && states[i + 1] == Apply(states[i], events[i], delivers)
  }

  lemma DropKeeps(w: Worker, u: UserId)
    requires Inv(w)
    ensures Inv(DropUser(w, u))
  {
    DropUserKeeps(w, u);
    forall v ensures Served(DropUser(w, u), v) { assert Served(w, v); }
  }

  lemma StepKeeps(w: Worker, e: Event, delivers: Delivery)
    requires Inv(w) && Enabled(w, e)
    ensures Inv(Apply(w, e, delivers))
  {
    match e
    case Manage(u, session, tokens) => ManageUserKeeps(w, u, session, tokens);
    case Update(u, tokens) => UpdateTokensKeeps(w, u, tokens, delivers);
    case Drop(u) => DropKeeps(w, u);
    case Started(order) => StartKeeps(w, order);
    case Halted(order) => StopKeeps(w, order);
    case Opened(s) => OnOpenKeeps(w, s, delivers);
    case Received(s, _) => AuthFailedKeeps(w, w.peers[s].user, InvalidToken);
    case Closed(s) => OnCloseKeeps(w, s);
    case Errored(s, _) => AuthFailedKeeps(w, w.peers[s].user, HandshakeUnauthorized);
    case Fired(t) => OnTimerKeeps(w, t);
  }

  lemma FreshIsSafe()
    ensures Inv(FRESH)
  {
    forall u ensures UserOk(FRESH, u) && Served(FRESH, u) { }
    forall s ensures SocketOk(FRESH, s) { }
    forall t ensures TimerOk(FRESH, t) { }
  }

  /** Main result: the invariant holds throughout every run, whatever the environment does. */
  lemma {:induction false} RunsAreSafe(states: seq<Worker>, events: seq<Event>, delivers: Delivery, i: nat)
    requires IsRun(states, events, delivers) && i < |states|
    ensures Inv(states[i])
  {
    if i == 0 {
      FreshIsSafe();
    } else {
      RunsAreSafe(states, events, delivers, i - 1);
      StepKeeps(states[i - 1], events[i - 1], delivers);
    }
  }

  /** In every reachable state: a live socket is its user's only one and no reconnect of that
      user is pending; attempts since the last open never exceed eleven; while running, every
      managed user has a live socket or a pending reconnect. */
  lemma OneLiveSocketPerUser(states: seq<Worker>, events: seq<Event>, delivers: Delivery, i: nat, u: UserId)
    requires IsRun(states, events, delivers) && i < |states| && u in states[i].users
    ensures var w := states[i];
      && Attempts(w, u) <= MAX_RECONNECT_ATTEMPTS + 1
      && (forall s, r | s in w.peers && r in w.peers ::
            w.peers[s].user == u == w.peers[r].user && w.peers[s].live && w.peers[r].live ==> s == r)
      && (forall s, t | s in w.peers && t in w.armed ::
            w.peers[s].live && w.peers[s].user == u ==> w.armed[t].user != u)
      && (!w.stopped ==>
            || (exists s :: s in w.peers && w.peers[s].live && w.peers[s].user == u)
            || (exists t :: t in w.armed && w.armed[t].user == u))
  {
    RunsAreSafe(states, events, delivers, i);
    var w := states[i];
    assert UserOk(w, u) && Served(w, u);
    forall s, r | s in w.peers && r in w.peers && w.peers[s].user == u == w.peers[r].user &&
                   w.peers[s].live && w.peers[r].live
      ensures s == r
    {
      assert SocketOk(w, s) && SocketOk(w, r);
    }
    forall s, t | s in w.peers && t in w.armed && w.peers[s].live && w.peers[s].user == u
      ensures w.armed[t].user != u
    {
      assert SocketOk(w, s) && TimerOk(w, t);
    }
  }

  /** Main result: on every open current socket that lost no frame, the provider is subscribed to
      exactly the user's tokens, and no frame is ever lost that the network delivered
      (`LossesAreReal`); and a socket still connecting has been sent nothing. */
  lemma ProviderMirrorsTokens(states: seq<Worker>, events: seq<Event>, delivers: Delivery, i: nat, u: UserId)
    requires IsRun(states, events, delivers) && i < |states| && u in states[i].connections
    ensures var w := states[i];
      && u in w.users && w.connections[u].socket in w.peers
      && var peer := w.peers[w.connections[u].socket];
      if w.connections[u].open then peer.lostFrame || peer.subscribed == w.users[u].tokens
      else peer.subscribed == {} && !peer.lostFrame
  {
    RunsAreSafe(states, events, delivers, i);
    assert UserOk(states[i], u);
  }

  /** While every frame sent so far was delivered, no socket has lost one. */
  ghost predicate Honest(w: Worker, delivers: Delivery) {
    (forall n | 0 <= n < w.sends :: delivers(n)) ==> forall s <- w.peers :: !w.peers[s].lostFrame
  }

  lemma SendHonest(w: Worker, s: SocketId, action: Action, tokens: set<Token>, delivers: Delivery)
    requires s in w.peers && Honest(w, delivers)
    ensures Honest(Send(w, s, action, tokens, delivers), delivers)
  {
    if tokens != {} && !delivers(w.sends) { assert Send(w, s, action, tokens, delivers).sends > w.sends; }
  }

  lemma {:induction false} ConnectAllHonest(w: Worker, order: seq<UserId>, delivers: Delivery)
    requires Honest(w, delivers)
    ensures Honest(ConnectAll(w, order), delivers)
    decreases |order|
  {
    if order != [] { ConnectAllHonest(Connect(w, order[0]), order[1..], delivers); }
  }

  lemma {:induction false} DropAllHonest(w: Worker, order: seq<UserId>, delivers: Delivery)
    requires Honest(w, delivers)
    ensures Honest(DropAll(w, order), delivers)
    decreases |order|
  {
    if order != [] { DropAllHonest(DropUser(w, order[0]), order[1..], delivers); }
  }

  lemma UpdateHonest(w: Worker, u: UserId, tokens: set<Token>, delivers: Delivery)
    requires Honest(w, delivers)
    ensures Honest(UpdateTokens(w, u, tokens, delivers), delivers)
  {
    hide Send;
    if u in w.users {
      var w1 := w.(users := w.users[u := w.users[u].(tokens := tokens)]);
      if u in w1.connections && w1.connections[u].open && w1.connections[u].socket in w1.peers {
        var s, gone := w1.connections[u].socket, w.users[u].tokens - tokens;
        SendHonest(w1, s, Unsubscribe, gone, delivers);
        SentInPeers(w1, s, Unsubscribe, gone, delivers);
        SendHonest(Send(w1, s, Unsubscribe, gone, delivers), s, Subscribe, tokens - w.users[u].tokens, delivers);
      }
    }
  }

  lemma OpenHonest(w: Worker, s: SocketId, delivers: Delivery)
    requires s in w.peers && Honest(w, delivers)
    ensures Honest(OnOpen(w, s, delivers), delivers)
  {
    hide Send;
    var u := w.peers[s].user;
    if IsCurrent(w, u, s) && u in w.users {
      var w1 := w.(connections := w.connections[u := Connection(s, true)],
                   users := w.users[u := w.users[u].(reconnectAttempts := 0)],
                   attempts := w.attempts[u := 0]);
      SendHonest(w1, s, Subscribe, w1.users[u].tokens, delivers);
    }
  }

  /** Only frames that were in fact lost count as lost. */
  lemma {:induction false} LossesAreReal(states: seq<Worker>, events: seq<Event>, delivers: Delivery, k: nat)
    requires IsRun(states, events, delivers) && k <= |events|
    ensures Honest(states[k], delivers)
  {
    if k > 0 {
      LossesAreReal(states, events, delivers, k - 1);
      HonestStep(states[k - 1], events[k - 1], delivers);
    }
  }

  lemma HonestStep(w: Worker, e: Event, delivers: Delivery)
    requires Honest(w, delivers) && Enabled(w, e)
    ensures Honest(Apply(w, e, delivers), delivers)
  {
    hide ConnectAll, DropAll, UpdateTokens, OnOpen, Pow2, WaitMs;
    match e
    case Update(u, tokens) => UpdateHonest(w, u, tokens, delivers);
    case Started(order) => ConnectAllHonest(w.(stopped := false), order, delivers);
    case Halted(order) => DropAllHonest(w.(stopped := true), order, delivers);
    case Opened(s) => OpenHonest(w, s, delivers);
    case _ =>
  }

  /** A replaced or dropped socket is powerless: none of its late events changes anything. */
  lemma StaleEventsChangeNothing(w: Worker, s: SocketId, message: Incoming, unauthorized: bool, delivers: Delivery)
    requires Inv(w) && s in w.peers && !w.peers[s].live
    ensures OnOpen(w, s, delivers) == w
    ensures OnMessage(w, s, message) == w
    ensures OnError(w, s, unauthorized) == w
    ensures OnClose(w, s) == w
  {
    assert UserOk(w, w.peers[s].user);
    assert w.peers[s := w.peers[s].(live := false)] == w.peers;
  }

  // ------------------------------------------------------------------ told from the events

  /** Socket s is live and was opened for u. */
  predicate LiveFor(w: Worker, s: SocketId, u: UserId) {
    s in w.peers && w.peers[s].live && w.peers[s].user == u
  }

  function ClosesAfter(w: Worker, e: Event, u: UserId, closes: nat): nat {
    match e
    case Manage(v, _, _) => if v == u then 0 else closes
    case Opened(s) => if LiveFor(w, s, u) then 0 else closes
    case Closed(s) => if LiveFor(w, s, u) then closes + 1 else closes
    case _ => closes
  }

  /** How many of u's sockets in a row closed without having opened, since u was last managed or last had a
      socket open, among the first k events. */
  ghost function UnopenedCloses(states: seq<Worker>, events: seq<Event>, k: nat, u: UserId): nat
    requires k <= |events| <= |states|
  {
    if k == 0 then 0 else ClosesAfter(states[k - 1], events[k - 1], u, UnopenedCloses(states, events, k - 1, u))
  }

  /** What an event says against u: on a live socket, a rejection of the credentials, an unauthorized
      handshake, or a close after ten others in a row that never opened. */
  function Against(w: Worker, e: Event, u: UserId, closes: nat): Option<Reason> {
    match e
    case Received(s, Rejection(true)) => if LiveFor(w, s, u) then Some(InvalidToken) else None
    case Errored(s, true) => if LiveFor(w, s, u) then Some(HandshakeUnauthorized) else None
    case Closed(s) => if LiveFor(w, s, u) && closes >= 10 then Some(ReconnectExhausted) else None
    case _ => None
  }

  function OrderAfter(w: Worker, e: Event, u: UserId, closes: nat,
                      order: Option<(Session, set<Token>)>): Option<(Session, set<Token>)> {
    match e
    case Manage(v, session, tokens) => if v == u then Some((session, tokens)) else order
    case Update(v, tokens) => if v == u && order.Some? then Some((order.value.0, tokens)) else order
    case Drop(v) => if v == u then None else order
    case Halted(_) => None
    case _ => if Against(w, e, u, closes).Some? then None else order
  }

  /** The session and tokens asked for u: since it was last managed it was neither dropped nor spoken against. */
  ghost function Ordered(states: seq<Worker>, events: seq<Event>, k: nat, u: UserId): Option<(Session, set<Token>)>
    requires k <= |events| <= |states|
  {
    if k == 0 then None
    else OrderAfter(states[k - 1], events[k - 1], u, UnopenedCloses(states, events, k - 1, u),
                    Ordered(states, events, k - 1, u))
  }

  /** The last of the first k events that starts or stops the worker started it. */
  ghost predicate Running(events: seq<Event>, k: nat)
    requires k <= |events|
  {
    k > 0 && (events[k - 1].Started? || (!events[k - 1].Halted? && Running(events, k - 1)))
  }

  /** Socket s opened among the first k events. */
  ghost predicate HasOpened(events: seq<Event>, k: nat, s: SocketId)
    requires k <= |events|
  {
    k > 0 && (events[k - 1] == Opened(s) || HasOpened(events, k - 1, s))
  }

  /** The worker holds exactly what was ordered for u, and counts exactly its unopened closes. */
  ghost predicate Tracks(w: Worker, u: UserId, closes: nat, order: Option<(Session, set<Token>)>) {
    && (u in w.users <==> order.Some?)
    && (u in w.users ==> w.users[u] == UserState(order.value.0, order.value.1, closes))
    && (u in w.connections && w.connections[u].open ==> closes == 0)
  }

  /** A live socket is taken for open exactly when it opened. */
  ghost predicate OpenIf(w: Worker, s: SocketId, answered: bool) {
    && (answered ==> s in w.peers)
    && (s in w.peers && w.peers[s].live && w.peers[s].user in w.connections ==>
          (w.connections[w.peers[s].user].open <==> answered))
  }

  ghost predicate PeersKept(w: Worker, w': Worker) {
    forall s <- w.peers ::
      s in w'.peers && w'.peers[s].user == w.peers[s].user && (w'.peers[s].live ==> w.peers[s].live)
  }

  /** The connection of u stays, goes, or is a new connecting one. */
  ghost predicate LinkKept(w: Worker, w': Worker, u: UserId) {
    u in w'.connections ==>
      || (u in w.connections && w'.connections[u] == w.connections[u])
      || (!w'.connections[u].open && w'.connections[u].socket !in w.peers)
  }

  ghost predicate Linked(w: Worker, w': Worker) {
    PeersKept(w, w') && forall u :: LinkKept(w, w', u)
  }

  lemma ThenLinked(w: Worker, w1: Worker, w2: Worker)
    requires Linked(w, w1) && Linked(w1, w2)
    ensures Linked(w, w2)
  {
    forall u ensures LinkKept(w, w2, u) { assert LinkKept(w, w1, u) && LinkKept(w1, w2, u); }
  }

  lemma ConnectLinks(w: Worker, u: UserId)
    requires w.nextId !in w.peers
    ensures Linked(w, Connect(w, u))
  {
  }

  lemma DropLinks(w: Worker, u: UserId)
    ensures Linked(w, DropUser(w, u))
  {
  }

  lemma SameLinks(w: Worker, w': Worker)
    requires w'.connections == w.connections && w'.peers == w.peers
    ensures Linked(w, w')
  {
  }

  lemma SendLinks(w: Worker, s: SocketId, action: Action, tokens: set<Token>, delivers: Delivery)
    requires s in w.peers
    ensures Linked(w, Send(w, s, action, tokens, delivers))
  {
  }

  ghost predicate Numbered(w: Worker) {
    forall s <- w.peers :: s < w.nextId
  }

  lemma {:induction false} ConnectAllLinks(w: Worker, order: seq<UserId>)
    requires Numbered(w)
    ensures Linked(w, ConnectAll(w, order))
    decreases |order|
  {
    hide Linked;
    if order == [] {
      SameLinks(w, w);
    } else {
      ConnectLinks(w, order[0]);
      ConnectAllLinks(Connect(w, order[0]), order[1..]);
      ThenLinked(w, Connect(w, order[0]), ConnectAll(w, order));
    }
  }

  lemma {:induction false} DropAllLinks(w: Worker, order: seq<UserId>)
    ensures Linked(w, DropAll(w, order))
    decreases |order|
  {
    hide Linked;
    if order == [] {
      SameLinks(w, w);
    } else {
      DropLinks(w, order[0]);
      DropAllLinks(DropUser(w, order[0]), order[1..]);
      ThenLinked(w, DropUser(w, order[0]), DropAll(w, order));
    }
  }

  lemma UpdateLinks(w: Worker, u: UserId, tokens: set<Token>, delivers: Delivery)
    ensures Linked(w, UpdateTokens(w, u, tokens, delivers))
  {
    hide Linked, Send;
    if u in w.users {
      var w1 := w.(users := w.users[u := w.users[u].(tokens := tokens)]);
      SameLinks(w, w1);
      if u in w1.connections && w1.connections[u].open && w1.connections[u].socket in w1.peers {
        var s, previous := w1.connections[u].socket, w.users[u].tokens;
        var w2 := Send(w1, s, Unsubscribe, previous - tokens, delivers);
        SendLinks(w1, s, Unsubscribe, previous - tokens, delivers);
        SentInPeers(w1, s, Unsubscribe, previous - tokens, delivers);
        SendLinks(w2, s, Subscribe, tokens - previous, delivers);
        ThenLinked(w1, w2, UpdateTokens(w, u, tokens, delivers));
        ThenLinked(w, w1, UpdateTokens(w, u, tokens, delivers));
      }
    } else {
      SameLinks(w, w);
    }
  }

  lemma SentInPeers(w: Worker, s: SocketId, action: Action, tokens: set<Token>, delivers: Delivery)
    requires s in w.peers
    ensures s in Send(w, s, action, tokens, delivers).peers
  {
  }

  lemma ManageLinks(w: Worker, u: UserId, session: Session, tokens: set<Token>)
    requires Numbered(w)
    ensures Linked(w, ManageUser(w, u, session, tokens))
  {
    hide Linked;
    var w1 := DropUser(w, u);
    var w2 := w1.(users := w1.users[u := UserState(session, tokens, 0)], attempts := w1.attempts[u := 0]);
    DropLinks(w, u);
    DropUserFrame(w, u);
    SameLinks(w1, w2);
    ThenLinked(w, w1, w2);
    if !w2.stopped {
      ConnectLinks(w2, u);
      ThenLinked(w, w2, Connect(w2, u));
    }
  }

  lemma AuthFailedLinks(w: Worker, u: UserId, reason: Reason)
    ensures Linked(w, AuthFailed(w, u, reason))
  {
    hide Linked;
    var noted := w.(failures := w.failures + [(u, reason)]);
    SameLinks(w, noted);
    DropLinks(noted, u);
    ThenLinked(w, noted, DropUser(noted, u));
    SameLinks(w, w);
  }

  lemma CloseLinks(w: Worker, s: SocketId)
    requires s in w.peers
    ensures Linked(w, OnClose(w, s))
  {
    hide Linked;
    var u, w1 := w.peers[s].user, Hangup(w, s);
    var w2 := w1.(connections := w1.connections - {u});
    assert Linked(w, w1) by { HangupLinks(w, s); }
    if IsCurrent(w1, u, s) {
      UnlinkLinks(w1, u);
      ThenLinked(w, w1, w2);
      if !w2.stopped && u in w2.users {
        if w2.users[u].reconnectAttempts >= MAX_RECONNECT_ATTEMPTS {
          AuthFailedLinks(w2, u, ReconnectExhausted);
        } else {
          SameLinks(w2, OnClose(w, s));
        }
        ThenLinked(w, w2, OnClose(w, s));
      }
    }
  }

  lemma HangupLinks(w: Worker, s: SocketId)
    ensures Linked(w, Hangup(w, s))
  {
  }

  lemma UnlinkLinks(w: Worker, u: UserId)
    ensures Linked(w, w.(connections := w.connections - {u}))
  {
  }

  lemma StepLinks(w: Worker, e: Event, delivers: Delivery)
    requires Inv(w) && Enabled(w, e) && !e.Opened?
    ensures Linked(w, Apply(w, e, delivers))
  {
    hide Linked;
    forall s <- w.peers ensures s < w.nextId { assert SocketOk(w, s); }
    match e
    case Manage(u, session, tokens) => ManageLinks(w, u, session, tokens);
    case Update(u, tokens) => UpdateLinks(w, u, tokens, delivers);
    case Drop(u) => DropLinks(w, u);
    case Started(order) =>
      SameLinks(w, w.(stopped := false));
      ConnectAllLinks(w.(stopped := false), order);
      ThenLinked(w, w.(stopped := false), Start(w, order));
    case Halted(order) =>
      SameLinks(w, w.(stopped := true));
      DropAllLinks(w.(stopped := true), order);
      ThenLinked(w, w.(stopped := true), Stop(w, order));
    case Received(s, _) =>
      SameLinks(w, w);
      AuthFailedLinks(w, w.peers[s].user, InvalidToken);
    case Errored(s, _) =>
      SameLinks(w, w);
      AuthFailedLinks(w, w.peers[s].user, HandshakeUnauthorized);
    case Closed(s) => CloseLinks(w, s);
    case Fired(t) => FireLinks(w, t);
  }

  lemma FireLinks(w: Worker, t: TimerId)
    requires t in w.armed && w.nextId !in w.peers
    ensures Linked(w, OnTimer(w, t))
  {
    hide Linked;
    var u := w.armed[t].user;
    var w1 := w.(armed := w.armed - {t}, reconnectTimers := w.reconnectTimers - {u});
    SameLinks(w, w1);
    ConnectLinks(w1, u);
    ThenLinked(w, w1, OnTimer(w, t));
  }

  lemma OpenIfKept(w: Worker, w': Worker, s: SocketId, answered: bool)
    requires Inv(w) && Inv(w') && Linked(w, w') && OpenIf(w, s, answered)
    ensures OpenIf(w', s, answered)
  {
    if s in w'.peers && w'.peers[s].live {
      var u := w'.peers[s].user;
      assert SocketOk(w', s) && LinkKept(w, w', u) && UserOk(w, u);
    }
  }

  /** Opening: the socket's connection is open, every other socket and connection stays. */
  lemma OpenedIs(w: Worker, s: SocketId, delivers: Delivery)
    requires Inv(w) && s in w.peers
    ensures var u, w' := w.peers[s].user, OnOpen(w, s, delivers);
      && w'.failures == w.failures && w'.stopped == w.stopped
      && w'.peers.Keys == w.peers.Keys
      && (forall r <- w.peers :: w'.peers[r].user == w.peers[r].user && w'.peers[r].live == w.peers[r].live)
      && if w.peers[s].live then
           && u in w.users && w'.users == w.users[u := w.users[u].(reconnectAttempts := 0)]
           && w'.connections == w.connections[u := Connection(s, true)] && IsCurrent(w, u, s)
         else w' == w
  {
    assert SocketOk(w, s) && UserOk(w, w.peers[s].user);
  }

  lemma OpenIfStep(w: Worker, e: Event, delivers: Delivery, s: SocketId, answered: bool)
    requires Inv(w) && Enabled(w, e) && OpenIf(w, s, answered)
    ensures OpenIf(Apply(w, e, delivers), s, answered || e == Opened(s))
  {
    hide Linked, Inv, Send;
    var w' := Apply(w, e, delivers);
    StepKeeps(w, e, delivers);
    if e.Opened? {
      OpenedIs(w, e.socket, delivers);
      LiveIsCurrent(w, s);
    } else {
      StepLinks(w, e, delivers);
      OpenIfKept(w, w', s, answered);
    }
  }

  lemma LiveIsCurrent(w: Worker, s: SocketId)
    requires Inv(w)
    ensures s in w.peers && w.peers[s].live ==>
      && IsCurrent(w, w.peers[s].user, s) && w.peers[s].user in w.users && !w.stopped
      && w.peers[s].user !in w.reconnectTimers
    ensures s in w.peers && !w.peers[s].live ==> !IsCurrent(w, w.peers[s].user, s)
  {
    if s in w.peers { assert SocketOk(w, s) && UserOk(w, w.peers[s].user); }
  }

  /** Closing: what becomes of the user, by how often its sockets closed unopened. */
  lemma ClosedIs(w: Worker, s: SocketId)
    requires Inv(w) && s in w.peers
    ensures var u, w' := w.peers[s].user, OnClose(w, s);
      && w'.stopped == w.stopped
      && if !w.peers[s].live then w' == w
         else
           && u in w.users && u !in w'.connections
           && var n := w.users[u].reconnectAttempts;
           if n >= 10 then
             w'.users == w.users - {u} && w'.failures == w.failures + [(u, ReconnectExhausted)]
             && u !in w'.reconnectTimers
           else
             && w'.users == w.users[u := w.users[u].(reconnectAttempts := n + 1)] && w'.failures == w.failures
             && u in w'.reconnectTimers && w'.reconnectTimers[u] in w'.armed
             && w'.armed[w'.reconnectTimers[u]] == Timer(u, WaitMs(n))
  {
    LiveIsCurrent(w, s);
    var u := w.peers[s].user;
    if !w.peers[s].live {
      assert w.peers[s := w.peers[s].(live := false)] == w.peers;
    } else if w.users[u].reconnectAttempts >= 10 {
      GivingUpDrops(w, u, s);
      AuthFailedIs(w, u, ReconnectExhausted);
    }
  }

  lemma AuthFailedIs(w: Worker, u: UserId, reason: Reason)
    ensures var w' := AuthFailed(w, u, reason);
      && w'.users == w.users - {u} && u !in w'.connections && u !in w'.reconnectTimers
      && w'.failures == w.failures + [(u, reason)] && w'.stopped == w.stopped
  {
    DropUserFrame(w.(failures := w.failures + [(u, reason)]), u);
  }

  lemma OrdersKept(w: Worker, w': Worker, u: UserId, closes: nat, order: Option<(Session, set<Token>)>)
    requires Tracks(w, u, closes, order) && w'.users == w.users && LinkKept(w, w', u)
    ensures Tracks(w', u, closes, order)
  {
  }

  lemma TracksStep(w: Worker, e: Event, delivers: Delivery, u: UserId, closes: nat,
                   order: Option<(Session, set<Token>)>)
    requires Inv(w) && Enabled(w, e) && Tracks(w, u, closes, order)
    ensures Tracks(Apply(w, e, delivers), u, ClosesAfter(w, e, u, closes), OrderAfter(w, e, u, closes, order))
  {
    hide Inv, Linked, Send, OnClose, OnOpen, AuthFailed, ManageUser, UpdateTokens, DropUser, Start, Stop;
    var w' := Apply(w, e, delivers);
    if !e.Opened? { StepLinksOf(w, e, delivers, u); }
    match e
    case Manage(v, session, tokens) => ManageUserKeeps(w, v, session, tokens);
    case Update(v, tokens) => UpdateTokensKeeps(w, v, tokens, delivers);
    case Drop(v) => DropUserFrame(w, v);
    case Started(order) => StartKeeps(w, order);
    case Halted(order) => StopKeeps(w, order);
    case Opened(s) =>
      OpenedIs(w, s, delivers);
      LiveIsCurrent(w, s);
    case Received(s, _) =>
      LiveIsCurrent(w, s);
      AuthFailedIs(w, w.peers[s].user, InvalidToken);
    case Errored(s, _) =>
      LiveIsCurrent(w, s);
      AuthFailedIs(w, w.peers[s].user, HandshakeUnauthorized);
    case Closed(s) =>
      LiveIsCurrent(w, s);
      ClosedIs(w, s);
    case Fired(t) => OnTimerKeeps(w, t);
  }

  lemma StepLinksOf(w: Worker, e: Event, delivers: Delivery, u: UserId)
    requires Inv(w) && Enabled(w, e) && !e.Opened?
    ensures LinkKept(w, Apply(w, e, delivers), u)
  {
    StepLinks(w, e, delivers);
  }

  lemma StoppedAfter(w: Worker, e: Event, delivers: Delivery)
    requires Inv(w) && Enabled(w, e)
    ensures Apply(w, e, delivers).stopped == if e.Started? then false else if e.Halted? then true else w.stopped
  {
    hide Inv, Linked, Send, OnClose, OnOpen, AuthFailed, ManageUser, UpdateTokens, DropUser, Stop, ConnectAll;
    match e
    case Manage(v, session, tokens) => ManageUserKeeps(w, v, session, tokens);
    case Update(v, tokens) => UpdateTokensKeeps(w, v, tokens, delivers);
    case Drop(v) => DropUserFrame(w, v);
    case Started(order) => ConnectAllStarted(w.(stopped := false), order);
    case Halted(order) => StopKeeps(w, order);
    case Opened(s) => OpenedIs(w, s, delivers);
    case Received(s, _) => AuthFailedIs(w, w.peers[s].user, InvalidToken);
    case Errored(s, _) => AuthFailedIs(w, w.peers[s].user, HandshakeUnauthorized);
    case Closed(s) => ClosedIs(w, s);
    case Fired(t) =>
  }

  lemma {:induction false} ConnectAllStarted(w: Worker, order: seq<UserId>)
    ensures ConnectAll(w, order).stopped == w.stopped
    decreases |order|
  {
    if order != [] { ConnectAllStarted(Connect(w, order[0]), order[1..]); }
  }

  /** Main result: in every state of every run, whatever the order of calls, socket events and timers, the
      worker's users, sessions and tokens are those ordered, its attempt counters are the unopened closes,
      a live socket is taken for open exactly when it answered, and it runs exactly when last started. */
  lemma {:induction false} HistoryTells(
    states: seq<Worker>, events: seq<Event>, delivers: Delivery, k: nat, u: UserId, s: SocketId)
    requires IsRun(states, events, delivers) && k <= |events|
    ensures Tracks(states[k], u, UnopenedCloses(states, events, k, u), Ordered(states, events, k, u))
    ensures OpenIf(states[k], s, HasOpened(events, k, s))
    ensures states[k].stopped <==> !Running(events, k)
  {
    hide Apply, Inv, Tracks, OpenIf, Enabled;
    if k == 0 {
      NothingTold(u, s);
    } else {
      HistoryTells(states, events, delivers, k - 1, u, s);
      RunsAreSafe(states, events, delivers, k - 1);
      var w, e := states[k - 1], events[k - 1];
      TracksStep(w, e, delivers, u, UnopenedCloses(states, events, k - 1, u), Ordered(states, events, k - 1, u));
      OpenIfStep(w, e, delivers, s, HasOpened(events, k - 1, s));
      StoppedAfter(w, e, delivers);
    }
  }

  lemma NothingTold(u: UserId, s: SocketId)
    ensures Tracks(FRESH, u, 0, None) && OpenIf(FRESH, s, false) && FRESH.stopped
  {
  }

  /** The wait before reconnect n + 1: half a second, doubled each time, at most half a minute. */
  lemma WaitDoubles(n: nat)
    ensures WaitMs(n) == if n < 6 then 500 * Pow2(n) else 30_000
  {
    assert Pow2(5) == 32 && Pow2(6) == 64;
    if n < 6 { Pow2Monotone(n, 5); } else { Pow2Monotone(6, n); }
  }

  /** Main result: when a user is given up. The close of a live socket gives the user up, with exactly one
      auth_failed and nothing armed, if and only if ten or more of its sockets in a row closed unopened
      before, since it was last managed or last had one open; else it arms one reconnect, after 500 ms
      doubled for each of those closes, at most 30 s. After any of them this socket never answered either. */
  lemma CloseReconnectsOrGivesUp(
    states: seq<Worker>, events: seq<Event>, delivers: Delivery, k: nat, s: SocketId, u: UserId)
    requires IsRun(states, events, delivers) && k < |events| && events[k] == Closed(s) && LiveFor(states[k], s, u)
    ensures var n, w, w' := UnopenedCloses(states, events, k, u), states[k], states[k + 1];
      && (n > 0 ==> !HasOpened(events, k, s))
      && if n >= 10 then
           && u !in w'.users && w'.failures == w.failures + [(u, ReconnectExhausted)]
           && u !in w'.reconnectTimers
         else
           && u in w'.users && w'.failures == w.failures
           && u in w'.reconnectTimers && w'.reconnectTimers[u] in w'.armed
           && w'.armed[w'.reconnectTimers[u]] == Timer(u, if n < 6 then 500 * Pow2(n) else 30_000)
  {
    hide Inv, OnClose;
    RunsAreSafe(states, events, delivers, k);
    HistoryTells(states, events, delivers, k, u, s);
    LiveIsCurrent(states[k], s);
    ClosedIs(states[k], s);
    WaitDoubles(UnopenedCloses(states, events, k, u));
  }

  /** What an event adds to the failures. */
  lemma FailuresAfter(w: Worker, e: Event, delivers: Delivery, u: UserId, closes: nat,
                      order: Option<(Session, set<Token>)>)
    requires Inv(w) && Enabled(w, e) && Tracks(w, u, closes, order)
    requires var s := SocketOf(e); s.Some? ==> s.value in w.peers && w.peers[s.value].user == u
    ensures var against, w' := Against(w, e, u, closes), Apply(w, e, delivers);
      w'.failures == w.failures + if against.Some? then [(u, against.value)] else []
  {
    hide Inv, Linked, Send, OnClose, OnOpen, AuthFailed, ManageUser, UpdateTokens, DropUser, ConnectAll;
    assert w.failures + [] == w.failures;
    match e
    case Manage(v, session, tokens) => ManageFailures(w, v, session, tokens);
    case Update(v, tokens) => UpdateFailures(w, v, tokens, delivers);
    case Drop(v) => DropUserFrame(w, v);
    case Started(order) => ConnectAllFailures(w.(stopped := false), order);
    case Halted(order) => DropAllFailures(w.(stopped := true), order);
    case Opened(s) => OpenedIs(w, s, delivers);
    case Received(s, _) =>
      LiveIsCurrent(w, s);
      AuthFailedIs(w, u, InvalidToken);
    case Errored(s, _) =>
      LiveIsCurrent(w, s);
      AuthFailedIs(w, u, HandshakeUnauthorized);
    case Closed(s) =>
      LiveIsCurrent(w, s);
      ClosedIs(w, s);
    case Fired(t) =>
  }

  function SocketOf(e: Event): Option<SocketId> {
    match e
    case Opened(s) => Some(s)
    case Received(s, _) => Some(s)
    case Closed(s) => Some(s)
    case Errored(s, _) => Some(s)
    case _ => None
  }

  lemma ManageFailures(w: Worker, u: UserId, session: Session, tokens: set<Token>)
    ensures ManageUser(w, u, session, tokens).failures == w.failures
  {
    DropUserFrame(w, u);
  }

  lemma UpdateFailures(w: Worker, u: UserId, tokens: set<Token>, delivers: Delivery)
    ensures UpdateTokens(w, u, tokens, delivers).failures == w.failures
  {
  }

  lemma {:induction false} ConnectAllFailures(w: Worker, order: seq<UserId>)
    ensures ConnectAll(w, order).failures == w.failures
    decreases |order|
  {
    if order != [] { ConnectAllFailures(Connect(w, order[0]), order[1..]); }
  }

  lemma {:induction false} DropAllFailures(w: Worker, order: seq<UserId>)
    ensures DropAll(w, order).failures == w.failures
    decreases |order|
  {
    if order != [] {
      DropUserFrame(w, order[0]);
      DropAllFailures(DropUser(w, order[0]), order[1..]);
    }
  }

  /** Main result: auth_failed is emitted for a user exactly when an event speaks against it, with that
      reason, and for nobody else. */
  lemma FailuresAreReported(states: seq<Worker>, events: seq<Event>, delivers: Delivery, k: nat, u: UserId)
    requires IsRun(states, events, delivers) && k < |events|
    ensures var w, w' := states[k], states[k + 1];
      var against := Against(w, events[k], u, UnopenedCloses(states, events, k, u));
      && (against.Some? ==> w'.failures == w.failures + [(u, against.value)])
      && (w'.failures == w.failures || (|w'.failures| == |w.failures| + 1 && w'.failures[..|w.failures|] == w.failures))
      && (w'.failures != w.failures && w'.failures[|w.failures|].0 == u ==> against.Some?)
  {
    hide Inv, Apply, Enabled;
    RunsAreSafe(states, events, delivers, k);
    var w, e := states[k], events[k];
    var v := if SocketOf(e).Some? && SocketOf(e).value in w.peers then w.peers[SocketOf(e).value].user else u;
    HistoryTells(states, events, delivers, k, v, 0);
    SocketIsThere(w, e);
    FailuresAfter(w, e, delivers, v, UnopenedCloses(states, events, k, v), Ordered(states, events, k, v));
  }

  lemma SocketIsThere(w: Worker, e: Event)
    requires Enabled(w, e)
    ensures SocketOf(e).Some? ==> SocketOf(e).value in w.peers
  {
  }

  /** While stopped, no event but start() creates a socket or arms a timer. */
  lemma StoppedCreatesNothing(w: Worker, e: Event, delivers: Delivery)
    requires Inv(w) && w.stopped && Enabled(w, e) && !e.Started?
    ensures var w' := Apply(w, e, delivers);
      w'.stopped && w'.peers.Keys == w.peers.Keys
  {
    match e
    case Manage(u, session, tokens) => ManageUserKeeps(w, u, session, tokens);
    case Update(u, tokens) => UpdateTokensKeeps(w, u, tokens, delivers);
    case Drop(u) => DropUserFrame(w, u);
    case Halted(order) => StopKeeps(w, order);
    case Opened(s) => OnOpenKeeps(w, s, delivers);
    case Received(s, _) => AuthFailedKeeps(w, w.peers[s].user, InvalidToken);
    case Closed(s) => OnCloseKeeps(w, s);
    case Errored(s, _) => AuthFailedKeeps(w, w.peers[s].user, HandshakeUnauthorized);
    case Fired(t) => OnTimerKeeps(w, t);
  }

  /** Main result: from a stop() to the next start(), however long the run and however late the
      events, no connection is created. */
  lemma {:induction false} NoConnectionAfterStop(
    states: seq<Worker>, events: seq<Event>, delivers: Delivery, first: nat, last: nat)
    requires IsRun(states, events, delivers) && first <= last < |states|
    requires states[first].stopped
    requires forall i | first <= i < last :: !events[i].Started?
    ensures states[last].stopped && states[last].peers.Keys == states[first].peers.Keys
    decreases last
  {
    if first < last {
      NoConnectionAfterStop(states, events, delivers, first, last - 1);
      RunsAreSafe(states, events, delivers, last - 1);
      StoppedCreatesNothing(states[last - 1], events[last - 1], delivers);
    }
  }
}
