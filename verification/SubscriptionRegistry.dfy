/** The ref-counted live-feed subscriptions of server/orchestrator.ts and the paper-interest
    source of server/modules/paper-trading/interest-subscriptions.ts, on top of the feed worker.
    Market streams, alerts and paper interest each own references; the counted symbols become
    the token set the worker keeps subscribed. */
module SubscriptionRegistry {
  import opened Basics
  import opened Text
  import F = FeedWorker

  const FEED_USER: F.UserId := "render-market-feed"

  datatype Exchange = NSE | BSE
  type Catalog = map<(Exchange, string), F.Token>

  datatype InterestKind = WorkingOrder | Position
  datatype InterestRow = InterestRow(exchange: string, symbol: string, kind: InterestKind)

  /** `streams` are the symbol lists whose release function has not been called yet; `alerts` and
      `paper` are the sets of symbols those sources hold, in insertion order; `stale` says the
      symbol catalog changed since tokens were last sent. */
  datatype Registry = Registry(
    refs: map<string, nat>,
    alerts: seq<string>,
    paper: seq<string>,
    streams: seq<seq<string>>,
    catalog: Catalog,
    stale: bool,
    feed: F.Worker)

  const EMPTY := Registry(map[], [], [], [], map[], false, F.FRESH)

  function TokenOf(catalog: Catalog, symbol: string): F.Token {
    if (NSE, symbol) in catalog then catalog[(NSE, symbol)]
    else if (BSE, symbol) in catalog then catalog[(BSE, symbol)]
    else ""
  }

  function ActiveTokens(refs: map<string, nat>, catalog: Catalog): set<F.Token> {
    set symbol <- refs.Keys | TokenOf(catalog, symbol) != "" :: TokenOf(catalog, symbol)
  }

  function Sync(r: Registry, delivers: F.Delivery): Registry {
    r.(feed := F.UpdateTokens(r.feed, FEED_USER, ActiveTokens(r.refs, r.catalog), delivers), stale := false)
  }

  function Login(r: Registry, session: F.Session): Registry {
    r.(feed := F.ManageUser(r.feed, FEED_USER, session, ActiveTokens(r.refs, r.catalog)), stale := false)
  }

  function Count(refs: map<string, nat>, s: string): nat {
    if s in refs then refs[s] else 0
  }

  function Subscribe(r: Registry, symbol: string, delivers: F.Delivery): Registry {
    var s := Upper(symbol);
    var r' := r.(refs := r.refs[s := Count(r.refs, s) + 1]);
    if Count(r.refs, s) == 0 then Sync(r', delivers) else r'
  }

  function Unsubscribe(r: Registry, symbol: string, delivers: F.Delivery): Registry {
    var s := Upper(symbol);
    if Count(r.refs, s) <= 1 then Sync(r.(refs := r.refs - {s}), delivers)
    else r.(refs := r.refs[s := r.refs[s] - 1])
  }

  function SubscribeAll(r: Registry, symbols: seq<string>, delivers: F.Delivery): Registry
    decreases |symbols|
  {
    if symbols == [] then r else SubscribeAll(Subscribe(r, symbols[0], delivers), symbols[1..], delivers)
  }

  function UnsubscribeAll(r: Registry, symbols: seq<string>, delivers: F.Delivery): Registry
    decreases |symbols|
  {
    if symbols == [] then r else UnsubscribeAll(Unsubscribe(r, symbols[0], delivers), symbols[1..], delivers)
  }

  function OpenStream(r: Registry, symbols: seq<string>, delivers: F.Delivery): Registry {
    SubscribeAll(r, symbols, delivers).(streams := r.streams + [symbols])
  }

  function CloseStream(r: Registry, i: nat, delivers: F.Delivery): Registry
    requires i < |r.streams|
  {
    UnsubscribeAll(r, r.streams[i], delivers).(streams := r.streams[..i] + r.streams[i + 1..])
  }

  /** A source's set after subscribing what it wants and does not hold. */
  function Gain(r: Registry, owned: seq<string>, wanted: seq<string>, delivers: F.Delivery): (Registry, seq<string>)
    decreases |wanted|
  {
    if wanted == [] then (r, owned)
    else if wanted[0] in owned then Gain(r, owned, wanted[1..], delivers)
    else Gain(Subscribe(r, wanted[0], delivers), owned + [wanted[0]], wanted[1..], delivers)
  }

  /** A source's set after releasing what it holds and no longer wants; `kept` was already visited. */
  function Shed(r: Registry, kept: seq<string>, owned: seq<string>, wanted: seq<string>,
                delivers: F.Delivery): (Registry, seq<string>)
    decreases |owned|
  {
    if owned == [] then (r, kept)
    else if owned[0] in wanted then Shed(r, kept + [owned[0]], owned[1..], wanted, delivers)
    else Shed(Unsubscribe(r, owned[0], delivers), kept, owned[1..], wanted, delivers)
  }

  function Follow(r: Registry, owned: seq<string>, wanted: seq<string>, delivers: F.Delivery): (Registry, seq<string>) {
    var gained := Gain(r, owned, wanted, delivers);
    Shed(gained.0, [], gained.1, wanted, delivers)
  }

  function Uppers(symbols: seq<string>): seq<string> {
    if symbols == [] then [] else [Upper(symbols[0])] + Uppers(symbols[1..])
  }

  function ReconcileAlerts(r: Registry, active: seq<string>, delivers: F.Delivery): Registry {
    var followed := Follow(r, r.alerts, Uppers(active), delivers);
    followed.0.(alerts := followed.1)
  }

  /** Symbols of the streamed rows of one kind, in row order, each once and not in `seen`. */
  function SymbolsOf(rows: seq<InterestRow>, kind: InterestKind, seen: seq<string>): seq<string>
    decreases |rows|
  {
    if rows == [] then seen
    else
      var symbol := Upper(Trim(rows[0].symbol));
      if rows[0].kind != kind || Upper(Trim(rows[0].exchange)) != "NSE" || symbol in seen then
        SymbolsOf(rows[1..], kind, seen)
      else SymbolsOf(rows[1..], kind, seen + [symbol])
  }

  /** Working orders first, then positions, capped. */
  function WantedInterest(rows: seq<InterestRow>, cap: nat): seq<string> {
    var wanted := SymbolsOf(rows, Position, SymbolsOf(rows, WorkingOrder, []));
    if |wanted| > cap then wanted[..cap] else wanted
  }

  function ApplyInterest(r: Registry, rows: seq<InterestRow>, cap: nat, delivers: F.Delivery): Registry {
    var followed := Follow(r, r.paper, WantedInterest(rows, cap), delivers);
    followed.0.(paper := followed.1)
  }

  /** The part of stopOrchestrator that releases what alerts and paper trading own. */
  function ReleaseOwned(r: Registry, delivers: F.Delivery): Registry {
    var r1 := UnsubscribeAll(r, r.alerts, delivers).(alerts := []);
    UnsubscribeAll(r1, r1.paper, delivers).(paper := [])
  }

  // ------------------------------------------------------------------ invariant

  /** Every symbol's count is its number of references in `held`, and no zero is stored. */
  ghost predicate Counted(refs: map<string, nat>, held: multiset<string>) {
    && (forall s :: Count(refs, s) == held[s])
    && (forall s <- refs :: refs[s] > 0)
  }

  ghost predicate Synced(r: Registry) {
    && F.Inv(r.feed)
    && (FEED_USER in r.feed.users && !r.stale ==> r.feed.users[FEED_USER].tokens == ActiveTokens(r.refs, r.catalog))
  }

  ghost function Held(streams: seq<seq<string>>): multiset<string> {
    if streams == [] then multiset{} else multiset(Uppers(streams[0])) + Held(streams[1..])
  }

  ghost predicate OwnSet(owned: seq<string>) {
    NoRepeats(owned) && forall s <- owned :: Upper(s) == s
  }

  ghost function References(r: Registry): multiset<string> {
    Held(r.streams) + multiset(r.alerts) + multiset(r.paper)
  }

  ghost predicate Inv(r: Registry) {
    Counted(r.refs, References(r)) && Synced(r) && OwnSet(r.alerts) && OwnSet(r.paper)
  }

  // ------------------------------------------------------- preservation, step by step

  lemma SyncKeeps(r: Registry, delivers: F.Delivery)
    requires F.Inv(r.feed)
    ensures Synced(Sync(r, delivers))
  {
    F.UpdateTokensKeeps(r.feed, FEED_USER, ActiveTokens(r.refs, r.catalog), delivers);
  }

  /** Only the counts and the feed change. */
  ghost predicate SameOwners(r: Registry, r': Registry) {
    r' == r.(refs := r'.refs, feed := r'.feed, stale := r'.stale)
  }

  lemma SubscribeKeeps(r: Registry, symbol: string, held: multiset<string>, delivers: F.Delivery)
    requires Counted(r.refs, held) && Synced(r)
    ensures var r' := Subscribe(r, symbol, delivers);
      Counted(r'.refs, held + multiset{Upper(symbol)}) && Synced(r') && SameOwners(r, r')
  {
    var s := Upper(symbol);
    var r1 := r.(refs := r.refs[s := Count(r.refs, s) + 1]);
    if Count(r.refs, s) == 0 {
      SyncKeeps(r1, delivers);
    } else {
      assert r1.refs.Keys == r.refs.Keys;
    }
  }

  lemma UnsubscribeKeeps(r: Registry, symbol: string, held: multiset<string>, delivers: F.Delivery)
    requires Counted(r.refs, held) && Synced(r) && Upper(symbol) in held
    ensures var r' := Unsubscribe(r, symbol, delivers);
      Counted(r'.refs, held - multiset{Upper(symbol)}) && Synced(r') && SameOwners(r, r')
  {
    var s := Upper(symbol);
    assert Count(r.refs, s) == held[s];
    if Count(r.refs, s) <= 1 {
      SyncKeeps(r.(refs := r.refs - {s}), delivers);
    } else {
      var r' := Unsubscribe(r, symbol, delivers);
      assert r'.refs.Keys == r.refs.Keys;
    }
  }

  lemma UppersCons(symbols: seq<string>)
    requires symbols != []
    ensures multiset(Uppers(symbols)) == multiset{Upper(symbols[0])} + multiset(Uppers(symbols[1..]))
  {
  }

  lemma {:induction false} SubscribeAllKeeps(r: Registry, symbols: seq<string>, held: multiset<string>,
                                             delivers: F.Delivery)
    requires Counted(r.refs, held) && Synced(r)
    ensures var r' := SubscribeAll(r, symbols, delivers);
      Counted(r'.refs, held + multiset(Uppers(symbols))) && Synced(r') && SameOwners(r, r')
    decreases |symbols|
  {
    if symbols == [] {
      assert held + multiset(Uppers(symbols)) == held;
    } else {
      var more := multiset{Upper(symbols[0])};
      SubscribeKeeps(r, symbols[0], held, delivers);
      SubscribeAllKeeps(Subscribe(r, symbols[0], delivers), symbols[1..], held + more, delivers);
      UppersCons(symbols);
      assert held + more + multiset(Uppers(symbols[1..])) == held + multiset(Uppers(symbols));
    }
  }

  lemma {:induction false} UnsubscribeAllKeeps(r: Registry, symbols: seq<string>, rest: multiset<string>,
                                               delivers: F.Delivery)
    requires Counted(r.refs, rest + multiset(Uppers(symbols))) && Synced(r)
    ensures var r' := UnsubscribeAll(r, symbols, delivers);
      Counted(r'.refs, rest) && Synced(r') && SameOwners(r, r')
    decreases |symbols|
  {
    if symbols == [] {
      assert rest + multiset(Uppers(symbols)) == rest;
    } else {
      var held := rest + multiset(Uppers(symbols));
      UppersCons(symbols);
      assert held - multiset{Upper(symbols[0])} == rest + multiset(Uppers(symbols[1..]));
      UnsubscribeKeeps(r, symbols[0], held, delivers);
      UnsubscribeAllKeeps(Unsubscribe(r, symbols[0], delivers), symbols[1..], rest, delivers);
    }
  }

  lemma {:induction false} HeldWithout(streams: seq<seq<string>>, i: nat)
    requires i < |streams|
    ensures Held(streams) == Held(streams[..i] + streams[i + 1..]) + multiset(Uppers(streams[i]))
  {
    hide Uppers;
    var without := streams[..i] + streams[i + 1..];
    if i == 0 {
      assert without == streams[1..];
    } else {
      var rest := streams[1..];
      HeldWithout(rest, i - 1);
      assert rest[..i - 1] + rest[i..] == without[1..] && rest[i - 1] == streams[i];
      assert Held(without) == multiset(Uppers(streams[0])) + Held(without[1..]);
    }
  }

  lemma {:induction false} HeldSnoc(streams: seq<seq<string>>, symbols: seq<string>)
    ensures Held(streams + [symbols]) == Held(streams) + multiset(Uppers(symbols))
  {
    var all := streams + [symbols];
    HeldWithout(all, |streams|);
    assert all[..|streams|] + all[|streams| + 1..] == streams;
  }

  lemma {:induction false} GainKeeps(r: Registry, owned: seq<string>, wanted: seq<string>,
                                     rest: multiset<string>, delivers: F.Delivery)
    requires Counted(r.refs, rest + multiset(owned)) && Synced(r) && OwnSet(owned)
    requires forall s <- wanted :: Upper(s) == s
    ensures var (r', owned') := Gain(r, owned, wanted, delivers);
      && Counted(r'.refs, rest + multiset(owned')) && Synced(r') && SameOwners(r, r') && OwnSet(owned')
      && forall s :: s in owned' <==> s in owned || s in wanted
    decreases |wanted|
  {
    if wanted != [] {
      var s := wanted[0];
      if s in owned {
        GainKeeps(r, owned, wanted[1..], rest, delivers);
      } else {
        SubscribeKeeps(r, s, rest + multiset(owned), delivers);
        assert multiset(owned + [s]) == multiset(owned) + multiset{s};
        assert rest + multiset(owned) + multiset{s} == rest + multiset(owned + [s]);
        GainKeeps(Subscribe(r, s, delivers), owned + [s], wanted[1..], rest, delivers);
      }
      assert forall t :: t in wanted <==> t == s || t in wanted[1..];
    }
  }

  lemma {:induction false} ShedKeeps(r: Registry, kept: seq<string>, owned: seq<string>, wanted: seq<string>,
                                     rest: multiset<string>, delivers: F.Delivery)
    requires Counted(r.refs, rest + multiset(kept + owned)) && Synced(r) && OwnSet(kept + owned)
    requires forall s <- kept :: s in wanted
    ensures var (r', owned') := Shed(r, kept, owned, wanted, delivers);
      && Counted(r'.refs, rest + multiset(owned')) && Synced(r') && SameOwners(r, r') && OwnSet(owned')
      && forall s :: s in owned' <==> s in kept + owned && s in wanted
    decreases |owned|
  {
    if owned == [] {
      assert kept + owned == kept;
    } else {
      var s := owned[0];
      var all := kept + owned;
      if s in wanted {
        assert kept + [s] + owned[1..] == all;
        ShedKeeps(r, kept + [s], owned[1..], wanted, rest, delivers);
      } else {
        assert all[|kept|] == s;
        assert all == kept + [s] + owned[1..];
        var left := kept + owned[1..];
        assert multiset(all) == multiset(left) + multiset{s};
        assert rest + multiset(all) - multiset{s} == rest + multiset(left);
        UnsubscribeKeeps(r, s, rest + multiset(all), delivers);
        assert OwnSet(left) by { WithoutOne(all, |kept|); }
        ShedKeeps(Unsubscribe(r, s, delivers), kept, owned[1..], wanted, rest, delivers);
        assert forall t :: t in all <==> t == s || t in left;
      }
    }
  }

  lemma WithoutOne(owned: seq<string>, i: nat)
    requires OwnSet(owned) && i < |owned|
    ensures OwnSet(owned[..i] + owned[i + 1..])
  {
    var left := owned[..i] + owned[i + 1..];
    forall a, b | 0 <= a < b < |left| ensures left[a] != left[b] {
      var a' := if a < i then a else a + 1;
      var b' := if b < i then b else b + 1;
      assert left[a] == owned[a'] && left[b] == owned[b'];
    }
  }

  /** Following a wanted list ends with exactly that set held, one reference for each symbol. */
  lemma FollowKeeps(r: Registry, owned: seq<string>, wanted: seq<string>, rest: multiset<string>, delivers: F.Delivery)
    requires Counted(r.refs, rest + multiset(owned)) && Synced(r) && OwnSet(owned)
    requires forall s <- wanted :: Upper(s) == s
    ensures var (r', owned') := Follow(r, owned, wanted, delivers);
      && Counted(r'.refs, rest + multiset(owned')) && Synced(r') && SameOwners(r, r') && OwnSet(owned')
      && forall s :: s in owned' <==> s in wanted
  {
    GainKeeps(r, owned, wanted, rest, delivers);
    var (r1, owned1) := Gain(r, owned, wanted, delivers);
    assert [] + owned1 == owned1;
    ShedKeeps(r1, [], owned1, wanted, rest, delivers);
  }

  lemma {:induction false} UppersAreUpper(symbols: seq<string>)
    ensures forall s <- Uppers(symbols) :: Upper(s) == s
  {
    if symbols != [] {
      UpperTwice(symbols[0]);
      UppersAreUpper(symbols[1..]);
    }
  }

  lemma {:induction false} UppersOfUpper(symbols: seq<string>)
    requires forall s <- symbols :: Upper(s) == s
    ensures Uppers(symbols) == symbols
  {
    if symbols != [] { UppersOfUpper(symbols[1..]); }
  }

  lemma {:induction false} SymbolsOfAreUpper(rows: seq<InterestRow>, kind: InterestKind, seen: seq<string>)
    requires forall s <- seen :: Upper(s) == s
    ensures forall s <- SymbolsOf(rows, kind, seen) :: Upper(s) == s
    decreases |rows|
  {
    if rows != [] {
      UpperTwice(Trim(rows[0].symbol));
      SymbolsOfAreUpper(rows[1..], kind, seen);
      SymbolsOfAreUpper(rows[1..], kind, seen + [Upper(Trim(rows[0].symbol))]);
    }
  }

  // ------------------------------------------------------------------ all runs

  datatype Event =
    | StreamOpened(symbols: seq<string>)
    | StreamClosed(index: nat)
    | AlertsRead(active: seq<string>)
    | InterestRead(rows: seq<InterestRow>, cap: nat)
    | OwnersReleased
    | CatalogChanged(catalog: Catalog)
    | Hydrated
    | LoggedIn(session: F.Session)
    | FeedEvent(event: F.Event)

  /** The feed's own events: sockets, timers, start and stop; its users are managed from here. */
  ghost predicate Enabled(r: Registry, e: Event) {
    match e
    case StreamClosed(i) => i < |r.streams|
    case FeedEvent(f) => F.Enabled(r.feed, f) && !f.Manage? && !f.Update? && !f.Drop?
    case _ => true
  }

  ghost function Apply(r: Registry, e: Event, delivers: F.Delivery): Registry
    requires Enabled(r, e)
  {
    match e
    case StreamOpened(symbols) => OpenStream(r, symbols, delivers)
    case StreamClosed(i) => CloseStream(r, i, delivers)
    case AlertsRead(active) => ReconcileAlerts(r, active, delivers)
    case InterestRead(rows, cap) => ApplyInterest(r, rows, cap, delivers)
    case OwnersReleased => ReleaseOwned(r, delivers)
    case CatalogChanged(catalog) => r.(catalog := catalog, stale := true)
    case Hydrated => Sync(r, delivers)
    case LoggedIn(session) => Login(r, session)
    case FeedEvent(f) => r.(feed := F.Apply(r.feed, f, delivers))
  }

  ghost predicate IsRun(states: seq<Registry>, events: seq<Event>, delivers: F.Delivery) {
    && |states| == |events| + 1
    && states[0] == EMPTY
    && forall i | 0 <= i < |events| ::
         Enabled(states[i], events[i]) && states[i + 1] == Apply(states[i], events[i], delivers)
  }

  lemma StreamOpenedKeeps(r: Registry, symbols: seq<string>, delivers: F.Delivery)
    requires Inv(r)
    ensures Inv(Apply(r, StreamOpened(symbols), delivers))
  {
    SubscribeAllKeeps(r, symbols, References(r), delivers);
    HeldSnoc(r.streams, symbols);
    assert References(Apply(r, StreamOpened(symbols), delivers)) == References(r) + multiset(Uppers(symbols));
  }

  lemma StreamClosedKeeps(r: Registry, index: nat, delivers: F.Delivery)
    requires Inv(r) && Enabled(r, StreamClosed(index))
    ensures Inv(Apply(r, StreamClosed(index), delivers))
  {
    var without := r.streams[..index] + r.streams[index + 1..];
    HeldWithout(r.streams, index);
    var rest := Held(without) + multiset(r.alerts) + multiset(r.paper);
    assert References(r) == rest + multiset(Uppers(r.streams[index]));
    UnsubscribeAllKeeps(r, r.streams[index], rest, delivers);
  }

  lemma OwnersKeep(r: Registry, e: Event, delivers: F.Delivery)
    requires Inv(r) && (e.AlertsRead? || e.InterestRead?)
    ensures Inv(Apply(r, e, delivers))
  {
    if e.AlertsRead? {
      var rest := Held(r.streams) + multiset(r.paper);
      assert References(r) == rest + multiset(r.alerts);
      UppersAreUpper(e.active);
      FollowKeeps(r, r.alerts, Uppers(e.active), rest, delivers);
      var r' := Apply(r, e, delivers);
      assert References(r') == rest + multiset(r'.alerts);
    } else {
      SymbolsOfAreUpper(e.rows, WorkingOrder, []);
      SymbolsOfAreUpper(e.rows, Position, SymbolsOf(e.rows, WorkingOrder, []));
      FollowKeeps(r, r.paper, WantedInterest(e.rows, e.cap), Held(r.streams) + multiset(r.alerts), delivers);
    }
  }

  lemma ReleaseOwnedKeeps(r: Registry, delivers: F.Delivery)
    requires Inv(r)
    ensures Inv(ReleaseOwned(r, delivers))
    ensures Counted(ReleaseOwned(r, delivers).refs, Held(r.streams))
  {
    var rest := Held(r.streams) + multiset(r.paper);
    assert References(r) == rest + multiset(r.alerts);
    UppersOfUpper(r.alerts);
    UnsubscribeAllKeeps(r, r.alerts, rest, delivers);
    var r1 := UnsubscribeAll(r, r.alerts, delivers).(alerts := []);
    UppersOfUpper(r1.paper);
    UnsubscribeAllKeeps(r1, r1.paper, Held(r.streams), delivers);
    assert References(ReleaseOwned(r, delivers)) == Held(r.streams);
  }

  lemma FeedEventKeepsTokens(w: F.Worker, f: F.Event, delivers: F.Delivery)
    requires F.Inv(w) && F.Enabled(w, f) && !f.Manage? && !f.Update? && !f.Drop?
    ensures F.Inv(F.Apply(w, f, delivers))
    ensures forall u <- F.Apply(w, f, delivers).users ::
      u in w.users && F.Apply(w, f, delivers).users[u].tokens == w.users[u].tokens
  {
    F.StepKeeps(w, f, delivers);
    match f
    case Started(order) => F.StartKeeps(w, order);
    case Halted(order) => F.StopKeeps(w, order);
    case Opened(s) => F.OnOpenKeeps(w, s, delivers);
    case Received(s, _) =>
      F.DropUserFrame(w.(failures := w.failures + [(w.peers[s].user, F.InvalidToken)]), w.peers[s].user);
    case Closed(s) => F.OnCloseKeeps(w, s);
    case Errored(s, _) =>
      F.DropUserFrame(w.(failures := w.failures + [(w.peers[s].user, F.HandshakeUnauthorized)]), w.peers[s].user);
    case Fired(t) => F.OnTimerKeeps(w, t);
  }

  lemma StepKeeps(r: Registry, e: Event, delivers: F.Delivery)
    requires Inv(r) && Enabled(r, e)
    ensures Inv(Apply(r, e, delivers))
  {
    match e
    case StreamOpened(symbols) => StreamOpenedKeeps(r, symbols, delivers);
    case StreamClosed(index) => StreamClosedKeeps(r, index, delivers);
    case AlertsRead(_) => OwnersKeep(r, e, delivers);
    case InterestRead(_, _) => OwnersKeep(r, e, delivers);
    case OwnersReleased => ReleaseOwnedKeeps(r, delivers);
    case CatalogChanged(_) =>
    case Hydrated => SyncKeeps(r, delivers);
    case LoggedIn(session) => F.ManageUserKeeps(r.feed, FEED_USER, session, ActiveTokens(r.refs, r.catalog));
    case FeedEvent(f) => FeedEventKeepsTokens(r.feed, f, delivers);
  }

  lemma {:induction false} RunsKeep(states: seq<Registry>, events: seq<Event>, delivers: F.Delivery, i: nat)
    requires IsRun(states, events, delivers) && i < |states|
    ensures Inv(states[i])
  {
    if i == 0 {
      F.FreshIsSafe();
    } else {
      RunsKeep(states, events, delivers, i - 1);
      StepKeeps(states[i - 1], events[i - 1], delivers);
    }
  }

  /** Main result: in every reachable state a symbol's count is its unreleased stream subscriptions,
      with multiplicity, plus one if alerts hold it and one if paper interest holds it; no zero
      count is stored. */
  lemma RefCountsAreExact(states: seq<Registry>, events: seq<Event>, delivers: F.Delivery, i: nat, s: string)
    requires IsRun(states, events, delivers) && i < |states|
    ensures var r := states[i];
      && Count(r.refs, s) == Held(r.streams)[s] + (if s in r.alerts then 1 else 0) + (if s in r.paper then 1 else 0)
      && (s in r.refs <==> Count(r.refs, s) > 0)
  {
    RunsKeep(states, events, delivers, i);
    OwnedOnce(states[i].alerts, s);
    OwnedOnce(states[i].paper, s);
  }

  lemma {:induction false} OwnedOnce(owned: seq<string>, s: string)
    requires OwnSet(owned)
    ensures multiset(owned)[s] == if s in owned then 1 else 0
  {
    if owned != [] {
      var last := |owned| - 1;
      assert owned == owned[..last] + [owned[last]];
      OwnedOnce(owned[..last], s);
    }
  }

  /** `token` is the symbol's: its NSE listing's, or its BSE listing's where NSE does not list it. */
  ghost predicate IsToken(catalog: Catalog, symbol: string, token: F.Token) {
    && token != ""
    && ((NSE, symbol) in catalog ==> catalog[(NSE, symbol)] == token)
    && ((NSE, symbol) !in catalog ==> (BSE, symbol) in catalog && catalog[(BSE, symbol)] == token)
  }

  /** Main result, end to end: whenever the feed's current socket is open, has lost no frame and the
      catalog has not changed since the last sync, the provider is subscribed to exactly the tokens
      of the counted symbols. */
  lemma ProviderHasCountedSymbols(states: seq<Registry>, events: seq<Event>, delivers: F.Delivery, i: nat)
    requires IsRun(states, events, delivers) && i < |states|
    requires var w := states[i].feed;
      && FEED_USER in w.connections && w.connections[FEED_USER].open
      && w.connections[FEED_USER].socket in w.peers && !w.peers[w.connections[FEED_USER].socket].lostFrame
    requires !states[i].stale
    ensures var r := states[i];
      forall token :: token in r.feed.peers[r.feed.connections[FEED_USER].socket].subscribed <==>
        exists s :: Count(r.refs, s) > 0 && IsToken(r.catalog, s, token)
  {
    RunsKeep(states, events, delivers, i);
    var r := states[i];
    assert F.UserOk(r.feed, FEED_USER);
    var subscribed := r.feed.peers[r.feed.connections[FEED_USER].socket].subscribed;
    assert subscribed == ActiveTokens(r.refs, r.catalog);
    forall s, token | Count(r.refs, s) > 0 && IsToken(r.catalog, s, token)
      ensures token in subscribed
    {
      assert s in r.refs.Keys && TokenOf(r.catalog, s) == token;
    }
    forall token | token in subscribed ensures exists s :: Count(r.refs, s) > 0 && IsToken(r.catalog, s, token) {
      var s :| s in r.refs.Keys && TokenOf(r.catalog, s) != "" && TokenOf(r.catalog, s) == token;
      assert Count(r.refs, s) > 0 && IsToken(r.catalog, s, token);
    }
  }

  /** A catalog change counts until the tokens are next sent: after a login or hydration none is pending. */
  lemma {:induction false} StaleSinceChange(states: seq<Registry>, events: seq<Event>, delivers: F.Delivery, i: nat)
    requires IsRun(states, events, delivers) && i <= |events| && states[i].stale
    ensures exists j | 0 <= j < i ::
      events[j].CatalogChanged? && forall k | j < k < i :: !events[k].Hydrated? && !events[k].LoggedIn?
  {
    if i > 0 && !events[i - 1].CatalogChanged? {
      StaleStays(states[i - 1], events[i - 1], delivers);
      StaleSinceChange(states, events, delivers, i - 1);
    }
  }

  lemma StaleStays(r: Registry, e: Event, delivers: F.Delivery)
    requires Enabled(r, e) && !e.CatalogChanged? && Apply(r, e, delivers).stale
    ensures r.stale && !e.Hydrated? && !e.LoggedIn?
  {
    match e
    case StreamOpened(symbols) => SubscribeAllStale(r, symbols, delivers);
    case StreamClosed(i) => UnsubscribeAllStale(r, r.streams[i], delivers);
    case AlertsRead(active) => FollowStale(r, r.alerts, Uppers(active), delivers);
    case InterestRead(rows, cap) => FollowStale(r, r.paper, WantedInterest(rows, cap), delivers);
    case OwnersReleased =>
      var r1 := UnsubscribeAll(r, r.alerts, delivers).(alerts := []);
      UnsubscribeAllStale(r1, r1.paper, delivers);
      UnsubscribeAllStale(r, r.alerts, delivers);
    case _ =>
  }

  lemma {:induction false} SubscribeAllStale(r: Registry, symbols: seq<string>, delivers: F.Delivery)
    ensures SubscribeAll(r, symbols, delivers).stale ==> r.stale
    decreases |symbols|
  {
    if symbols != [] { SubscribeAllStale(Subscribe(r, symbols[0], delivers), symbols[1..], delivers); }
  }

  lemma {:induction false} UnsubscribeAllStale(r: Registry, symbols: seq<string>, delivers: F.Delivery)
    ensures UnsubscribeAll(r, symbols, delivers).stale ==> r.stale
    decreases |symbols|
  {
    if symbols != [] { UnsubscribeAllStale(Unsubscribe(r, symbols[0], delivers), symbols[1..], delivers); }
  }

  lemma {:induction false} GainStale(r: Registry, owned: seq<string>, wanted: seq<string>, delivers: F.Delivery)
    ensures Gain(r, owned, wanted, delivers).0.stale ==> r.stale
    decreases |wanted|
  {
    if wanted != [] {
      if wanted[0] in owned { GainStale(r, owned, wanted[1..], delivers); }
      else { GainStale(Subscribe(r, wanted[0], delivers), owned + [wanted[0]], wanted[1..], delivers); }
    }
  }

  lemma {:induction false} ShedStale(r: Registry, kept: seq<string>, owned: seq<string>, wanted: seq<string>,
                                     delivers: F.Delivery)
    ensures Shed(r, kept, owned, wanted, delivers).0.stale ==> r.stale
    decreases |owned|
  {
    if owned != [] {
      if owned[0] in wanted { ShedStale(r, kept + [owned[0]], owned[1..], wanted, delivers); }
      else { ShedStale(Unsubscribe(r, owned[0], delivers), kept, owned[1..], wanted, delivers); }
    }
  }

  lemma FollowStale(r: Registry, owned: seq<string>, wanted: seq<string>, delivers: F.Delivery)
    ensures Follow(r, owned, wanted, delivers).0.stale ==> r.stale
  {
    GainStale(r, owned, wanted, delivers);
    var gained := Gain(r, owned, wanted, delivers);
    ShedStale(gained.0, [], gained.1, wanted, delivers);
  }

  /** The catalog the last change brought. */
  ghost function LatestCatalog(events: seq<Event>, k: nat): Catalog
    requires k <= |events|
  {
    if k == 0 then map[]
    else if events[k - 1].CatalogChanged? then events[k - 1].catalog
    else LatestCatalog(events, k - 1)
  }

  lemma CatalogStays(r: Registry, e: Event, delivers: F.Delivery)
    requires Inv(r) && Enabled(r, e) && !e.CatalogChanged?
    ensures Apply(r, e, delivers).catalog == r.catalog
  {
    hide Counted, Synced, Follow, SubscribeAll, UnsubscribeAll, References, F.ManageUser, F.Apply;
    match e
    case StreamOpened(symbols) => SubscribeAllCatalog(r, symbols, delivers);
    case StreamClosed(i) => UnsubscribeAllCatalog(r, r.streams[i], delivers);
    case AlertsRead(active) => FollowCatalog(r, r.alerts, Uppers(active), delivers);
    case InterestRead(rows, cap) => FollowCatalog(r, r.paper, WantedInterest(rows, cap), delivers);
    case OwnersReleased =>
      UnsubscribeAllCatalog(r, r.alerts, delivers);
      var r1 := UnsubscribeAll(r, r.alerts, delivers).(alerts := []);
      UnsubscribeAllCatalog(r1, r1.paper, delivers);
    case _ =>
  }

  lemma {:induction false} SubscribeAllCatalog(r: Registry, symbols: seq<string>, delivers: F.Delivery)
    ensures SubscribeAll(r, symbols, delivers).catalog == r.catalog
    decreases |symbols|
  {
    if symbols != [] { SubscribeAllCatalog(Subscribe(r, symbols[0], delivers), symbols[1..], delivers); }
  }

  lemma {:induction false} UnsubscribeAllCatalog(r: Registry, symbols: seq<string>, delivers: F.Delivery)
    ensures UnsubscribeAll(r, symbols, delivers).catalog == r.catalog
    decreases |symbols|
  {
    if symbols != [] { UnsubscribeAllCatalog(Unsubscribe(r, symbols[0], delivers), symbols[1..], delivers); }
  }

  lemma {:induction false} GainCatalog(r: Registry, owned: seq<string>, wanted: seq<string>, delivers: F.Delivery)
    ensures Gain(r, owned, wanted, delivers).0.catalog == r.catalog
    decreases |wanted|
  {
    if wanted != [] {
      if wanted[0] in owned { GainCatalog(r, owned, wanted[1..], delivers); }
      else { GainCatalog(Subscribe(r, wanted[0], delivers), owned + [wanted[0]], wanted[1..], delivers); }
    }
  }

  lemma {:induction false} ShedCatalog(r: Registry, kept: seq<string>, owned: seq<string>, wanted: seq<string>,
                                       delivers: F.Delivery)
    ensures Shed(r, kept, owned, wanted, delivers).0.catalog == r.catalog
    decreases |owned|
  {
    if owned != [] {
      if owned[0] in wanted { ShedCatalog(r, kept + [owned[0]], owned[1..], wanted, delivers); }
      else { ShedCatalog(Unsubscribe(r, owned[0], delivers), kept, owned[1..], wanted, delivers); }
    }
  }

  lemma FollowCatalog(r: Registry, owned: seq<string>, wanted: seq<string>, delivers: F.Delivery)
    ensures Follow(r, owned, wanted, delivers).0.catalog == r.catalog
  {
    GainCatalog(r, owned, wanted, delivers);
    var gained := Gain(r, owned, wanted, delivers);
    ShedCatalog(gained.0, [], gained.1, wanted, delivers);
  }

  /** The catalog is always the one last loaded, and a login hands its session and the counted symbols' tokens to
      the feed. */
  lemma {:induction false} CatalogIsLatest(
    states: seq<Registry>, events: seq<Event>, delivers: F.Delivery, i: nat)
    requires IsRun(states, events, delivers) && i <= |events|
    ensures states[i].catalog == LatestCatalog(events, i)
    ensures i > 0 && events[i - 1].LoggedIn? ==>
      var users := states[i].feed.users;
      && FEED_USER in users && users[FEED_USER].session == events[i - 1].session
      && users[FEED_USER].tokens == ActiveTokens(states[i].refs, states[i].catalog)
  {
    if i > 0 {
      hide Inv, Apply, Enabled;
      CatalogIsLatest(states, events, delivers, i - 1);
      RunsKeep(states, events, delivers, i - 1);
      var r, e := states[i - 1], events[i - 1];
      if e.CatalogChanged? || e.LoggedIn? { LoginIs(r, e, delivers); }
      if !e.CatalogChanged? { CatalogStays(r, e, delivers); }
    }
  }

  /** The feed's own events reach the feed and nothing else. */
  lemma FeedEventsReachTheFeed(states: seq<Registry>, events: seq<Event>, delivers: F.Delivery, i: nat)
    requires IsRun(states, events, delivers) && i < |events| && events[i].FeedEvent?
    ensures F.Enabled(states[i].feed, events[i].event)
    ensures states[i + 1] == states[i].(feed := F.Apply(states[i].feed, events[i].event, delivers))
  {
  }

  lemma LoginIs(r: Registry, e: Event, delivers: F.Delivery)
    requires Inv(r) && Enabled(r, e)
    ensures e.CatalogChanged? ==> Apply(r, e, delivers).catalog == e.catalog
    ensures e.LoggedIn? ==>
      var n := Apply(r, e, delivers);
      && FEED_USER in n.feed.users && n.refs == r.refs && n.catalog == r.catalog
      && n.feed.users[FEED_USER] == F.UserState(e.session, ActiveTokens(r.refs, r.catalog), 0)
  {
    if e.LoggedIn? { F.ManageUserKeeps(r.feed, FEED_USER, e.session, ActiveTokens(r.refs, r.catalog)); }
  }

  // ------------------------------------------------------------------ who holds what after each event

  /** How often the list names the symbol, in any case. */
  function Named(symbols: seq<string>, s: string): nat {
    if symbols == [] then 0 else (if Upper(symbols[0]) == s then 1 else 0) + Named(symbols[1..], s)
  }

  lemma {:induction false} NamedIs(symbols: seq<string>, s: string)
    ensures multiset(Uppers(symbols))[s] == Named(symbols, s)
    ensures s in Uppers(symbols) <==> exists a <- symbols :: Upper(a) == s
  {
    if symbols != [] {
      UppersCons(symbols);
      NamedIs(symbols[1..], s);
      assert forall a :: a in symbols <==> a == symbols[0] || a in symbols[1..];
    }
  }

  /** Main result: opening a stream adds to each symbol's count as often as the list names it, and holds the
      list until released; alerts and paper interest stay. */
  lemma OpeningCounts(r: Registry, symbols: seq<string>, delivers: F.Delivery, s: string)
    requires Inv(r)
    ensures var r' := Apply(r, StreamOpened(symbols), delivers);
      && Count(r'.refs, s) == Count(r.refs, s) + Named(symbols, s)
      && r'.streams == r.streams + [symbols] && r'.alerts == r.alerts && r'.paper == r.paper
  {
    hide SubscribeAll, Synced;
    NamedIs(symbols, s);
    SubscribeAllKeeps(r, symbols, References(r), delivers);
  }

  /** Main result: releasing a stream takes away from each symbol's count as often as its list names it. */
  lemma ReleasingCounts(r: Registry, i: nat, delivers: F.Delivery, s: string)
    requires Inv(r) && i < |r.streams|
    ensures var r' := Apply(r, StreamClosed(i), delivers);
      && Count(r'.refs, s) == Count(r.refs, s) - Named(r.streams[i], s)
      && r'.streams == r.streams[..i] + r.streams[i + 1..] && r'.alerts == r.alerts && r'.paper == r.paper
  {
    hide UnsubscribeAll, Synced;
    var rest := Held(r.streams[..i] + r.streams[i + 1..]) + multiset(r.alerts) + multiset(r.paper);
    NamedIs(r.streams[i], s);
    HeldWithout(r.streams, i);
    assert References(r) == rest + multiset(Uppers(r.streams[i]));
    UnsubscribeAllKeeps(r, r.streams[i], rest, delivers);
  }

  /** Only what alerts hold changes: a symbol's count moves with it. */
  ghost predicate OnlyAlerts(r: Registry, r': Registry, s: string) {
    && r'.streams == r.streams && r'.paper == r.paper && r'.catalog == r.catalog
    && Count(r'.refs, s) - (if s in r'.alerts then 1 else 0) == Count(r.refs, s) - (if s in r.alerts then 1 else 0)
  }

  /** Main result: after the alerts are read they hold exactly the active symbols, upper-cased; every other
      owner's references stay. */
  lemma AlertsHoldTheActive(r: Registry, active: seq<string>, delivers: F.Delivery, s: string)
    requires Inv(r)
    ensures var r' := Apply(r, AlertsRead(active), delivers);
      (s in r'.alerts <==> exists a <- active :: Upper(a) == s) && OnlyAlerts(r, r', s)
  {
    hide Follow, Synced, Held, Uppers, NoRepeats;
    var rest := Held(r.streams) + multiset(r.paper);
    assert References(r) == rest + multiset(r.alerts);
    UppersAreUpper(active);
    NamedIs(active, s);
    FollowKeeps(r, r.alerts, Uppers(active), rest, delivers);
    OwnedOnce(r.alerts, s);
    OwnedOnce(Apply(r, AlertsRead(active), delivers).alerts, s);
  }

  // ------------------------------------------------------------------ which paper interest is streamed

  function SymbolOf(row: InterestRow): string { Upper(Trim(row.symbol)) }

  /** The row is of that kind and on the one exchange that is streamed. */
  predicate Streamed(row: InterestRow, kind: InterestKind) {
    row.kind == kind && Upper(Trim(row.exchange)) == "NSE"
  }

  /** The place of the first streamed row of that kind for the symbol, or the number of rows. */
  function FirstRow(rows: seq<InterestRow>, kind: InterestKind, s: string): (n: nat)
    ensures n <= |rows|
    ensures n < |rows| ==> Streamed(rows[n], kind) && SymbolOf(rows[n]) == s
    ensures forall j | 0 <= j < n :: !(Streamed(rows[j], kind) && SymbolOf(rows[j]) == s)
  {
    if rows == [] || (Streamed(rows[0], kind) && SymbolOf(rows[0]) == s) then 0 else 1 + FirstRow(rows[1..], kind, s)
  }

  /** Symbols rank by their first working order; those with positions only come after, by their first. */
  function Rank(rows: seq<InterestRow>, s: string): nat {
    var order := FirstRow(rows, WorkingOrder, s);
    if order < |rows| then order else |rows| + FirstRow(rows, Position, s)
  }

  /** The symbols that rank before s. */
  function Ahead(rows: seq<InterestRow>, s: string): set<string> {
    set row <- rows | Rank(rows, SymbolOf(row)) < 2 * |rows| && Rank(rows, SymbolOf(row)) < Rank(rows, s) ::
      SymbolOf(row)
  }

  type Ranking = string -> nat

  ghost predicate Ascends(symbols: seq<string>, rank: Ranking) {
    forall i, j | 0 <= i < j < |symbols| :: rank(symbols[i]) < rank(symbols[j])
  }

  lemma AscendsConcat(xs: seq<string>, ys: seq<string>, rank: Ranking)
    requires Ascends(xs, rank) && Ascends(ys, rank) && forall x <- xs, y <- ys :: rank(x) < rank(y)
    ensures Ascends(xs + ys, rank)
  {
    var all, n := xs + ys, |xs|;
    forall i, j | 0 <= i < j < |all| ensures rank(all[i]) < rank(all[j]) {
      if i < n <= j {
        assert all[i] in xs && all[j] in ys;
      } else if n <= i {
        var k, m := i - n, j - n;
        assert all[i] == ys[k] && all[j] == ys[m];
      }
    }
  }

  lemma AscendsShifted(symbols: seq<string>, rank: Ranking, rank': Ranking, n: nat)
    requires Ascends(symbols, rank) && forall s <- symbols :: rank'(s) == n + rank(s)
    ensures Ascends(symbols, rank')
  {
    forall i, j | 0 <= i < j < |symbols| ensures rank'(symbols[i]) < rank'(symbols[j]) {
      assert symbols[i] in symbols && symbols[j] in symbols;
    }
  }

  function ByFirstRow(rows: seq<InterestRow>, kind: InterestKind): Ranking {
    s => FirstRow(rows, kind, s)
  }

  function ByRank(rows: seq<InterestRow>): Ranking {
    s => Rank(rows, s)
  }

  lemma FirstRowNext(rows: seq<InterestRow>, kind: InterestKind, s: string)
    requires rows != []
    ensures Streamed(rows[0], kind) && SymbolOf(rows[0]) == s ==> FirstRow(rows, kind, s) == 0
    ensures !(Streamed(rows[0], kind) && SymbolOf(rows[0]) == s) ==>
      FirstRow(rows, kind, s) == 1 + FirstRow(rows[1..], kind, s)
  {
  }

  lemma LaterRows(rows: seq<InterestRow>, kind: InterestKind, symbols: seq<string>)
    requires rows != [] && Ascends(symbols, ByFirstRow(rows[1..], kind))
    requires Streamed(rows[0], kind) ==> SymbolOf(rows[0]) !in symbols
    ensures Ascends(symbols, ByFirstRow(rows, kind))
    ensures forall s <- symbols :: FirstRow(rows, kind, s) == 1 + FirstRow(rows[1..], kind, s)
  {
    hide FirstRow, Streamed, SymbolOf, Ascends;
    forall s <- symbols ensures FirstRow(rows, kind, s) == 1 + FirstRow(rows[1..], kind, s) {
      FirstRowNext(rows, kind, s);
    }
    AscendsShifted(symbols, ByFirstRow(rows[1..], kind), ByFirstRow(rows, kind), 1);
  }

  lemma FirstThenLater(rows: seq<InterestRow>, kind: InterestKind, symbols: seq<string>)
    requires rows != [] && Streamed(rows[0], kind) && Ascends(symbols, ByFirstRow(rows[1..], kind))
    requires SymbolOf(rows[0]) !in symbols
    ensures Ascends([SymbolOf(rows[0])] + symbols, ByFirstRow(rows, kind))
  {
    LaterRows(rows, kind, symbols);
    hide FirstRow, Streamed, SymbolOf;
    FirstRowNext(rows, kind, SymbolOf(rows[0]));
    AscendsConcat([SymbolOf(rows[0])], symbols, ByFirstRow(rows, kind));
  }

  /** What reading rows of one kind adds to the symbols already seen. */
  ghost predicate Adds(rows: seq<InterestRow>, kind: InterestKind, seen: seq<string>, added: seq<string>) {
    && SymbolsOf(rows, kind, seen) == seen + added && NoRepeats(seen + added)
    && (forall s :: s in added <==> s !in seen && FirstRow(rows, kind, s) < |rows|)
    && Ascends(added, ByFirstRow(rows, kind))
  }

  lemma SkipRow(rows: seq<InterestRow>, kind: InterestKind, seen: seq<string>, added: seq<string>)
    requires rows != [] && (!Streamed(rows[0], kind) || SymbolOf(rows[0]) in seen)
    requires Adds(rows[1..], kind, seen, added)
    ensures Adds(rows, kind, seen, added)
  {
    hide FirstRow, Ascends, NoRepeats;
    forall s ensures s in added <==> s !in seen && FirstRow(rows, kind, s) < |rows| { FirstRowNext(rows, kind, s); }
    LaterRows(rows, kind, added);
  }

  lemma TakeRow(rows: seq<InterestRow>, kind: InterestKind, seen: seq<string>, later: seq<string>)
    requires rows != [] && Streamed(rows[0], kind) && SymbolOf(rows[0]) !in seen
    requires Adds(rows[1..], kind, seen + [SymbolOf(rows[0])], later)
    ensures Adds(rows, kind, seen, [SymbolOf(rows[0])] + later)
  {
    hide FirstRow, Ascends, NoRepeats, Streamed;
    var symbol := SymbolOf(rows[0]);
    var added := [symbol] + later;
    assert seen + added == seen + [symbol] + later;
    TakenFirst(rows, kind, seen);
    forall s ensures s in added <==> s !in seen && FirstRow(rows, kind, s) < |rows| {
      FirstRowNext(rows, kind, s);
      assert s in added <==> s == symbol || s in later;
      assert s in seen + [symbol] <==> s in seen || s == symbol;
    }
    FirstThenLater(rows, kind, later);
  }

  lemma TakenFirst(rows: seq<InterestRow>, kind: InterestKind, seen: seq<string>)
    requires rows != [] && Streamed(rows[0], kind) && SymbolOf(rows[0]) !in seen
    ensures SymbolsOf(rows, kind, seen) == SymbolsOf(rows[1..], kind, seen + [SymbolOf(rows[0])])
  {
  }

  lemma OneMore(seen: seq<string>, symbol: string)
    requires NoRepeats(seen)
    ensures symbol !in seen ==> NoRepeats(seen + [symbol])
  {
  }

  lemma NoRows(kind: InterestKind, seen: seq<string>)
    requires NoRepeats(seen)
    ensures Adds([], kind, seen, [])
  {
    assert seen + [] == seen;
  }

  lemma {:induction false} NewSymbols(rows: seq<InterestRow>, kind: InterestKind, seen: seq<string>)
    returns (added: seq<string>)
    requires NoRepeats(seen)
    ensures Adds(rows, kind, seen, added)
    decreases |rows|
  {
    hide Adds, NoRepeats, Streamed, SymbolOf;
    if rows == [] {
      NoRows(kind, seen);
      added := [];
    } else if !Streamed(rows[0], kind) || SymbolOf(rows[0]) in seen {
      added := NewSymbols(rows[1..], kind, seen);
      SkipRow(rows, kind, seen, added);
    } else {
      OneMore(seen, SymbolOf(rows[0]));
      var later := NewSymbols(rows[1..], kind, seen + [SymbolOf(rows[0])]);
      TakeRow(rows, kind, seen, later);
      added := [SymbolOf(rows[0])] + later;
    }
  }

  /** Both kinds together: each symbol once, in the order of its rank. */
  ghost predicate Ranked(rows: seq<InterestRow>, symbols: seq<string>) {
    && NoRepeats(symbols)
    && (forall s :: s in symbols <==> Rank(rows, s) < 2 * |rows|)
    && Ascends(symbols, ByRank(rows))
  }

  lemma OrdersThenPositions(rows: seq<InterestRow>)
    ensures Ranked(rows, SymbolsOf(rows, Position, SymbolsOf(rows, WorkingOrder, [])))
  {
    hide SymbolsOf, FirstRow;
    var orders := NewSymbols(rows, WorkingOrder, []);
    assert [] + orders == orders;
    var positions := NewSymbols(rows, Position, orders);
    RanksAscend(rows, orders, positions);
  }

  lemma RanksAscend(rows: seq<InterestRow>, orders: seq<string>, positions: seq<string>)
    requires NoRepeats(orders + positions)
    requires forall s :: s in orders <==> FirstRow(rows, WorkingOrder, s) < |rows|
    requires forall s :: s in positions <==> s !in orders && FirstRow(rows, Position, s) < |rows|
    requires Ascends(orders, ByFirstRow(rows, WorkingOrder)) && Ascends(positions, ByFirstRow(rows, Position))
    ensures Ranked(rows, orders + positions)
  {
    hide FirstRow, NoRepeats, Rank, Ascends;
    var all := orders + positions;
    forall s ensures
      && (s in all <==> Rank(rows, s) < 2 * |rows|)
      && (s in orders ==> Rank(rows, s) == FirstRow(rows, WorkingOrder, s))
      && (s in positions ==> Rank(rows, s) == |rows| + FirstRow(rows, Position, s))
    {
      RankCases(rows, s);
      assert s in all <==> s in orders || s in positions;
    }
    AscendsShifted(orders, ByFirstRow(rows, WorkingOrder), ByRank(rows), 0);
    AscendsShifted(positions, ByFirstRow(rows, Position), ByRank(rows), |rows|);
    AscendsConcat(orders, positions, ByRank(rows));
  }

  lemma RankCases(rows: seq<InterestRow>, s: string)
    ensures var order, position := FirstRow(rows, WorkingOrder, s), FirstRow(rows, Position, s);
      Rank(rows, s) == if order < |rows| then order else |rows| + position
  {
  }

  /** In a ranked list a symbol stands behind exactly the symbols that rank before it. */
  lemma PlaceIsRank(rows: seq<InterestRow>, symbols: seq<string>, i: nat)
    requires Ranked(rows, symbols) && i < |symbols|
    ensures |Ahead(rows, symbols[i])| == i
  {
    hide Rank;
    var s := symbols[i];
    forall t ensures t in Ahead(rows, s) <==> t in symbols[..i] {
      InAhead(rows, s, t);
      if t in symbols {
        var j :| 0 <= j < |symbols| && symbols[j] == t;
        assert j < i ==> symbols[..i][j] == t;
        assert t in symbols[..i] ==> j < i;
        assert j < i ==> ByRank(rows)(t) < ByRank(rows)(s);
        assert i < j ==> ByRank(rows)(s) < ByRank(rows)(t);
      }
    }
    assert Ahead(rows, s) == Elements(symbols[..i]);
    DistinctSize(symbols[..i]);
  }

  lemma InAhead(rows: seq<InterestRow>, s: string, t: string)
    ensures t in Ahead(rows, s) <==> Rank(rows, t) < 2 * |rows| && Rank(rows, t) < Rank(rows, s)
  {
    if Rank(rows, t) < 2 * |rows| {
      var order := FirstRow(rows, WorkingOrder, t);
      var row := if order < |rows| then rows[order] else rows[FirstRow(rows, Position, t)];
      assert row in rows && SymbolOf(row) == t;
    }
  }

  /** Main result: after paper interest is read it holds a symbol if and only if some working order or position
      on NSE names it and fewer than `cap` symbols rank before it, working orders ahead of positions; every
      other owner's references stay. */
  lemma PaperHoldsTheFirst(r: Registry, rows: seq<InterestRow>, cap: nat, delivers: F.Delivery, s: string)
    requires Inv(r)
    ensures var r' := Apply(r, InterestRead(rows, cap), delivers);
      && (s in r'.paper <==> Rank(rows, s) < 2 * |rows| && |Ahead(rows, s)| < cap)
      && r'.streams == r.streams && r'.alerts == r.alerts && r'.catalog == r.catalog
      && Count(r'.refs, s) - (if s in r'.paper then 1 else 0) == Count(r.refs, s) - (if s in r.paper then 1 else 0)
  {
    hide Follow, SymbolsOf, Rank, Ahead, Synced;
    OrdersThenPositions(rows);
    var all := SymbolsOf(rows, Position, SymbolsOf(rows, WorkingOrder, []));
    var wanted := WantedInterest(rows, cap);
    FirstAreKept(rows, all, cap, s);
    SymbolsOfAreUpper(rows, WorkingOrder, []);
    SymbolsOfAreUpper(rows, Position, SymbolsOf(rows, WorkingOrder, []));
    FollowKeeps(r, r.paper, wanted, Held(r.streams) + multiset(r.alerts), delivers);
    OwnedOnce(r.paper, s);
    OwnedOnce(Apply(r, InterestRead(rows, cap), delivers).paper, s);
  }

  lemma FirstAreKept(rows: seq<InterestRow>, all: seq<string>, cap: nat, s: string)
    requires Ranked(rows, all)
    ensures var kept := if |all| > cap then all[..cap] else all;
      && (s in kept <==> Rank(rows, s) < 2 * |rows| && |Ahead(rows, s)| < cap)
      && forall t <- kept :: t in all
  {
    hide Rank, Ahead;
    var kept := if |all| > cap then all[..cap] else all;
    if s in all {
      var i :| 0 <= i < |all| && all[i] == s;
      PlaceIsRank(rows, all, i);
      assert i < cap ==> i < |kept| && kept[i] == s;
      assert s in kept ==> exists j :: 0 <= j < |kept| && kept[j] == s && all[j] == s;
    }
  }

  /** Releasing a stream undoes opening it: every count is what it was before. */
  lemma ReleaseUndoesOpen(r: Registry, symbols: seq<string>, delivers: F.Delivery)
    requires Inv(r)
    ensures var r1 := OpenStream(r, symbols, delivers);
      && |r.streams| < |r1.streams| && CloseStream(r1, |r.streams|, delivers).refs == r.refs
      && CloseStream(r1, |r.streams|, delivers).streams == r.streams
  {
    hide Counted, References, SubscribeAll, UnsubscribeAll;
    var r1 := OpenStream(r, symbols, delivers);
    SubscribeAllKeeps(r, symbols, References(r), delivers);
    UnsubscribeAllKeeps(r1, symbols, References(r), delivers);
    var n := |r.streams|;
    assert r1.streams[..n] + r1.streams[n + 1..] == r.streams;
    SameCounts(CloseStream(r1, n, delivers).refs, r.refs, References(r));
  }

  lemma SameCounts(a: map<string, nat>, b: map<string, nat>, held: multiset<string>)
    requires Counted(a, held) && Counted(b, held)
    ensures a == b
  {
    forall s ensures s in a <==> s in b {
      assert Count(a, s) == held[s] == Count(b, s);
    }
    assert forall s <- a :: a[s] == Count(a, s) == Count(b, s) == b[s];
  }
}
