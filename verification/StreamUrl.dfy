/** Which symbols the market stream's URL carries, streamUrl of src/hooks/use-market-quotes.ts: all of
    them, or the 150 whose latest subscription is newest.  Names are compared in one total order. */
module StreamUrl {
  import opened Basics
  import opened MarketStream
  import opened NameOrder
  import opened Text

  const MAX_STREAM_SYMBOLS: nat := 150

  ghost predicate Greatest(s: set<nat>, n: nat) {
    n in s && forall v <- s :: v <= n
  }

  lemma {:induction false} GreatestExists(s: set<nat>)
    requires s != {}
    ensures exists n :: Greatest(s, n)
  {
    var x :| x in s;
    var rest := s - {x};
    if rest == {} {
      assert s == {x};
      assert Greatest(s, x);
    } else {
      GreatestExists(rest);
      var n :| Greatest(rest, n);
      var greatest := if n < x then x else n;
      forall v <- s ensures v <= greatest { assert v == x || v in rest; }
      assert Greatest(s, greatest);
    }
  }

  /** The order number of the symbol's latest subscription. */
  ghost function NewestOrder(orders: map<Callback, nat>): (n: nat)
    ensures orders != map[] ==> Greatest(orders.Values, n)
  {
    if orders.Values == {} then 0
    else
      GreatestExists(orders.Values);
      var n: nat :| Greatest(orders.Values, n);
      n
  }

  /** a sorts before b when the URL is over its cap. */
  ghost predicate Ahead(listeners: Listeners, a: Symbol, b: Symbol)
    requires a in listeners && b in listeners
  {
    var x, y := NewestOrder(listeners[a]), NewestOrder(listeners[b]);
    x > y || (x == y && Less(a, b))
  }

  function Cap(n: nat): nat { if n <= MAX_STREAM_SYMBOLS then n else MAX_STREAM_SYMBOLS }

  /** `chosen` are the symbols ahead of all the others, as many as fit. */
  ghost predicate IsSelection(listeners: Listeners, chosen: set<Symbol>) {
    && chosen <= listeners.Keys && |chosen| == (if |listeners| <= 150 then |listeners| else 150)
    && forall a <- chosen, b <- listeners.Keys - chosen :: Ahead(listeners, a, b)
  }

  /** `names` lists the symbols once each, every one ahead of those after it. */
  ghost predicate IsSorted(listeners: Listeners, names: seq<Symbol>) {
    && (forall s :: s in names <==> s in listeners)
    && (forall i, j | 0 <= i < j < |names| :: names[i] != names[j] && Ahead(listeners, names[i], names[j]))
  }

  lemma KeptIsAhead(listeners: Listeners, names: seq<Symbol>, n: nat, a: Symbol, b: Symbol)
    requires IsSorted(listeners, names) && n <= |names| && a in names[..n] && b in names && b !in names[..n]
    ensures Ahead(listeners, a, b)
  {
    hide Ahead;
    var i :| 0 <= i < n && names[..n][i] == a;
    var j :| 0 <= j < |names| && names[j] == b;
    assert names[i] == a && (forall t | 0 <= t < n :: names[t] == names[..n][t]);
    assert Ahead(listeners, names[i], names[j]);
  }

  /** Sorting and slicing makes a selection. */
  lemma SortAndSliceSelects(listeners: Listeners, names: seq<Symbol>)
    requires IsSorted(listeners, names)
    ensures |names| == |listeners| && IsSelection(listeners, Elements(names[..Cap(|listeners|)]))
  {
    DistinctSize(names);
    assert Elements(names) == listeners.Keys;
    var kept := names[..Cap(|listeners|)];
    DistinctSize(kept);
    forall a <- Elements(kept), b <- listeners.Keys - Elements(kept) ensures Ahead(listeners, a, b) {
      KeptIsAhead(listeners, names, |kept|, a, b);
    }
  }

  lemma AheadIsStrict(listeners: Listeners, a: Symbol, b: Symbol)
    requires a in listeners && b in listeners
    ensures Ahead(listeners, a, b) ==> !Ahead(listeners, b, a)
  {
    LessIsStrict(a, b);
  }

  lemma AheadIsTransitive(listeners: Listeners, a: Symbol, b: Symbol, c: Symbol)
    requires a in listeners && b in listeners && c in listeners
    ensures Ahead(listeners, a, b) && Ahead(listeners, b, c) ==> Ahead(listeners, a, c)
  {
    LessIsTransitive(a, b, c);
  }

  lemma AheadIsTotal(listeners: Listeners, a: Symbol, b: Symbol)
    requires a in listeners && b in listeners && a != b
    ensures Ahead(listeners, a, b) || Ahead(listeners, b, a)
  {
    LessIsStrict(a, b);
  }

  // ------------------------------------------------------------------ the sort

  /** `best` sorts before all the others. */
  ghost predicate Foremost(listeners: Listeners, rest: set<Symbol>, best: Symbol)
    requires rest <= listeners.Keys
  {
    best in rest && forall s <- rest :: s != best ==> Ahead(listeners, best, s)
  }

  lemma {:induction false} ForemostExists(listeners: Listeners, rest: set<Symbol>)
    requires rest != {} && rest <= listeners.Keys
    ensures exists best :: Foremost(listeners, rest, best)
    decreases rest
  {
    hide Ahead;
    var x :| x in rest;
    var others := rest - {x};
    if others == {} {
      assert rest == {x};
      assert Foremost(listeners, rest, x);
    } else {
      ForemostExists(listeners, others);
      var y :| Foremost(listeners, others, y);
      AheadIsTotal(listeners, x, y);
      var best := if Ahead(listeners, x, y) then x else y;
      forall s <- rest | s != best ensures Ahead(listeners, best, s) {
        AheadIsTransitive(listeners, x, y, s);
      }
      assert Foremost(listeners, rest, best);
    }
  }

  /** The symbols in the order sort() gives them. */
  ghost function Sorted(listeners: Listeners, rest: set<Symbol>): seq<Symbol>
    requires rest <= listeners.Keys
    decreases rest
  {
    if rest == {} then []
    else
      ForemostExists(listeners, rest);
      var best :| Foremost(listeners, rest, best);
      [best] + Sorted(listeners, rest - {best})
  }

  ghost predicate Descends(listeners: Listeners, names: seq<Symbol>)
    requires forall s <- names :: s in listeners
  {
    forall i, j | 0 <= i < j < |names| :: names[i] != names[j] && Ahead(listeners, names[i], names[j])
  }

  lemma NothingDescends(listeners: Listeners)
    ensures Descends(listeners, [])
  {
  }

  lemma {:induction false} SortedDescends(listeners: Listeners, rest: set<Symbol>)
    requires rest <= listeners.Keys
    ensures forall s :: s in Sorted(listeners, rest) <==> s in rest
    ensures Descends(listeners, Sorted(listeners, rest))
    decreases rest
  {
    hide Ahead, Descends;
    if rest == {} {
      NothingDescends(listeners);
    } else {
      ForemostExists(listeners, rest);
      var best :| Foremost(listeners, rest, best)
        && Sorted(listeners, rest) == [best] + Sorted(listeners, rest - {best});
      SortedDescends(listeners, rest - {best});
      DescendsFrom(listeners, rest, best, Sorted(listeners, rest - {best}));
    }
  }

  lemma DescendsFrom(listeners: Listeners, rest: set<Symbol>, best: Symbol, tail: seq<Symbol>)
    requires rest <= listeners.Keys && Foremost(listeners, rest, best)
    requires (forall s :: s in tail <==> s in rest - {best}) && Descends(listeners, tail)
    ensures forall s <- [best] + tail :: s in listeners
    ensures forall s :: s in [best] + tail <==> s in rest
    ensures Descends(listeners, [best] + tail)
  {
    hide Ahead;
    var all := [best] + tail;
    assert forall s :: s in all <==> s == best || s in tail;
    forall k | 0 <= k < |all| ensures all[k] in listeners { assert all[k] in all; }
    forall i, j | 0 <= i < j < |all| ensures all[i] != all[j] && Ahead(listeners, all[i], all[j]) {
      assert all[j] == tail[j - 1] && tail[j - 1] in tail;
      if i > 0 { assert all[i] == tail[i - 1]; }
    }
  }

  /** Every set of listeners has a sorted list. */
  lemma SortedIsSorted(listeners: Listeners)
    ensures IsSorted(listeners, Sorted(listeners, listeners.Keys))
  {
    SortedDescends(listeners, listeners.Keys);
  }

  /** The symbols the URL carries. */
  ghost function Selected(listeners: Listeners): (chosen: set<Symbol>)
    ensures IsSelection(listeners, chosen)
  {
    SortedIsSorted(listeners);
    SortAndSliceSelects(listeners, Sorted(listeners, listeners.Keys));
    Elements(Sorted(listeners, listeners.Keys)[..Cap(|listeners|)])
  }

  /** symbols.sort(): the set as an ascending list. */
  ghost function Ascending(symbols: set<Symbol>): (names: seq<Symbol>)
    ensures Ordered(names) && NoRepeats(names) && Elements(names) == symbols
  {
    ListExists(symbols);
    var names :| Ordered(names) && NoRepeats(names) && Elements(names) == symbols;
    names
  }

  lemma {:induction false} ListExists(symbols: set<Symbol>)
    ensures exists names :: Ordered(names) && NoRepeats(names) && Elements(names) == symbols
  {
    SomeList(symbols);
    var list :| NoRepeats(list) && Elements(list) == symbols;
    var names := SortNames(list);
    SortIsSorting(list);
    SortKeepsElements(list);
    StaysDistinct(list, names);
    assert Elements(names) == symbols;
  }

  lemma {:induction false} SomeList(symbols: set<Symbol>)
    ensures exists list :: NoRepeats(list) && Elements(list) == symbols
    decreases symbols
  {
    if symbols == {} {
      var none: seq<Symbol> := [];
      assert NoRepeats(none) && Elements(none) == symbols;
    } else {
      var x :| x in symbols;
      SomeList(symbols - {x});
      var rest :| NoRepeats(rest) && Elements(rest) == symbols - {x};
      var list := [x] + rest;
      assert x !in rest;
      assert NoRepeats(list) && Elements(list) == symbols;
    }
  }

  lemma StaysDistinct(list: seq<Symbol>, names: seq<Symbol>)
    requires NoRepeats(list) && multiset(names) == multiset(list)
    ensures NoRepeats(names)
  {
    forall i, j | 0 <= i < j < |names| ensures names[i] != names[j] {
      DistinctCounts(list, names[i]);
      RepeatCounts(names, i, j);
    }
  }

  lemma RepeatCounts(names: seq<Symbol>, i: nat, j: nat)
    requires i < j < |names|
    ensures names[i] == names[j] ==> multiset(names)[names[i]] >= 2
  {
    var x := names[i];
    if names[j] == x {
      assert names == names[..i] + [x] + names[i + 1..j] + [x] + names[j + 1..];
    }
  }

  function Params(names: seq<Symbol>): seq<string> {
    if names == [] then [] else ["symbols=" + names[0]] + Params(names[1..])
  }

  /** The stream's URL for the subscriptions, before percent-encoding. */
  ghost function UrlFor(listeners: Listeners): Url {
    "/api/market/stream?" + Join(Params(Ascending(Selected(listeners))), "&")
  }

  lemma SameSizeSubset(a: set<Symbol>, b: set<Symbol>)
    requires a <= b && |a| == |b|
    ensures a == b
  {
    assert b == a + (b - a);
    assert |b - a| == 0;
  }

  lemma NotAllOf(a: set<Symbol>, b: set<Symbol>)
    requires |a| == |b| && a != b
    ensures exists s :: s in a && s !in b
  {
    if a <= b { SameSizeSubset(a, b); }
  }

  /** The selection depends only on the subscriptions, not on how they were sorted. */
  lemma SelectionIsUnique(listeners: Listeners, x: set<Symbol>, y: set<Symbol>)
    requires IsSelection(listeners, x) && IsSelection(listeners, y)
    ensures x == y
  {
    if x != y {
      NotAllOf(x, y);
      NotAllOf(y, x);
      var a :| a in x && a !in y;
      var b :| b in y && b !in x;
      AheadIsStrict(listeners, a, b);
    }
  }

  // ------------------------------------------------------------------ the page just opened

  /** Every recorded order number is below n. */
  ghost predicate OrdersBelow(listeners: Listeners, n: nat) {
    forall s, c :: Listens(listeners, s, c) ==> listeners[s][c] < n
  }

  lemma AddedOrders(listeners: Listeners, symbols: seq<Symbol>, callback: Callback, order: nat)
    requires NoEmptyEntry(listeners) && OrdersBelow(listeners, order)
    ensures var after := AddListeners(listeners, symbols, callback, order);
      && NoEmptyEntry(after)
      && (forall s <- symbols :: Listens(after, s, callback) && after[s][callback] == order)
      && (forall s, c :: Listens(after, s, c) ==> after[s][c] <= order)
      && (forall s, c :: Listens(after, s, c) && s !in symbols ==> after[s][c] < order)
  {
    var after := AddListeners(listeners, symbols, callback, order);
    Added(listeners, symbols, callback, order);
    forall s <- symbols ensures OrderOf(after, s, callback) == Some(order) { }
    forall s, c | Listens(after, s, c) ensures after[s][c] <= order && (s !in symbols ==> after[s][c] < order) {
      assert OrderOf(after, s, c).Some?;
    }
  }

  /** The symbols of the latest subscription are all in the URL whenever they fit at all,
      whatever older subscriptions hold. */
  lemma LatestSubscriptionKept(listeners: Listeners, symbols: seq<Symbol>, callback: Callback, order: nat,
                               chosen: set<Symbol>)
    requires NoEmptyEntry(listeners) && OrdersBelow(listeners, order) && |Elements(symbols)| <= MAX_STREAM_SYMBOLS
    requires IsSelection(AddListeners(listeners, symbols, callback, order), chosen)
    ensures Elements(symbols) <= chosen
  {
    var after := AddListeners(listeners, symbols, callback, order);
    AddedOrders(listeners, symbols, callback, order);
    forall s <- Elements(symbols) ensures s in chosen {
      assert Listens(after, s, callback);
      if s !in chosen {
        forall a <- chosen ensures a in Elements(symbols) - {s} {
          assert Ahead(after, a, s);
          AtLeastAsNew(after, a, s, symbols, callback, order);
        }
        Fewer(chosen, Elements(symbols), s);
        Fuller(after, chosen, s);
      }
    }
  }

  lemma AtLeastAsNew(after: Listeners, a: Symbol, s: Symbol, symbols: seq<Symbol>, callback: Callback, order: nat)
    requires NoEmptyEntry(after) && a in after && s in after && Ahead(after, a, s)
    requires Listens(after, s, callback) && after[s][callback] == order
    requires forall t, c :: Listens(after, t, c) && t !in symbols ==> after[t][c] < order
    ensures a in symbols
  {
    var n := NewestOrder(after[a]);
    assert after[s][callback] in after[s].Values;
    var c :| c in after[a] && after[a][c] == n;
    assert Listens(after, a, c);
  }

  lemma Fewer(chosen: set<Symbol>, all: set<Symbol>, s: Symbol)
    requires s in all && forall a <- chosen :: a in all - {s}
    ensures |chosen| < |all|
  {
    var rest := all - {s};
    assert rest == chosen + (rest - chosen);
  }

  /** A selection that leaves out a symbol is full. */
  lemma Fuller(listeners: Listeners, chosen: set<Symbol>, s: Symbol)
    requires IsSelection(listeners, chosen) && s in listeners && s !in chosen
    ensures |chosen| == MAX_STREAM_SYMBOLS
  {
    Fewer(chosen, listeners.Keys, s);
  }

  lemma DropKeepsOrders(listeners: Listeners, symbols: seq<Symbol>, callback: Callback, n: nat)
    requires NoEmptyEntry(listeners) && OrdersBelow(listeners, n)
    ensures var after := DropListeners(listeners, symbols, callback);
      NoEmptyEntry(after) && OrdersBelow(after, n)
  {
    var after := DropListeners(listeners, symbols, callback);
    Dropped(listeners, symbols, callback);
    forall s, c | Listens(after, s, c) ensures after[s][c] < n { assert OrderOf(after, s, c).Some?; }
  }

  /** In every state of every run order numbers are below the next one. */
  lemma {:induction false} RunsNumberSubscriptions(states: seq<Manager>, urlOf: UrlOf, events: seq<Event>, i: nat)
    requires IsRun(states, urlOf, events) && i <= |events|
    ensures NoEmptyEntry(states[i].listeners) && OrdersBelow(states[i].listeners, states[i].nextSubscription)
  {
    if i > 0 {
      RunsNumberSubscriptions(states, urlOf, events, i - 1);
      var m, e := states[i - 1], events[i - 1];
      match e
      case Subscribe(symbols, callback, _) =>
        AddedOrders(m.listeners, symbols, callback, m.nextSubscription);
      case Unsubscribe(symbols, callback, _) =>
        DropKeepsOrders(m.listeners, symbols, callback, m.nextSubscription);
      case _ =>
        OnlySubscribingChangesListeners(m, urlOf, e);
    }
  }

  predicate SameSubscriptions(m: Manager, n: Manager) {
    n.listeners == m.listeners && n.nextSubscription == m.nextSubscription
  }

  lemma ReconnectKeepsSubscriptions(m: Manager, urlOf: UrlOf, constructs: bool)
    ensures SameSubscriptions(m, Reconnect(m, urlOf, constructs))
  {
  }

  lemma OnlySubscribingChangesListeners(m: Manager, urlOf: UrlOf, e: Event)
    requires Enabled(m, e) && !e.Subscribe? && !e.Unsubscribe?
    ensures SameSubscriptions(m, Step(m, urlOf, e))
  {
    hide Reconnect;
    match e
    case TimerFired(t, constructs) =>
      ReconnectKeepsSubscriptions(m.(armed := m.armed - {t}, cancelReconnect := None), urlOf, constructs);
    case Opened(_) =>
    case Errored(_, _) =>
    case Probed(_, _) =>
  }

  /** No subscription or unsubscription from event i up to event n. */
  predicate Undisturbed(events: seq<Event>, i: nat, n: nat)
    requires n <= |events|
  {
    forall k | i <= k < n :: !events[k].Subscribe? && !events[k].Unsubscribe?
  }

  lemma {:induction false} ListenersStay(states: seq<Manager>, urlOf: UrlOf, events: seq<Event>, i: nat, n: nat)
    requires IsRun(states, urlOf, events) && i <= n <= |events| && Undisturbed(events, i, n)
    ensures states[n].listeners == states[i].listeners
    decreases n
  {
    hide Step, Enabled;
    if i < n {
      ListenersStay(states, urlOf, events, i, n - 1);
      OnlySubscribingChangesListeners(states[n - 1], urlOf, events[n - 1]);
    }
  }

  /** Main result, end to end: in every run of the manager with its own URL, after a subscription of at most
      150 symbols and until subscriptions change again, once no reconnect is armed every open source was
      opened with the URL of the selected symbols, and all of the subscription's symbols are among them. */
  lemma NewestPageWins(states: seq<Manager>, events: seq<Event>, i: nat, n: nat, s: Id)
    requires IsRun(states, UrlFor, events) && i < n <= |events| && events[i].Subscribe?
    requires Undisturbed(events, i + 1, n) && |Elements(events[i].symbols)| <= 150
    requires states[n].armed == {} && IsOpen(states[n], s)
    ensures Elements(events[i].symbols) <= Selected(states[n].listeners)
    ensures states[n].sources[s].url == UrlFor(states[n].listeners)
  {
    hide Step, UrlFor;
    RunsNumberSubscriptions(states, UrlFor, events, i);
    ListenersStay(states, UrlFor, events, i + 1, n);
    var chosen := Selected(states[n].listeners);
    SubscribingAdds(states[i], UrlFor, events[i]);
    LatestSubscriptionKept(states[i].listeners, events[i].symbols, events[i].callback,
                           states[i].nextSubscription, chosen);
    OpenSourceServes(states, UrlFor, events, n, s);
  }

  lemma SubscribingAdds(m: Manager, urlOf: UrlOf, e: Event)
    requires e.Subscribe?
    ensures Step(m, urlOf, e).listeners == AddListeners(m.listeners, e.symbols, e.callback, m.nextSubscription)
  {
  }

  lemma OpenSourceServes(states: seq<Manager>, urlOf: UrlOf, events: seq<Event>, n: nat, s: Id)
    requires IsRun(states, urlOf, events) && n <= |events| && states[n].armed == {} && IsOpen(states[n], s)
    ensures states[n].sources[s].url == urlOf(states[n].listeners)
  {
    RunsAreSafe(states, urlOf, events, n);
    NothingArmed(states[n]);
    assert SourceOk(states[n], s);
  }
}
