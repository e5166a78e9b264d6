/** The subscription functions of server/orchestrator.ts over its module-level state, and the
    apply step of PaperInterestSubscriptions.  Each method updates the state in place and is
    proved equal to its step function in `SubscriptionRegistry`. */
module Orchestration {
  import opened AngelOne
  import opened Text
  import F = FeedWorker
  import R = SubscriptionRegistry

  class Orchestrator {
    const angelOne: AngelOneWorker
    var subscriptionRefs: map<string, nat>
    var alertSubscriptionSymbols: seq<string>
    var paperOwned: seq<string>
    var openStreams: seq<seq<string>>
    var catalog: R.Catalog
    var stale: bool

    function State(): R.Registry
      reads this, angelOne
    {
      R.Registry(subscriptionRefs, alertSubscriptionSymbols, paperOwned, openStreams, catalog, stale, angelOne.State())
    }

    constructor (delivers: F.Delivery)
      ensures State() == R.EMPTY && angelOne.delivers == delivers && fresh(angelOne)
    {
      angelOne := new AngelOneWorker(delivers);
      subscriptionRefs, alertSubscriptionSymbols, paperOwned := map[], [], [];
      openStreams, catalog, stale := [], map[], false;
    }

    method SyncAngelSubscriptions()
      modifies this, angelOne
      ensures State() == R.Sync(old(State()), angelOne.delivers)
    {
      angelOne.UpdateTokens(R.FEED_USER, R.ActiveTokens(subscriptionRefs, catalog));
      stale := false;
    }

    method LoginAngelOne(session: F.Session)
      modifies this, angelOne
      ensures State() == R.Login(old(State()), session)
    {
      angelOne.ManageUser(R.FEED_USER, session, R.ActiveTokens(subscriptionRefs, catalog));
      stale := false;
    }

    method SubscribeSymbol(symbol: string)
      modifies this, angelOne
      ensures State() == R.Subscribe(old(State()), symbol, angelOne.delivers)
    {
      var s := Upper(symbol);
      var count := R.Count(subscriptionRefs, s);
      subscriptionRefs := subscriptionRefs[s := count + 1];
      if count == 0 {
        SyncAngelSubscriptions();
      }
    }

    method UnsubscribeSymbol(symbol: string)
      modifies this, angelOne
      ensures State() == R.Unsubscribe(old(State()), symbol, angelOne.delivers)
    {
      var s := Upper(symbol);
      var count := R.Count(subscriptionRefs, s);
      if count <= 1 {
        subscriptionRefs := subscriptionRefs - {s};
        SyncAngelSubscriptions();
      } else {
        subscriptionRefs := subscriptionRefs[s := count - 1];
      }
    }

    method SubscribeMarketSymbols(symbols: seq<string>)
      modifies this, angelOne
      ensures State() == R.OpenStream(old(State()), symbols, angelOne.delivers)
    {
      ghost var done := R.SubscribeAll(State(), symbols, angelOne.delivers);
      for i := 0 to |symbols|
        invariant R.SubscribeAll(State(), symbols[i..], angelOne.delivers) == done
        invariant openStreams == old(openStreams)
      {
        assert symbols[i..][1..] == symbols[i + 1..];
        SubscribeSymbol(symbols[i]);
      }
      openStreams := openStreams + [symbols];
    }

    /** Calling the release function that subscribing stream `index` returned. */
    method ReleaseMarketSymbols(index: nat)
      requires index < |openStreams|
      modifies this, angelOne
      ensures State() == R.CloseStream(old(State()), index, angelOne.delivers)
    {
      var symbols := openStreams[index];
      UnsubscribeEach(symbols);
      openStreams := openStreams[..index] + openStreams[index + 1..];
    }

    method UnsubscribeEach(symbols: seq<string>)
      modifies this, angelOne
      ensures State() == R.UnsubscribeAll(old(State()), symbols, angelOne.delivers)
      ensures openStreams == old(openStreams) && paperOwned == old(paperOwned)
    {
      ghost var done := R.UnsubscribeAll(State(), symbols, angelOne.delivers);
      for i := 0 to |symbols|
        invariant R.UnsubscribeAll(State(), symbols[i..], angelOne.delivers) == done
        invariant openStreams == old(openStreams) && paperOwned == old(paperOwned)
      {
        assert symbols[i..][1..] == symbols[i + 1..];
        UnsubscribeSymbol(symbols[i]);
      }
    }

    /** The two loops both sources run: subscribe what is newly wanted, release what no longer is. */
    method Follow(held: seq<string>, wanted: seq<string>) returns (owned: seq<string>)
      modifies this, angelOne
      ensures (State(), owned) == R.Follow(old(State()), held, wanted, angelOne.delivers)
    {
      owned := held;
      ghost var gained := R.Gain(State(), held, wanted, angelOne.delivers);
      for i := 0 to |wanted|
        invariant R.Gain(State(), owned, wanted[i..], angelOne.delivers) == gained
      {
        assert wanted[i..][1..] == wanted[i + 1..];
        if wanted[i] !in owned {
          SubscribeSymbol(wanted[i]);
          owned := owned + [wanted[i]];
        }
      }
      var visited := owned;
      owned := [];
      ghost var followed := R.Shed(State(), [], visited, wanted, angelOne.delivers);
      for i := 0 to |visited|
        invariant R.Shed(State(), owned, visited[i..], wanted, angelOne.delivers) == followed
      {
        assert visited[i..][1..] == visited[i + 1..];
        if visited[i] in wanted {
          owned := owned + [visited[i]];
        } else {
          UnsubscribeSymbol(visited[i]);
        }
      }
    }

    method ReconcileAlertSubscriptions(activeSymbols: seq<string>)
      modifies this, angelOne
      ensures State() == R.ReconcileAlerts(old(State()), activeSymbols, angelOne.delivers)
    {
      var owned := Follow(alertSubscriptionSymbols, R.Uppers(activeSymbols));
      alertSubscriptionSymbols := owned;
    }

    method ApplyPaperInterest(rows: seq<R.InterestRow>, maxSymbols: nat)
      modifies this, angelOne
      ensures State() == R.ApplyInterest(old(State()), rows, maxSymbols, angelOne.delivers)
    {
      var owned := Follow(paperOwned, R.WantedInterest(rows, maxSymbols));
      paperOwned := owned;
    }

    /** stopOrchestrator releasing the references alerts and paper trading own. */
    method ReleaseOwned()
      modifies this, angelOne
      ensures State() == R.ReleaseOwned(old(State()), angelOne.delivers)
    {
      UnsubscribeEach(alertSubscriptionSymbols);
      alertSubscriptionSymbols := [];
      UnsubscribeEach(paperOwned);
      paperOwned := [];
    }
  }
}
