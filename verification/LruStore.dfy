/** The in-process store of server/middleware/rate-limit.ts: buckets in a map kept in
    least-recently-used order, the oldest dropped in batches when it is full. */
module LruStore {
  import opened Basics
  import opened TokenBucket

  /** `order` is the map's insertion order, oldest first. */
  datatype Store = Store(order: seq<string>, buckets: map<string, Bucket>)
  datatype Config = Config(maxKeys: nat, evictBatch: nat)

  predicate ValidConfig(cfg: Config) {
    cfg.maxKeys >= 1 && cfg.evictBatch >= 1
  }

  const EMPTY := Store([], map[])

  function Without(order: seq<string>, key: string): seq<string> {
    if order == [] then []
    else if order[0] == key then Without(order[1..], key)
    else [order[0]] + Without(order[1..], key)
  }

  function DropOldest(s: Store, n: nat): Store {
    var k := if n < |s.order| then n else |s.order|;
    Store(s.order[k..], s.buckets - Elements(s.order[..k]))
  }

  function Lookup(s: Store, key: string): Option<Bucket> {
    if key in s.buckets then Some(s.buckets[key]) else None
  }

  /** The store when `key` is about to be re-inserted. */
  function MakeRoom(s: Store, cfg: Config, key: string): Store {
    if key in s.buckets then Store(Without(s.order, key), s.buckets - {key})
    else if |s.order| >= cfg.maxKeys then DropOldest(s, cfg.evictBatch)
    else s
  }

  function TakeIn(s: Store, cfg: Config, key: string, limit: Limit, now: int): (Store, Answer)
    requires ValidLimit(limit)
  {
    var (bucket, answer) := Take(Lookup(s, key), limit, now);
    var room := MakeRoom(s, cfg, key);
    (Store(room.order + [key], room.buckets[key := bucket]), answer)
  }

  // ------------------------------------------------------------------ invariant

  /** Order and map agree, and the store is never over its maximum. */
  ghost predicate Valid(s: Store, cfg: Config) {
    && NoRepeats(s.order)
    && (forall k :: k in s.order <==> k in s.buckets)
    && |s.order| <= cfg.maxKeys
  }

  lemma {:induction false} WithoutIs(order: seq<string>, key: string)
    requires NoRepeats(order)
    ensures forall k :: k in Without(order, key) <==> k in order && k != key
    ensures NoRepeats(Without(order, key))
    ensures |Without(order, key)| == |order| - (if key in order then 1 else 0)
  {
    if order != [] {
      WithoutIs(order[1..], key);
      assert order[0] !in order[1..];
      assert forall k :: k in order <==> k == order[0] || k in order[1..];
    }
  }

  lemma {:induction false} WithoutMissing(order: seq<string>, key: string)
    requires key !in order
    ensures Without(order, key) == order
  {
    if order != [] { WithoutMissing(order[1..], key); }
  }

  lemma {:induction false} WithoutConcat(a: seq<string>, b: seq<string>, key: string)
    ensures Without(a + b, key) == Without(a, key) + Without(b, key)
  {
    if a == [] {
      assert a + b == b;
    } else {
      assert (a + b)[1..] == a[1..] + b;
      WithoutConcat(a[1..], b, key);
    }
  }

  /** Main result: the map never exceeds maxKeys, and its order lists exactly its keys. */
  lemma TakeKeepsValid(s: Store, cfg: Config, key: string, limit: Limit, now: int)
    requires ValidConfig(cfg) && ValidLimit(limit) && Valid(s, cfg)
    ensures Valid(TakeIn(s, cfg, key, limit, now).0, cfg)
  {
    WithoutIs(s.order, key);
    var room := MakeRoom(s, cfg, key);
    assert key !in room.order && |room.order| < cfg.maxKeys && NoRepeats(room.order);
    forall k ensures k in room.order <==> k in room.buckets {
      if key !in s.buckets && |s.order| >= cfg.maxKeys {
        var n := if cfg.evictBatch < |s.order| then cfg.evictBatch else |s.order|;
        assert s.order == s.order[..n] + s.order[n..];
        Apart(s.order, n, k);
      }
    }
  }

  lemma Apart(order: seq<string>, n: nat, k: string)
    requires NoRepeats(order) && n <= |order|
    ensures k in order[n..] ==> k !in order[..n]
  {
  }

  // ------------------------------------------------------------------ who stays stored

  datatype Request = Request(key: string, limit: Limit, nowMs: int)

  predicate ValidRequests(requests: seq<Request>) {
    forall r <- requests :: ValidLimit(r.limit)
  }

  function Serve(s: Store, cfg: Config, requests: seq<Request>): Store
    requires ValidRequests(requests)
    decreases |requests|
  {
    if requests == [] then s
    else Serve(TakeIn(s, cfg, requests[0].key, requests[0].limit, requests[0].nowMs).0, cfg, requests[1..])
  }

  function Keys(requests: seq<Request>): set<string> {
    set r <- requests :: r.key
  }

  lemma {:induction false} DistinctFit(order: seq<string>, within: set<string>)
    requires NoRepeats(order) && forall k <- order :: k in within
    ensures |order| <= |within|
  {
    if order != [] {
      assert order[0] !in order[1..];
      DistinctFit(order[1..], within - {order[0]});
    }
  }

  lemma NoRepeatsConcat(a: seq<string>, x: string, b: seq<string>)
    requires NoRepeats(a + [x] + b)
    ensures NoRepeats(a) && NoRepeats(b) && x !in a && x !in b
  {
    var all := a + [x] + b;
    assert all[|a|] == x;
    forall i | 0 <= i < |a| ensures a[i] != x { assert all[i] == a[i]; }
    forall i | 0 <= i < |b| ensures b[i] != x { assert all[|a| + 1 + i] == b[i]; }
    forall i, j | 0 <= i < j < |a| ensures a[i] != a[j] { assert all[i] == a[i] && all[j] == a[j]; }
    forall i, j | 0 <= i < j < |b| ensures b[i] != b[j] {
      assert all[|a| + 1 + i] == b[i] && all[|a| + 1 + j] == b[j];
    }
  }

  /** A refreshed key moves to the end; `x` keeps its place. */
  lemma RefreshSparesX(s: Store, cfg: Config, c: string, x: string, older: seq<string>, newer: seq<string>)
    requires Valid(s, cfg) && s.order == older + [x] + newer && c != x && c in s.buckets
    ensures MakeRoom(s, cfg, c).order == Without(older, c) + [x] + Without(newer, c)
    ensures forall k <- Without(newer, c) :: k in newer
  {
    NoRepeatsConcat(older, x, newer);
    WithoutConcat(older + [x], newer, c);
    WithoutConcat(older, [x], c);
    WithoutMissing([x], c);
    WithoutIs(newer, c);
  }

  /** Making room for a new key drops at most keys older than `x`. */
  lemma NewKeySparesX(s: Store, cfg: Config, c: string, x: string, older: seq<string>, newer: seq<string>,
                      seen: set<string>)
    returns (older': seq<string>)
    requires ValidConfig(cfg) && Valid(s, cfg) && s.order == older + [x] + newer && c !in s.buckets
    requires (forall k <- newer :: k in seen) && |seen + {c}| + cfg.evictBatch <= cfg.maxKeys
    ensures MakeRoom(s, cfg, c).order == older' + [x] + newer
    ensures x in MakeRoom(s, cfg, c).buckets && MakeRoom(s, cfg, c).buckets[x] == s.buckets[x]
  {
    NoRepeatsConcat(older, x, newer);
    assert x in s.order;
    older' := older;
    if |s.order| >= cfg.maxKeys {
      assert c !in newer by { assert c !in s.order; SuffixIn(older + [x], newer, c); }
      DistinctFit(newer, seen + {c} - {c});
      assert seen + {c} == (seen + {c} - {c}) + {c};
      assert |older| >= cfg.evictBatch;
      older' := older[cfg.evictBatch..];
      assert s.order[cfg.evictBatch..] == older' + [x] + newer;
      assert s.order[..cfg.evictBatch] == older[..cfg.evictBatch];
    }
  }

  /** One request for another key: `x` keeps its bucket and stays ahead of at most the keys seen. */
  lemma OtherKeySparesX(s: Store, cfg: Config, r: Request, x: string, older: seq<string>, newer: seq<string>,
                        seen: set<string>)
    returns (older': seq<string>, newer': seq<string>)
    requires ValidConfig(cfg) && ValidLimit(r.limit) && Valid(s, cfg)
    requires s.order == older + [x] + newer && r.key != x
    requires forall k <- newer :: k in seen
    requires |seen + {r.key}| + cfg.evictBatch <= cfg.maxKeys
    ensures var s' := TakeIn(s, cfg, r.key, r.limit, r.nowMs).0;
      && Valid(s', cfg) && s'.order == older' + [x] + newer'
      && (forall k <- newer' :: k in seen + {r.key})
      && x in s.buckets && Lookup(s', x) == Lookup(s, x)
  {
    var c := r.key;
    TakeKeepsValid(s, cfg, c, r.limit, r.nowMs);
    assert x in s.order;
    if c in s.buckets {
      RefreshSparesX(s, cfg, c, x, older, newer);
      older', newer' := Without(older, c), Without(newer, c) + [c];
    } else {
      older' := NewKeySparesX(s, cfg, c, x, older, newer, seen);
      newer' := newer + [c];
    }
  }

  lemma SuffixIn(a: seq<string>, b: seq<string>, k: string)
    requires k !in a + b
    ensures k !in b
  {
    assert forall j | 0 <= j < |b| :: (a + b)[|a| + j] == b[j];
  }

  lemma {:induction false} StaysBehind(
    s: Store, cfg: Config, requests: seq<Request>, x: string, older: seq<string>, newer: seq<string>, seen: set<string>)
    requires ValidConfig(cfg) && ValidRequests(requests) && Valid(s, cfg)
    requires s.order == older + [x] + newer && x !in Keys(requests)
    requires forall k <- newer :: k in seen
    requires |seen + Keys(requests)| + cfg.evictBatch <= cfg.maxKeys
    ensures x in s.buckets && Lookup(Serve(s, cfg, requests), x) == Lookup(s, x)
    decreases |requests|
  {
    assert x in s.order;
    if requests != [] {
      var r := requests[0];
      assert r in requests;
      assert r.key in Keys(requests);
      var some := seen + {r.key};
      assert some + Keys(requests[1..]) == seen + Keys(requests);
      SubsetSize(some, seen + Keys(requests));
      var older', newer' := OtherKeySparesX(s, cfg, r, x, older, newer, seen);
      assert x !in Keys(requests[1..]) by { assert Keys(requests[1..]) <= Keys(requests); }
      StaysBehind(TakeIn(s, cfg, r.key, r.limit, r.nowMs).0, cfg, requests[1..], x, older', newer', some);
    }
  }

  lemma SubsetSize(a: set<string>, b: set<string>)
    requires a <= b
    ensures |a| <= |b|
  {
    if a != b {
      assert b == a + (b - a);
    }
  }

  /** Main result: once touched, a key keeps its bucket while at most maxKeys - evictBatch other
      distinct keys are touched, so its next request sees exactly the tokens it left. */
  lemma TouchedKeyStays(s: Store, cfg: Config, x: string, limit: Limit, now: int, requests: seq<Request>)
    requires ValidConfig(cfg) && ValidLimit(limit) && Valid(s, cfg) && ValidRequests(requests)
    requires x !in Keys(requests) && |Keys(requests)| + cfg.evictBatch <= cfg.maxKeys
    ensures Lookup(Serve(TakeIn(s, cfg, x, limit, now).0, cfg, requests), x) == Some(Take(Lookup(s, x), limit, now).0)
  {
    TakeKeepsValid(s, cfg, x, limit, now);
    var touched := TakeIn(s, cfg, x, limit, now).0;
    var room := MakeRoom(s, cfg, x);
    assert touched.order == room.order + [x] + [];
    assert {} + Keys(requests) == Keys(requests);
    StaysBehind(touched, cfg, requests, x, room.order, [], {});
  }

  // ------------------------------------------------------------------ one other key more

  function Touches(keys: seq<string>, limit: Limit): (requests: seq<Request>)
    ensures |requests| == |keys|
    ensures forall i | 0 <= i < |keys| :: requests[i] == Request.Request(keys[i], limit, 0)
  {
    seq(|keys|, i requires 0 <= i < |keys| => Request.Request(keys[i], limit, 0))
  }

  lemma TouchesTail(keys: seq<string>, limit: Limit)
    requires keys != []
    ensures Touches(keys, limit)[1..] == Touches(keys[1..], limit)
  {
  }

  lemma TouchesAreValid(keys: seq<string>, limit: Limit)
    requires ValidLimit(limit)
    ensures ValidRequests(Touches(keys, limit))
  {
    forall r <- Touches(keys, limit) ensures ValidLimit(r.limit) {
      var i :| 0 <= i < |keys| && Touches(keys, limit)[i] == r;
    }
  }

  /** New keys line up behind the stored ones while there is room. */
  lemma {:induction false} Fills(s: Store, cfg: Config, keys: seq<string>, limit: Limit)
    requires ValidConfig(cfg) && ValidLimit(limit) && Valid(s, cfg)
    requires NoRepeats(s.order + keys) && |s.order + keys| <= cfg.maxKeys
    ensures ValidRequests(Touches(keys, limit))
    ensures var s' := Serve(s, cfg, Touches(keys, limit)); Valid(s', cfg) && s'.order == s.order + keys
    decreases |keys|
  {
    hide Valid, Take;
    TouchesAreValid(keys, limit);
    if keys == [] {
      assert s.order + keys == s.order;
    } else {
      var next := TakeIn(s, cfg, keys[0], limit, 0).0;
      NewAtEnd(s, cfg, keys, limit);
      TouchesTail(keys, limit);
      Fills(next, cfg, keys[1..], limit);
    }
  }

  lemma NewAtEnd(s: Store, cfg: Config, keys: seq<string>, limit: Limit)
    requires ValidConfig(cfg) && ValidLimit(limit) && Valid(s, cfg) && keys != []
    requires NoRepeats(s.order + keys) && |s.order + keys| <= cfg.maxKeys
    ensures var next := TakeIn(s, cfg, keys[0], limit, 0).0;
      && Valid(next, cfg) && next.order == s.order + [keys[0]] && next.order + keys[1..] == s.order + keys
  {
    assert keys == [keys[0]] + keys[1..];
    assert s.order + keys == s.order + [keys[0]] + keys[1..];
    NoRepeatsConcat(s.order, keys[0], keys[1..]);
    TakeKeepsValid(s, cfg, keys[0], limit, 0);
  }

  /** Stored keys touched in their order move behind the others, in that order. */
  lemma {:induction false} Refreshes(
    s: Store, cfg: Config, stale: seq<string>, keys: seq<string>, done: seq<string>, limit: Limit)
    requires ValidConfig(cfg) && ValidLimit(limit) && Valid(s, cfg) && s.order == stale + keys + done
    ensures ValidRequests(Touches(keys, limit))
    ensures var s' := Serve(s, cfg, Touches(keys, limit)); Valid(s', cfg) && s'.order == stale + done + keys
    decreases |keys|
  {
    hide Valid, Take;
    TouchesAreValid(keys, limit);
    if keys == [] {
      assert stale + keys + done == stale + done + keys;
    } else {
      var next := TakeIn(s, cfg, keys[0], limit, 0).0;
      TouchedMoves(s, cfg, stale, keys, done, limit);
      TouchesTail(keys, limit);
      Refreshes(next, cfg, stale, keys[1..], done + [keys[0]], limit);
      assert stale + (done + [keys[0]]) + keys[1..] == stale + done + keys;
    }
  }

  lemma TouchedMoves(s: Store, cfg: Config, stale: seq<string>, keys: seq<string>, done: seq<string>, limit: Limit)
    requires ValidConfig(cfg) && ValidLimit(limit) && Valid(s, cfg) && keys != [] && s.order == stale + keys + done
    ensures var next := TakeIn(s, cfg, keys[0], limit, 0).0;
      Valid(next, cfg) && next.order == stale + keys[1..] + (done + [keys[0]])
  {
    hide Without, Take;
    var key, rest := keys[0], keys[1..] + done;
    assert s.order == stale + [key] + rest;
    assert s.order[|stale|] == key;
    WithoutOne(stale, key, rest);
    assert stale + rest + [key] == stale + keys[1..] + (done + [key]);
    TakeKeepsValid(s, cfg, key, limit, 0);
  }

  lemma WithoutOne(a: seq<string>, key: string, b: seq<string>)
    requires NoRepeats(a + [key] + b)
    ensures Without(a + [key] + b, key) == a + b
  {
    NoRepeatsConcat(a, key, b);
    WithoutConcat(a + [key], b, key);
    WithoutConcat(a, [key], key);
    WithoutMissing(a, key);
    WithoutMissing(b, key);
    assert [key][1..] == [];
  }

  /** A new key in a full store drops every key among the oldest evictBatch. */
  lemma NewKeyEvicts(s: Store, cfg: Config, stale: seq<string>, x: string, rest: seq<string>, c: string, limit: Limit)
    requires ValidConfig(cfg) && ValidLimit(limit) && Valid(s, cfg) && s.order == stale + [x] + rest
    requires |s.order| == cfg.maxKeys && |stale| < cfg.evictBatch && c !in s.order
    ensures x !in TakeIn(s, cfg, c, limit, 0).0.buckets
  {
    var n := if cfg.evictBatch < |s.order| then cfg.evictBatch else |s.order|;
    assert s.order[|stale|] == x;
    assert s.order[..n][|stale|] == x;
  }

  function Key(i: nat): string { seq(i, _ => 'k') }

  function KeyList(lo: nat, hi: nat): (keys: seq<string>)
    requires lo <= hi
    ensures |keys| == hi - lo && forall i | 0 <= i < hi - lo :: keys[i] == Key(lo + i) && |keys[i]| == lo + i
  {
    seq(hi - lo, i requires 0 <= i < hi - lo => Key(lo + i))
  }

  lemma KeyListApart(lo: nat, hi: nat)
    requires lo <= hi
    ensures NoRepeats(KeyList(lo, hi))
    ensures forall k <- KeyList(lo, hi) :: lo <= |k| < hi
  {
  }

  /** Other keys that may be touched before `TouchedKeyStays` no longer speaks. */
  function Spared(cfg: Config): nat {
    if cfg.evictBatch < cfg.maxKeys then cfg.maxKeys - cfg.evictBatch else 0
  }

  /** The bound of `TouchedKeyStays` is sharp for every configuration: from the empty store, touch keys until
      it is full; one other key more than the bound allows and the last of them is gone. */
  lemma OneMoreKeyEvicts(cfg: Config, limit: Limit)
    returns (before: seq<Request>, x: string, after: seq<Request>)
    requires ValidConfig(cfg) && ValidLimit(limit)
    ensures ValidRequests(before) && before != [] && before[|before| - 1].key == x
    ensures ValidRequests(after) && x !in Keys(after) && |Keys(after)| == Spared(cfg) + 1
    ensures x !in Serve(Serve(EMPTY, cfg, before), cfg, after).buckets
  {
    hide Key, Serve, Keys, ValidRequests, NoRepeats;
    var full, first := cfg.maxKeys, cfg.maxKeys - 1 - Spared(cfg);
    var all, others := KeyList(0, full), KeyList(first, full - 1);
    x := Key(full - 1);
    before, after := Touches(all, limit), Touches(others + [Key(full)], limit);
    AllKeys(first, full);
    LastIsDropped(cfg, KeyList(0, first), others, x, Key(full), limit);
    KeysOfTouches(first, full - 1, full, limit);
  }

  lemma AllKeys(first: nat, full: nat)
    requires first < full
    ensures NoRepeats(KeyList(0, full)) && Key(full) !in KeyList(0, full)
    ensures KeyList(0, full) == KeyList(0, first) + KeyList(first, full - 1) + [Key(full - 1)]
  {
    KeyListApart(0, full);
    assert |Key(full)| == full;
  }

  lemma LastIsDropped(cfg: Config, stale: seq<string>, others: seq<string>, x: string, c: string, limit: Limit)
    requires ValidConfig(cfg) && ValidLimit(limit)
    requires var all := stale + others + [x]; NoRepeats(all) && |all| == cfg.maxKeys && c !in all
    requires |stale| < cfg.evictBatch
    ensures var before, after := Touches(stale + others + [x], limit), Touches(others + [c], limit);
      && ValidRequests(before) && ValidRequests(after)
      && x !in Serve(Serve(EMPTY, cfg, before), cfg, after).buckets
  {
    hide Valid, Serve, ValidRequests, NoRepeats;
    var all := stale + others + [x];
    EmptyIsValid(cfg);
    assert EMPTY.order + all == all;
    Fills(EMPTY, cfg, all, limit);
    LastDrops(Serve(EMPTY, cfg, Touches(all, limit)), cfg, stale, others, x, c, limit);
  }

  lemma LastDrops(s: Store, cfg: Config, stale: seq<string>, others: seq<string>, x: string, c: string, limit: Limit)
    requires ValidConfig(cfg) && ValidLimit(limit) && Valid(s, cfg) && s.order == stale + others + [x]
    requires |s.order| == cfg.maxKeys && |stale| < cfg.evictBatch && c !in s.order
    ensures ValidRequests(Touches(others + [c], limit))
    ensures x !in Serve(s, cfg, Touches(others + [c], limit)).buckets
  {
    hide Valid, Take, TakeIn, Serve, ValidRequests;
    Refreshes(s, cfg, stale, others, [x], limit);
    var s' := Serve(s, cfg, Touches(others, limit));
    assert forall k <- s'.order :: k in stale || k == x || k in others;
    assert forall k :: k in s.order <==> k in stale || k == x || k in others;
    NewKeyEvicts(s', cfg, stale, x, others, c, limit);
    TouchesAreValid(others + [c], limit);
    ServeLast(s, cfg, others, c, limit);
  }

  lemma EmptyIsValid(cfg: Config)
    ensures Valid(EMPTY, cfg)
  {
  }

  lemma {:induction false} ServeLast(s: Store, cfg: Config, keys: seq<string>, c: string, limit: Limit)
    requires ValidLimit(limit) && ValidRequests(Touches(keys, limit)) && ValidRequests(Touches(keys + [c], limit))
    ensures Serve(s, cfg, Touches(keys + [c], limit)) == TakeIn(Serve(s, cfg, Touches(keys, limit)), cfg, c, limit, 0).0
    decreases |keys|
  {
    hide TakeIn;
    TouchesTail(keys + [c], limit);
    if keys == [] {
      assert keys + [c] == [c] && [c][1..] == [];
    } else {
      TouchesTail(keys, limit);
      assert (keys + [c])[1..] == keys[1..] + [c];
      TouchesAreValid(keys[1..], limit);
      TouchesAreValid(keys[1..] + [c], limit);
      ServeLast(TakeIn(s, cfg, keys[0], limit, 0).0, cfg, keys[1..], c, limit);
    }
  }

  /** The distinct keys touched, x not among them. */
  lemma KeysOfTouches(lo: nat, x: nat, c: nat, limit: Limit)
    requires lo <= x < c
    ensures var requests := Touches(KeyList(lo, x) + [Key(c)], limit);
      |Keys(requests)| == x - lo + 1 && Key(x) !in Keys(requests)
  {
    var keys := KeyList(lo, x) + [Key(c)];
    var requests := Touches(keys, limit);
    KeyListApart(lo, x);
    forall i, j | 0 <= i < j < |keys| ensures keys[i] != keys[j] { assert |keys[i]| != |keys[j]|; }
    forall k ensures k in Keys(requests) <==> k in keys {
      if k in keys {
        var i :| 0 <= i < |keys| && keys[i] == k;
        assert requests[i].key == k;
      }
    }
    DistinctSize(keys);
    assert Keys(requests) == Elements(keys);
  }

  // ------------------------------------------------------------------ one key over a whole run

  /** The times of the requests for `x`. */
  function TimesOf(requests: seq<Request>, x: string): seq<int> {
    if requests == [] then []
    else (if requests[0].key == x then [requests[0].nowMs] else []) + TimesOf(requests[1..], x)
  }

  /** How many of the requests for `x` the store grants. */
  function GrantsIn(s: Store, cfg: Config, requests: seq<Request>, x: string): nat
    requires ValidRequests(requests)
    decreases |requests|
  {
    if requests == [] then 0
    else
      var (s', answer) := TakeIn(s, cfg, requests[0].key, requests[0].limit, requests[0].nowMs);
      (if requests[0].key == x && answer.ok then 1 else 0) + GrantsIn(s', cfg, requests[1..], x)
  }

  /** Until the last request for `x`, at most maxKeys - evictBatch other distinct keys are touched between two
      of them; `seen` are those touched since the latest. */
  predicate Sparse(requests: seq<Request>, x: string, cfg: Config, seen: set<string>)
    decreases |requests|
  {
    x in Keys(requests) ==>
      if requests[0].key == x then Sparse(requests[1..], x, cfg, {})
      else
        && |seen + {requests[0].key}| + cfg.evictBatch <= cfg.maxKeys
        && Sparse(requests[1..], x, cfg, seen + {requests[0].key})
  }

  /** The same, counted from the first request for `x` on. */
  predicate SparseAfterFirst(requests: seq<Request>, x: string, cfg: Config)
    decreases |requests|
  {
    requests != [] ==>
      if requests[0].key == x then Sparse(requests[1..], x, cfg, {}) else SparseAfterFirst(requests[1..], x, cfg)
  }

  /** `x` always comes with the same limit. */
  predicate OneLimit(requests: seq<Request>, x: string, limit: Limit) {
    forall r <- requests :: r.key == x ==> r.limit == limit
  }

  lemma TailIsLike(requests: seq<Request>, x: string, limit: Limit)
    requires requests != [] && ValidRequests(requests) && OneLimit(requests, x, limit)
    ensures ValidRequests(requests[1..]) && OneLimit(requests[1..], x, limit)
    ensures ValidLimit(requests[0].limit) && (requests[0].key == x ==> requests[0].limit == limit)
    ensures Keys(requests) == Keys(requests[1..]) + {requests[0].key}
  {
    assert requests[0] in requests;
    assert forall r :: r in requests <==> r == requests[0] || r in requests[1..];
  }

  lemma {:induction false} NoneGranted(s: Store, cfg: Config, requests: seq<Request>, x: string)
    requires ValidRequests(requests) && x !in Keys(requests)
    ensures GrantsIn(s, cfg, requests, x) == 0 && TimesOf(requests, x) == []
    decreases |requests|
  {
    hide TakeIn;
    if requests != [] {
      assert requests[0] in requests && requests[0].key in Keys(requests);
      assert forall r <- requests[1..] :: r in requests;
      assert Keys(requests[1..]) <= Keys(requests);
      NoneGranted(TakeIn(s, cfg, requests[0].key, requests[0].limit, requests[0].nowMs).0, cfg, requests[1..], x);
    }
  }

  /** Once touched, `x` is granted what its own bucket alone would grant. */
  lemma {:induction false} GrantsAreTheBuckets(
    s: Store, cfg: Config, requests: seq<Request>, x: string, limit: Limit, older: seq<string>, newer: seq<string>,
    seen: set<string>)
    requires ValidConfig(cfg) && ValidLimit(limit) && ValidRequests(requests) && OneLimit(requests, x, limit)
    requires Valid(s, cfg) && s.order == older + [x] + newer && (forall k <- newer :: k in seen)
    requires Sparse(requests, x, cfg, seen)
    ensures GrantsIn(s, cfg, requests, x) == Grants(Lookup(s, x), limit.capacity, Earned(limit), TimesOf(requests, x))
    decreases |requests|
  {
    hide TakeIn, Draw, Earned, Valid;
    if x !in Keys(requests) {
      NoneGranted(s, cfg, requests, x);
    } else {
      var r, rest := requests[0], requests[1..];
      TailIsLike(requests, x, limit);
      var s' := TakeIn(s, cfg, r.key, r.limit, r.nowMs).0;
      if r.key == x {
        TouchPutsLast(s, cfg, x, limit, r.nowMs);
        GrantsAreTheBuckets(s', cfg, rest, x, limit, MakeRoom(s, cfg, x).order, [], {});
        assert TimesOf(requests, x)[1..] == TimesOf(rest, x);
      } else {
        var older', newer' := OtherKeySparesX(s, cfg, r, x, older, newer, seen);
        GrantsAreTheBuckets(s', cfg, rest, x, limit, older', newer', seen + {r.key});
        assert TimesOf(requests, x) == TimesOf(rest, x);
      }
    }
  }

  /** A take draws on the key's own bucket and puts the key last. */
  lemma TouchPutsLast(s: Store, cfg: Config, x: string, limit: Limit, now: int)
    requires ValidConfig(cfg) && ValidLimit(limit) && Valid(s, cfg)
    ensures var (s', answer) := TakeIn(s, cfg, x, limit, now);
      var (b', ok) := Draw(Lookup(s, x), limit.capacity, Earned(limit), now);
      && Valid(s', cfg) && s'.order == MakeRoom(s, cfg, x).order + [x] + []
      && Lookup(s', x) == Some(b') && answer.ok == ok
  {
    TakeKeepsValid(s, cfg, x, limit, now);
  }

  /** A take on another key leaves the bucket as it was or drops it. */
  lemma OtherKeyKeepsSound(s: Store, cfg: Config, r: Request, x: string, limit: Limit)
    requires ValidConfig(cfg) && ValidLimit(r.limit) && Valid(s, cfg)
      && r.key != x && Sound(Lookup(s, x), limit.capacity)
    ensures var s' := TakeIn(s, cfg, r.key, r.limit, r.nowMs).0;
      Valid(s', cfg) && Sound(Lookup(s', x), limit.capacity)
  {
    TakeKeepsValid(s, cfg, r.key, r.limit, r.nowMs);
  }

  lemma {:induction false} RunKeepsSound(s: Store, cfg: Config, requests: seq<Request>, x: string, limit: Limit)
    requires ValidConfig(cfg) && ValidLimit(limit) && ValidRequests(requests) && OneLimit(requests, x, limit)
    requires Valid(s, cfg) && Sound(Lookup(s, x), limit.capacity)
    ensures Valid(Serve(s, cfg, requests), cfg) && Sound(Lookup(Serve(s, cfg, requests), x), limit.capacity)
    decreases |requests|
  {
    hide TakeIn, Sound, Valid, Draw;
    if requests != [] {
      var r := requests[0];
      TailIsLike(requests, x, limit);
      if r.key == x {
        TouchPutsLast(s, cfg, x, limit, r.nowMs);
        EarnedNonNegative(limit);
        DrawSound(Lookup(s, x), limit.capacity, Earned(limit), r.nowMs);
      } else {
        OtherKeyKeepsSound(s, cfg, r, x, limit);
      }
      RunKeepsSound(TakeIn(s, cfg, r.key, r.limit, r.nowMs).0, cfg, requests[1..], x, limit);
    }
  }

  /** From any sound state the grants of `x` are those of some sound bucket. */
  lemma {:induction false} SomeBucketGrants(s: Store, cfg: Config, requests: seq<Request>, x: string, limit: Limit)
    returns (b: Option<Bucket>)
    requires ValidConfig(cfg) && ValidLimit(limit) && ValidRequests(requests) && OneLimit(requests, x, limit)
    requires Valid(s, cfg) && Sound(Lookup(s, x), limit.capacity) && SparseAfterFirst(requests, x, cfg)
    ensures Sound(b, limit.capacity)
    ensures GrantsIn(s, cfg, requests, x) == Grants(b, limit.capacity, Earned(limit), TimesOf(requests, x))
    decreases |requests|
  {
    hide TakeIn, Sound, Valid, Draw, Earned;
    if requests == [] {
      b := Lookup(s, x);
    } else {
      var r, rest := requests[0], requests[1..];
      TailIsLike(requests, x, limit);
      if r.key == x {
        b := Lookup(s, x);
        TouchPutsLast(s, cfg, x, limit, r.nowMs);
        var s' := TakeIn(s, cfg, x, limit, r.nowMs).0;
        GrantsAreTheBuckets(s', cfg, rest, x, limit, MakeRoom(s, cfg, x).order, [], {});
        assert TimesOf(requests, x)[1..] == TimesOf(rest, x);
      } else {
        OtherKeyKeepsSound(s, cfg, r, x, limit);
        b := SomeBucketGrants(TakeIn(s, cfg, r.key, r.limit, r.nowMs).0, cfg, rest, x, limit);
        assert TimesOf(requests, x) == TimesOf(rest, x);
      }
    }
  }

  lemma SubrunIsLike(requests: seq<Request>, x: string, limit: Limit, i: nat, j: nat)
    requires i <= j <= |requests| && ValidRequests(requests) && OneLimit(requests, x, limit)
    ensures ValidRequests(requests[i..j]) && OneLimit(requests[i..j], x, limit)
  {
    assert forall r <- requests[i..j] :: r in requests;
  }

  /** Main result, the store's window bound: over any run of requests for any keys, within any stretch of it,
      one key's grants number at most its capacity plus the refill between its first and last request there,
      provided its own requests there are in time order and at most maxKeys - evictBatch other distinct keys
      are touched between two of them. */
  lemma StoreWindowBound(cfg: Config, requests: seq<Request>, x: string, limit: Limit, i: nat, j: nat)
    requires ValidConfig(cfg) && ValidLimit(limit) && ValidRequests(requests) && OneLimit(requests, x, limit)
    requires i <= j <= |requests| && SparseAfterFirst(requests[i..j], x, cfg)
    requires var times := TimesOf(requests[i..j], x); times != [] && NonDecreasing(times)
    ensures ValidRequests(requests[..i]) && ValidRequests(requests[i..j])
    ensures var times := TimesOf(requests[i..j], x);
      GrantsIn(Serve(EMPTY, cfg, requests[..i]), cfg, requests[i..j], x) as real
        <= limit.capacity + Refill(limit, times[|times| - 1] - times[0])
  {
    hide Valid, Sound, Earned, Refill, TakeIn, Sparse, SparseAfterFirst, NonDecreasing, TimesOf, GrantsIn,
      Serve, Grants, OneLimit;
    SubrunIsLike(requests, x, limit, 0, i);
    SubrunIsLike(requests, x, limit, i, j);
    EmptyIsSound(cfg, x, limit);
    assert requests[0..i] == requests[..i];
    RunKeepsSound(EMPTY, cfg, requests[..i], x, limit);
    var b := SomeBucketGrants(Serve(EMPTY, cfg, requests[..i]), cfg, requests[i..j], x, limit);
    SoundWindow(limit, b, TimesOf(requests[i..j], x));
  }

  lemma EmptyIsSound(cfg: Config, x: string, limit: Limit)
    ensures Valid(EMPTY, cfg) && Sound(Lookup(EMPTY, x), limit.capacity)
  {
  }

  /** Class `MemoryRateLimitStore`. */
  class MemoryRateLimitStore {
    const cfg: Config
    var order: seq<string>
    var buckets: map<string, Bucket>

    function State(): Store
      reads this
    {
      Store(order, buckets)
    }

    constructor (maxKeys: nat, evictBatch: nat)
      ensures State() == EMPTY && cfg == Config(maxKeys, if evictBatch < 1 then 1 else evictBatch)
    {
      cfg := Config(maxKeys, if evictBatch < 1 then 1 else evictBatch);
      order, buckets := [], map[];
    }

    method TakeToken(key: string, limit: Limit, nowMs: int) returns (answer: Answer)
      requires ValidLimit(limit) && ValidConfig(cfg) && Valid(State(), cfg)
      modifies this
      ensures (State(), answer) == TakeIn(old(State()), cfg, key, limit, nowMs)
      ensures Valid(State(), cfg)
    {
      TakeKeepsValid(State(), cfg, key, limit, nowMs);
      var tokens := limit.capacity;
      if key in buckets {
        var existing := buckets[key];
        order := Without(order, key);
        buckets := buckets - {key};
        var elapsedMs := if nowMs > existing.updatedMs then nowMs - existing.updatedMs else 0;
        tokens := Min(limit.capacity, existing.tokens + Earned(limit)(elapsedMs));
      } else if |order| >= cfg.maxKeys {
        EvictOldest();
      }
      order := order + [key];
      if tokens < 1.0 {
        buckets := buckets[key := Bucket(tokens, nowMs)];
        return Answer(false, RetryAfterMs(tokens, limit));
      }
      buckets := buckets[key := Bucket(tokens - 1.0, nowMs)];
      return Answer(true, 0);
    }

    method EvictOldest()
      requires cfg.evictBatch >= 1
      modifies this
      ensures State() == DropOldest(old(State()), cfg.evictBatch)
    {
      var remaining := cfg.evictBatch;
      ghost var n := |order|;
      ghost var k := 0;
      while order != [] && remaining > 0
        invariant k <= n && remaining >= 0 && k + remaining == cfg.evictBatch
        invariant order == old(order)[k..] && buckets == old(buckets) - Elements(old(order)[..k])
      {
        var oldest := order[0];
        assert old(order)[..k + 1] == old(order)[..k] + [oldest];
        assert Elements(old(order)[..k + 1]) == Elements(old(order)[..k]) + {oldest};
        order := order[1..];
        buckets := buckets - {oldest};
        remaining := remaining - 1;
        k := k + 1;
      }
      assert k == if cfg.evictBatch < n then cfg.evictBatch else n;
    }
  }
}
