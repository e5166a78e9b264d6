/** The transactional outbox of server/workers/paper-outbox-publisher.ts as a small-step protocol.

    Any number of publishers interleave: each claims a batch of due rows under row locks, sends
    them one by one inside its transaction, and commits, rolls back or crashes at any point.
    `sends` is the log of messages that reached Redis; a throwing publish is not in it. */
module Outbox {
  import opened Basics

  type RowId = nat
  type TxId = nat

  const MAX_RETRY_DELAY_SECONDS: nat := 300

  datatype Status = PENDING | PUBLISHED
  datatype Row = Row(
    status: Status, createdAt: int, attempts: nat, nextAttemptAt: Option<int>,
    publishedAt: Option<int>, lastError: Option<string>)
  datatype Sent = Sent(tx: TxId, row: RowId)

  /** An open transaction: the rows it locked, how many of them it has published (always a prefix),
      and the error the next publish threw, if it did. `startedAt` is the NOW() of its statements. */
  datatype Tx = Tx(startedAt: int, claimed: seq<RowId>, published: nat, failed: Option<string>)

  datatype Store = Store(
    rows: map<RowId, Row>,
    open: map<TxId, Tx>,
    committed: set<TxId>,
    sends: seq<Sent>,
    nextTx: TxId,
    now: int)

  const EMPTY := Store(map[], map[], {}, [], 0, 0)

  function DelaySeconds(attempts: nat): nat {
    if Pow2(attempts) < MAX_RETRY_DELAY_SECONDS then Pow2(attempts) else MAX_RETRY_DELAY_SECONDS
  }

  predicate Due(row: Row, now: int) {
    row.status == PENDING && (row.nextAttemptAt.None? || row.nextAttemptAt.value <= now)
  }

  predicate Locked(s: Store, r: RowId) {
    exists t <- s.open :: r in s.open[t].claimed
  }

  predicate Eligible(s: Store, r: RowId) {
    r in s.rows && Due(s.rows[r], s.now) && !Locked(s, r)
  }

  /** SELECT ... WHERE due ORDER BY created_at LIMIT batch FOR UPDATE SKIP LOCKED. */
  ghost predicate IsClaim(s: Store, claimed: seq<RowId>, batch: nat) {
    && |claimed| <= batch
    && NoRepeats(claimed)
    && (forall r <- claimed :: Eligible(s, r))
    && (forall i, j :: 0 <= i < j < |claimed| && Eligible(s, claimed[i]) && Eligible(s, claimed[j]) ==>
          s.rows[claimed[i]].createdAt <= s.rows[claimed[j]].createdAt)
    && (forall r <- s.rows | Eligible(s, r) && r !in claimed ::
          |claimed| == batch && forall c <- claimed :: Eligible(s, c) ==> s.rows[c].createdAt <= s.rows[r].createdAt)
  }

  function Mark(row: Row, now: int): Row {
    row.(status := PUBLISHED, publishedAt := Some(now), lastError := None)
  }

  function BackOff(row: Row, now: int, error: string): Row {
    var attempts := row.attempts + 1;
    row.(attempts := attempts, lastError := Some(error), nextAttemptAt := Some(now + DelaySeconds(attempts)))
  }

  /** What the batch's transaction writes: the published prefix marked, the row after it backed off
      if its publish threw. */
  function Settle(rows: map<RowId, Row>, tx: Tx): map<RowId, Row> {
    map r <- rows ::
      if r in tx.claimed[..if tx.published <= |tx.claimed| then tx.published else 0] then Mark(rows[r], tx.startedAt)
      else if tx.failed.Some? && tx.published < |tx.claimed| && r == tx.claimed[tx.published] then
        BackOff(rows[r], tx.startedAt, tx.failed.value)
      else rows[r]
  }

  datatype Event =
    | Written(row: RowId, createdAt: int)
    | Tick(seconds: nat)
    | Claimed(rows: seq<RowId>, batch: nat)
    | Published(tx: TxId)
    | Threw(tx: TxId, error: string)
    | Committed(tx: TxId)
    | Lost(tx: TxId)

  ghost predicate Enabled(s: Store, e: Event) {
    match e
    case Written(r, _) => r !in s.rows
    case Tick(_) => true
    case Claimed(rows, batch) => IsClaim(s, rows, batch)
    case Published(t) => t in s.open && s.open[t].failed.None? && s.open[t].published < |s.open[t].claimed|
    case Threw(t, _) => t in s.open && s.open[t].failed.None? && s.open[t].published < |s.open[t].claimed|
    case Committed(t) => t in s.open && (s.open[t].failed.Some? || s.open[t].published == |s.open[t].claimed|)
    case Lost(t) => t in s.open
  }

  ghost function Apply(s: Store, e: Event): Store
    requires Enabled(s, e)
  {
    match e
    case Written(r, createdAt) => s.(rows := s.rows[r := Row(PENDING, createdAt, 0, None, None, None)])
    case Tick(seconds) => s.(now := s.now + seconds)
    case Claimed(rows, _) => s.(open := s.open[s.nextTx := Tx(s.now, rows, 0, None)], nextTx := s.nextTx + 1)
    case Published(t) =>
      var tx := s.open[t];
      s.(sends := s.sends + [Sent(t, tx.claimed[tx.published])],
         open := s.open[t := tx.(published := tx.published + 1)])
    case Threw(t, error) => s.(open := s.open[t := s.open[t].(failed := Some(error))])
    case Committed(t) => s.(rows := Settle(s.rows, s.open[t]), open := s.open - {t}, committed := s.committed + {t})
    case Lost(t) => s.(open := s.open - {t})
  }

  ghost predicate IsRun(states: seq<Store>, events: seq<Event>) {
    && |states| == |events| + 1
    && states[0] == EMPTY
    && forall i | 0 <= i < |events| :: Enabled(states[i], events[i]) && states[i + 1] == Apply(states[i], events[i])
  }

  // ------------------------------------------------------------------ invariant

  /** An open transaction's rows are PENDING, locked by no other, and it has sent exactly its prefix. */
  ghost predicate TxOk(s: Store, t: TxId) {
    t in s.open ==>
      && t < s.nextTx && t !in s.committed
      && s.open[t].published <= |s.open[t].claimed|
      && NoRepeats(s.open[t].claimed)
      && (forall r <- s.open[t].claimed :: r in s.rows && s.rows[r].status == PENDING)
      && (forall r :: Sent(t, r) in s.sends <==> r in s.open[t].claimed[..s.open[t].published])
  }

  ghost predicate Disjoint(s: Store, t: TxId, u: TxId) {
    t in s.open && u in s.open && t != u ==> forall r <- s.open[t].claimed :: r !in s.open[u].claimed
  }

  /** A row is PUBLISHED exactly when a committed transaction sent it, and only one did. */
  ghost predicate RowOk(s: Store, r: RowId) {
    && (r in s.rows && s.rows[r].status == PUBLISHED <==> exists t <- s.committed :: Sent(t, r) in s.sends)
    && (forall t, u :: t in s.committed && u in s.committed && Sent(t, r) in s.sends && Sent(u, r) in s.sends
          ==> t == u)
  }

  ghost predicate LogOk(s: Store) {
    && (forall i, j :: 0 <= i < j < |s.sends| ==> s.sends[i] != s.sends[j])
    && (forall sent <- s.sends :: sent.tx < s.nextTx)
    && (forall t <- s.committed :: t < s.nextTx)
  }

  ghost predicate Inv(s: Store) {
    && (forall t :: TxOk(s, t))
    && (forall t, u :: Disjoint(s, t, u))
    && (forall r :: RowOk(s, r))
    && LogOk(s)
  }

  // ------------------------------------------------------- preservation, step by step

  lemma ClaimKeeps(s: Store, e: Event)
    requires Inv(s) && Enabled(s, e) && e.Claimed?
    ensures Inv(Apply(s, e))
  {
    var s' := Apply(s, e);
    assert TxOk(s, s.nextTx);
    forall t ensures TxOk(s', t) {
      assert TxOk(s, t);
      if t == s.nextTx {
        assert forall r :: Sent(t, r) !in s.sends;
        assert s'.open[t].claimed[..0] == [];
      }
    }
    forall t, u ensures Disjoint(s', t, u) {
      assert Disjoint(s, t, u);
      if t == s.nextTx || u == s.nextTx {
        forall r | r in e.rows ensures !Locked(s, r) { assert Eligible(s, r); }
      }
    }
    forall r ensures RowOk(s', r) { assert RowOk(s, r); }
  }

  lemma PublishKeeps(s: Store, e: Event)
    requires Inv(s) && Enabled(s, e) && e.Published?
    ensures Inv(Apply(s, e))
  {
    var s' := Apply(s, e);
    var t := e.tx;
    var tx := s.open[t];
    var sent := Sent(t, tx.claimed[tx.published]);
    assert TxOk(s, t);
    assert sent !in s.sends;
    assert forall m :: m in s'.sends <==> m in s.sends || m == sent;
    forall u ensures TxOk(s', u) {
      assert TxOk(s, u);
      if u == t {
        assert tx.claimed[..tx.published + 1] == tx.claimed[..tx.published] + [tx.claimed[tx.published]];
      }
    }
    forall u, v ensures Disjoint(s', u, v) { assert Disjoint(s, u, v); }
    forall r ensures RowOk(s', r) { assert RowOk(s, r); }
  }

  lemma QuietKeeps(s: Store, e: Event)
    requires Inv(s) && Enabled(s, e) && (e.Written? || e.Tick? || e.Threw? || e.Lost?)
    ensures Inv(Apply(s, e))
  {
    var s' := Apply(s, e);
    forall t ensures TxOk(s', t) { assert TxOk(s, t); }
    forall t, u ensures Disjoint(s', t, u) { assert Disjoint(s, t, u); }
    forall r ensures RowOk(s', r) { assert RowOk(s, r); }
  }

  lemma CommitKeeps(s: Store, e: Event)
    requires Inv(s) && Enabled(s, e) && e.Committed?
    ensures Inv(Apply(s, e))
  {
    var s' := Apply(s, e);
    var t := e.tx;
    assert TxOk(s, t);
    forall u ensures TxOk(s', u) {
      assert TxOk(s, u);
      assert Disjoint(s, u, t);
    }
    forall u, v ensures Disjoint(s', u, v) { assert Disjoint(s, u, v); }
    forall r ensures RowOk(s', r) { CommitRow(s, t, r); }
  }

  lemma CommitRow(s: Store, t: TxId, r: RowId)
    requires Inv(s) && Enabled(s, Committed(t))
    ensures RowOk(Apply(s, Committed(t)), r)
  {
    var s' := Apply(s, Committed(t));
    assert TxOk(s, t) && RowOk(s, r);
    var prefix := s.open[t].claimed[..s.open[t].published];
    assert Sent(t, r) in s.sends <==> r in prefix;
    if r in prefix {
      assert r in s.open[t].claimed;
      assert t in s'.committed && Sent(t, r) in s'.sends;
    } else if exists u <- s.committed :: Sent(u, r) in s.sends {
      var u :| u in s.committed && Sent(u, r) in s.sends;
      assert u in s'.committed && Sent(u, r) in s'.sends;
    }
  }

  lemma {:induction false} RunsKeep(states: seq<Store>, events: seq<Event>, i: nat)
    requires IsRun(states, events) && i < |states|
    ensures Inv(states[i])
  {
    if i > 0 {
      RunsKeep(states, events, i - 1);
      var s, e := states[i - 1], events[i - 1];
      match e
      case Claimed(_, _) => ClaimKeeps(s, e);
      case Published(_) => PublishKeeps(s, e);
      case Committed(_) => CommitKeeps(s, e);
      case _ => QuietKeeps(s, e);
    }
  }

  // ------------------------------------------------------------------ results

  /** Number of times row `r` was sent. */
  function Deliveries(sends: seq<Sent>, r: RowId): nat {
    if sends == [] then 0 else (if sends[0].row == r then 1 else 0) + Deliveries(sends[1..], r)
  }

  function Senders(sends: seq<Sent>, r: RowId): set<TxId> {
    set m <- sends | m.row == r :: m.tx
  }

  lemma {:induction false} DeliveriesAreSenders(sends: seq<Sent>, r: RowId)
    requires forall i, j :: 0 <= i < j < |sends| ==> sends[i] != sends[j]
    ensures Deliveries(sends, r) == |Senders(sends, r)|
  {
    if sends != [] {
      DeliveriesAreSenders(sends[1..], r);
      var rest := Senders(sends[1..], r);
      if sends[0].row == r {
        assert sends[0] !in sends[1..];
        forall m | m in sends[1..] && m.row == r ensures m.tx != sends[0].tx {
          assert m != sends[0];
        }
        assert Senders(sends, r) == rest + {sends[0].tx};
      } else {
        assert Senders(sends, r) == rest;
      }
    }
  }

  /** Main result: no row is ever held by two open transactions. */
  lemma LocksAreExclusive(states: seq<Store>, events: seq<Event>, i: nat, t: TxId, u: TxId, r: RowId)
    requires IsRun(states, events) && i < |states|
    requires t in states[i].open && u in states[i].open
    requires r in states[i].open[t].claimed && r in states[i].open[u].claimed
    ensures t == u
  {
    RunsKeep(states, events, i);
    assert Disjoint(states[i], t, u);
  }

  lemma SendersAre(sends: seq<Sent>, r: RowId, t: TxId)
    ensures t in Senders(sends, r) <==> Sent(t, r) in sends
  {
    if t in Senders(sends, r) {
      var m :| m in sends && m.row == r && m.tx == t;
      assert m == Sent(t, r);
    }
  }

  /** Of the senders of a row, the committed one if there is one. */
  lemma CommittedSender(s: Store, r: RowId, senders: set<TxId>)
    requires RowOk(s, r) && forall t :: t in senders <==> Sent(t, r) in s.sends
    ensures |senders| == (if r in s.rows && s.rows[r].status == PUBLISHED then 1 else 0) + |senders - s.committed|
  {
    var uncommitted := senders - s.committed;
    if r in s.rows && s.rows[r].status == PUBLISHED {
      var t :| t in s.committed && Sent(t, r) in s.sends;
      assert senders == uncommitted + {t};
    } else {
      assert senders == uncommitted;
    }
  }

  /** Main result, at-least-once with every duplicate accounted for: a row is PUBLISHED exactly when
      a committed transaction sent it; a row was sent once for its commit (if it is PUBLISHED) plus
      once for each sending transaction that is still open or was lost. */
  lemma DeliveriesAccountedFor(states: seq<Store>, events: seq<Event>, i: nat, r: RowId)
    requires IsRun(states, events) && i < |states|
    ensures var s := states[i];
      var published := r in s.rows && s.rows[r].status == PUBLISHED;
      && (published <==> exists t <- s.committed :: Sent(t, r) in s.sends)
      && Deliveries(s.sends, r) == (if published then 1 else 0) + |Senders(s.sends, r) - s.committed|
  {
    hide IsRun, Senders;
    RunIsSafe(states, events, i, r);
    var s := states[i];
    DeliveriesAreSenders(s.sends, r);
    forall t ensures t in Senders(s.sends, r) <==> Sent(t, r) in s.sends { SendersAre(s.sends, r, t); }
    CommittedSender(s, r, Senders(s.sends, r));
  }

  lemma RunIsSafe(states: seq<Store>, events: seq<Event>, i: nat, r: RowId)
    requires IsRun(states, events) && i < |states|
    ensures RowOk(states[i], r) && forall m, n :: 0 <= m < n < |states[i].sends| ==>
        states[i].sends[m] != states[i].sends[n]
  {
    RunsKeep(states, events, i);
  }

  /** Main result: a committed batch marks a prefix of its claim, backs off at most the row after it,
      and leaves every other row as it was. */
  lemma CommitMarksAPrefix(states: seq<Store>, events: seq<Event>, i: nat, t: TxId, r: RowId)
    requires IsRun(states, events) && i < |events| && events[i] == Committed(t) && r in states[i].rows
    ensures var s, s' := states[i], states[i + 1];
      && t in s.open && r in s'.rows
      && var tx := s.open[t];
      && tx.published <= |tx.claimed|
      && var k := tx.published;
      if r in tx.claimed[..k] then
        && s.rows[r].status == PENDING
        && s'.rows[r] == s.rows[r].(status := PUBLISHED, publishedAt := Some(tx.startedAt), lastError := None)
      else if k < |tx.claimed| && r == tx.claimed[k] then
        && tx.failed.Some? && s.rows[r].status == PENDING
        && s'.rows[r] == s.rows[r].(attempts := s.rows[r].attempts + 1, lastError := tx.failed,
                                    nextAttemptAt := Some(tx.startedAt + DelaySeconds(s.rows[r].attempts + 1)))
      else
        s'.rows[r] == s.rows[r]
  {
    RunsKeep(states, events, i);
    assert TxOk(states[i], t);
  }

  /** A lost transaction, rolled back or crashed, leaves all rows as they were and gives up its locks. */
  lemma LostLeavesRows(states: seq<Store>, events: seq<Event>, i: nat, t: TxId)
    requires IsRun(states, events) && i < |events| && events[i] == Lost(t)
    ensures states[i + 1].rows == states[i].rows
    ensures forall r <- states[i].open[t].claimed :: !Locked(states[i + 1], r)
  {
    RunsKeep(states, events, i);
    var s, s' := states[i], states[i + 1];
    forall r <- s.open[t].claimed ensures !Locked(s', r) {
      forall u | u in s'.open ensures r !in s'.open[u].claimed { assert Disjoint(s, t, u); }
    }
  }

  /** Committing `t` marks row r. */
  ghost predicate Marks(s: Store, e: Event, r: RowId) {
    && e.Committed? && e.tx in s.open && s.open[e.tx].published <= |s.open[e.tx].claimed|
    && r in s.open[e.tx].claimed[..s.open[e.tx].published]
  }

  /** One event keeps every row, and turns it PUBLISHED only by committing a transaction that published it. */
  lemma StepKeepsRow(states: seq<Store>, events: seq<Event>, i: nat, r: RowId)
    requires IsRun(states, events) && i < |events| && r in states[i].rows
    ensures var row, s' := states[i].rows[r], states[i + 1];
      && r in s'.rows && s'.rows[r].createdAt == row.createdAt && row.attempts <= s'.rows[r].attempts
      && (row.status == PUBLISHED ==> s'.rows[r] == row)
      && (row.status == PENDING ==> (s'.rows[r].status == PUBLISHED <==> Marks(states[i], events[i], r)))
  {
    RunsKeep(states, events, i);
    var s, e := states[i], events[i];
    if e.Committed? {
      assert TxOk(s, e.tx);
      var tx := s.open[e.tx];
      assert forall p <- tx.claimed[..tx.published] :: p in tx.claimed;
    }
  }

  /** Main result: no row is lost. A row once written stays and its attempts never fall; it is PENDING until a
      transaction that published it commits, and once PUBLISHED no field of it ever changes again. */
  lemma {:induction false} NoRowIsLost(states: seq<Store>, events: seq<Event>, i: nat, j: nat, r: RowId)
    requires IsRun(states, events) && i <= j < |states| && r in states[i].rows
    ensures r in states[j].rows && states[j].rows[r].createdAt == states[i].rows[r].createdAt
    ensures states[i].rows[r].attempts <= states[j].rows[r].attempts
    ensures states[i].rows[r].status == PUBLISHED ==> states[j].rows[r] == states[i].rows[r]
    ensures states[i].rows[r].status == PENDING ==>
      (states[j].rows[r].status == PUBLISHED <==> exists k | i <= k < j :: Marks(states[k], events[k], r))
    decreases j
  {
    hide Apply, Enabled, Marks;
    if i < j {
      NoRowIsLost(states, events, i, j - 1, r);
      StepKeepsRow(states, events, j - 1, r);
      if states[i].rows[r].status == PENDING { MarkedBy(states, events, i, j, r); }
    }
  }

  /** A row is marked before event j exactly when it is marked before event j - 1 or by it. */
  lemma MarkedBy(states: seq<Store>, events: seq<Event>, i: nat, j: nat, r: RowId)
    requires i < j <= |events| && |states| == |events| + 1
    ensures (exists k | i <= k < j :: Marks(states[k], events[k], r)) <==>
      (exists k | i <= k < j - 1 :: Marks(states[k], events[k], r)) || Marks(states[j - 1], events[j - 1], r)
  {
    hide Marks;
  }

  // ------------------------------------------------------------------ every eligible row can be claimed

  ghost predicate Oldest(s: Store, rest: set<RowId>, r: RowId)
    requires rest <= s.rows.Keys
  {
    r in rest && forall q <- rest :: s.rows[r].createdAt <= s.rows[q].createdAt
  }

  lemma {:induction false} OldestExists(s: Store, rest: set<RowId>)
    requires rest != {} && rest <= s.rows.Keys
    ensures exists r :: Oldest(s, rest, r)
    decreases rest
  {
    var x :| x in rest;
    var others := rest - {x};
    if others == {} {
      assert rest == {x};
      assert Oldest(s, rest, x);
    } else {
      OldestExists(s, others);
      var y :| Oldest(s, others, y);
      var r := if s.rows[x].createdAt < s.rows[y].createdAt then x else y;
      forall q <- rest ensures s.rows[r].createdAt <= s.rows[q].createdAt { assert q == x || q in others; }
      assert Oldest(s, rest, r);
    }
  }

  ghost predicate OldestFirst(s: Store, list: seq<RowId>) {
    && NoRepeats(list) && (forall r <- list :: r in s.rows)
    && forall i, j | 0 <= i < j < |list| :: s.rows[list[i]].createdAt <= s.rows[list[j]].createdAt
  }

  /** The rows in the order the locking query lists them. */
  lemma {:induction false} ListByAge(s: Store, rest: set<RowId>) returns (list: seq<RowId>)
    requires rest <= s.rows.Keys
    ensures OldestFirst(s, list) && forall r :: r in list <==> r in rest
    decreases rest
  {
    if rest == {} {
      list := [];
    } else {
      OldestExists(s, rest);
      var r :| Oldest(s, rest, r);
      var later := ListByAge(s, rest - {r});
      list := [r] + later;
      assert r !in later;
    }
  }

  /** The rows of one batch: the oldest eligible ones, as many as fit. */
  lemma OldestAreAClaim(s: Store, list: seq<RowId>, batch: nat)
    requires OldestFirst(s, list) && forall r :: r in list <==> Eligible(s, r)
    ensures IsClaim(s, list[..if batch < |list| then batch else |list|], batch)
  {
    hide Eligible;
    var claimed := list[..if batch < |list| then batch else |list|];
    forall r <- claimed ensures Eligible(s, r) { assert r in list; }
    forall r <- s.rows, c <- claimed | Eligible(s, r) && r !in claimed
      ensures |claimed| == batch && s.rows[c].createdAt <= s.rows[r].createdAt
    {
      var i :| 0 <= i < |list| && list[i] == r;
      var j :| 0 <= j < |claimed| && claimed[j] == c;
      assert forall k | 0 <= k < |claimed| :: claimed[k] == list[k];
      assert j < i;
    }
    assert batch >= |list| ==> claimed == list;
  }

  /** Some claim of every batch size is enabled, and every eligible row is in one, after which it is held. */
  lemma EligibleRowsAreClaimable(s: Store, r: RowId, size: nat) returns (some: seq<RowId>, all: seq<RowId>)
    requires Eligible(s, r)
    ensures Enabled(s, Claimed(some, size)) && (size > 0 ==> some != [])
    ensures Enabled(s, Claimed(all, |all|)) && r in all && Locked(Apply(s, Claimed(all, |all|)), r)
  {
    hide IsClaim, Eligible;
    EligibleAreRows(s);
    var eligible := set q <- s.rows | Eligible(s, q);
    all := ListByAge(s, eligible);
    OldestAreAClaim(s, all, size);
    OldestAreAClaim(s, all, |all|);
    assert all[..|all|] == all;
    some := all[..if size < |all| then size else |all|];
    var s' := Apply(s, Claimed(all, |all|));
    assert s.nextTx in s'.open && r in s'.open[s.nextTx].claimed;
  }

  ghost predicate InSomeClaim(s: Store, r: RowId) {
    exists claimed, batch :: Enabled(s, Claimed(claimed, batch)) && r in claimed
  }

  /** Main result, which rows a publisher may take: a row is in some enabled claim if and only if it is
      PENDING, its retry time, if it has one, is not in the future, and no open transaction holds it. */
  lemma ClaimableExactly(s: Store, r: RowId)
    requires r in s.rows
    ensures InSomeClaim(s, r) <==>
      && s.rows[r].status == PENDING
      && (s.rows[r].nextAttemptAt.Some? ==> s.rows[r].nextAttemptAt.value <= s.now)
      && (forall t <- s.open :: r !in s.open[t].claimed)
  {
    if Eligible(s, r) {
      var _, all := EligibleRowsAreClaimable(s, r, 0);
      assert Enabled(s, Claimed(all, |all|)) && r in all;
    }
  }

  /** Main result, which of them a batch takes: the oldest. A claim lists rows that may be taken, each once, oldest
      first; one it leaves out is no older than any it takes, and it leaves one out only when it is full. */
  lemma ClaimsAreOldest(s: Store, claimed: seq<RowId>, batch: nat)
    requires Enabled(s, Claimed(claimed, batch))
    ensures |claimed| <= batch && NoRepeats(claimed) && forall r <- claimed :: r in s.rows && InSomeClaim(s, r)
    ensures forall i, j | 0 <= i <= j < |claimed| ::
      claimed[i] in s.rows && claimed[j] in s.rows && s.rows[claimed[i]].createdAt <= s.rows[claimed[j]].createdAt
    ensures forall q <- s.rows, c <- claimed | InSomeClaim(s, q) && q !in claimed ::
      |claimed| == batch && c in s.rows && s.rows[c].createdAt <= s.rows[q].createdAt
    ensures forall q <- s.rows | InSomeClaim(s, q) && q !in claimed :: |claimed| == batch
  {
    forall q: RowId | InSomeClaim(s, q) ensures Eligible(s, q) {
      var rows, size :| Enabled(s, Claimed(rows, size)) && q in rows;
    }
    forall i | 0 <= i < |claimed| ensures Eligible(s, claimed[i]) { assert claimed[i] in claimed; }
  }

  /** A row can be taken as soon as it is written, and a PENDING one nobody holds can be once enough time passes. */
  lemma RowsComeDue(s: Store, r: RowId, createdAt: int) returns (seconds: nat)
    requires Inv(s)
    ensures r !in s.rows ==> InSomeClaim(Apply(s, Written(r, createdAt)), r)
    ensures r in s.rows && s.rows[r].status == PENDING && !Locked(s, r) ==> InSomeClaim(Apply(s, Tick(seconds)), r)
  {
    seconds := 0;
    if r !in s.rows {
      forall t | t in s.open ensures r !in s.open[t].claimed { assert TxOk(s, t); }
      ClaimableExactly(Apply(s, Written(r, createdAt)), r);
    } else {
      var at := s.rows[r].nextAttemptAt;
      if at.Some? && at.value > s.now { seconds := at.value - s.now; }
      ClaimableExactly(Apply(s, Tick(seconds)), r);
    }
  }

  /** Until time T row r waits for its retry, held by nobody; with n attempts T stays its retry time. */
  ghost predicate Waits(s: Store, r: RowId, n: nat, T: int) {
    && r in s.rows && n <= s.rows[r].attempts
    && (s.rows[r].attempts == n ==> s.rows[r].nextAttemptAt == Some(T))
    && (s.now < T ==> s.rows[r].attempts == n && forall t <- s.open :: r !in s.open[t].claimed)
  }

  lemma WaitsOn(s: Store, e: Event, r: RowId, n: nat, T: int)
    requires Inv(s) && Enabled(s, e) && Waits(s, r, n, T)
    ensures Waits(Apply(s, e), r, n, T)
    ensures e.Claimed? && r in e.rows ==> s.now >= T
  {
    if e.Claimed? && r in e.rows { assert Eligible(s, r); }
    if e.Committed? { assert TxOk(s, e.tx); }
  }

  lemma {:induction false} WaitsLong(states: seq<Store>, events: seq<Event>, i: nat, k: nat, r: RowId, n: nat, T: int)
    requires IsRun(states, events) && i <= k < |states| && Waits(states[i], r, n, T)
    ensures Waits(states[k], r, n, T)
    decreases k
  {
    hide Apply, Enabled, Waits;
    if i < k {
      WaitsLong(states, events, i, k - 1, r, n, T);
      RunsKeep(states, events, k - 1);
      WaitsOn(states[k - 1], events[k - 1], r, n, T);
    }
  }

  /** The row a committed batch backs off waits from the commit on. */
  lemma BackedOffWaits(states: seq<Store>, events: seq<Event>, i: nat, t: TxId, r: RowId)
    requires IsRun(states, events) && i < |events| && events[i] == Committed(t) && t in states[i].open
    requires var tx := states[i].open[t]; tx.published < |tx.claimed| && r == tx.claimed[tx.published]
    requires r in states[i].rows
    ensures var n, s' := states[i].rows[r].attempts + 1, states[i + 1];
      && r in s'.rows && s'.rows[r].status == PENDING && s'.rows[r].attempts == n
      && Waits(s', r, n, states[i].open[t].startedAt + DelaySeconds(n))
  {
    RunsKeep(states, events, i);
    var s, s' := states[i], states[i + 1];
    var tx := s.open[t];
    assert TxOk(s, t);
    NotInPrefix(tx.claimed, tx.published);
    forall u | u in s'.open ensures r !in s'.open[u].claimed { assert Disjoint(s, t, u); }
  }

  lemma NotInPrefix(rows: seq<RowId>, k: nat)
    requires NoRepeats(rows) && k < |rows|
    ensures rows[k] !in rows[..k]
  {
  }

  /** The delay doubles with each attempt, up to five minutes. */
  lemma DelayDoubles(n: nat)
    ensures DelaySeconds(n) == if n <= 8 then Pow2(n) else 300
  {
    assert Pow2(8) == 256 && Pow2(9) == 512;
    if n <= 8 { Pow2Monotone(n, 8); } else { Pow2Monotone(9, n); }
  }

  /** A batch begins when it claims: for as long as its transaction is open its rows and its start are those of
      the claim. */
  lemma {:induction false} BatchKeepsItsStart(states: seq<Store>, events: seq<Event>, i: nat, k: nat)
    requires IsRun(states, events) && i < k <= |events| && events[i].Claimed?
    ensures var t := states[i].nextTx;
      && t < states[k].nextTx
      && (t in states[k].open ==>
            states[k].open[t].claimed == events[i].rows && states[k].open[t].startedAt == states[i].now)
    decreases k
  {
    if i + 1 < k { BatchKeepsItsStart(states, events, i, k - 1); }
  }

  /** Main result, backing off: once a committed batch backs a row off, its attempts grown to n, no claim of any
      publisher contains it before 2^n seconds, at most 300, have passed since the batch began; and from then
      on, wherever it is PENDING, not backed off again and held by nobody, some enabled claim contains it. */
  lemma BackedOffRowsWait(states: seq<Store>, events: seq<Event>, i: nat, k: nat, t: TxId, r: RowId)
    requires IsRun(states, events) && i < k <= |events| && events[i] == Committed(t) && t in states[i].open
    requires var tx := states[i].open[t]; tx.published < |tx.claimed| && r == tx.claimed[tx.published]
    requires r in states[i].rows
    ensures var n, s := states[i].rows[r].attempts + 1, states[k];
      var T := states[i].open[t].startedAt + if n <= 8 then Pow2(n) else 300;
      && r in states[i + 1].rows && states[i + 1].rows[r].status == PENDING && states[i + 1].rows[r].attempts == n
      && r in s.rows
      && (k < |events| && events[k].Claimed? && r in events[k].rows ==> s.now >= T)
      && (s.now >= T && s.rows[r].status == PENDING && s.rows[r].attempts == n && !Locked(s, r) ==> InSomeClaim(s, r))
  {
    hide IsClaim, DelaySeconds, Pow2, Inv;
    var n := states[i].rows[r].attempts + 1;
    var T := states[i].open[t].startedAt + DelaySeconds(n);
    DelayDoubles(n);
    BackedOffWaits(states, events, i, t, r);
    WaitsLong(states, events, i + 1, k, r, n, T);
    RunsKeep(states, events, k);
    if k < |events| { WaitsOn(states[k], events[k], r, n, T); }
    ClaimableExactly(states[k], r);
  }

  lemma EligibleAreRows(s: Store)
    ensures forall q :: Eligible(s, q) ==> q in s.rows
  {
  }

  // ------------------------------------------------------------------ one batch, uninterrupted

  function Messages(t: TxId, rows: seq<RowId>): (m: seq<Sent>)
    ensures |m| == |rows| && forall i | 0 <= i < |rows| :: m[i] == Sent(t, rows[i])
  {
    seq(|rows|, i requires 0 <= i < |rows| => Sent(t, rows[i]))
  }

  lemma MessagesSnoc(t: TxId, rows: seq<RowId>)
    requires rows != []
    ensures Messages(t, rows) == Messages(t, rows[..|rows| - 1]) + [Sent(t, rows[|rows| - 1])]
  {
  }

  /** A transaction that has published none of its rows yet, and nothing threw. */
  predicate Untouched(s: Store, t: TxId) {
    t in s.open && s.open[t].published == 0 && s.open[t].failed.None?
  }

  /** The store after `t` published its first `k` rows. */
  function AfterPublishing(s: Store, t: TxId, k: nat): Store
    requires Untouched(s, t) && k <= |s.open[t].claimed|
  {
    s.(sends := s.sends + Messages(t, s.open[t].claimed[..k]), open := s.open[t := s.open[t].(published := k)])
  }

  /** It is reached one publish at a time. */
  lemma PublishNext(s: Store, t: TxId, k: nat)
    requires Untouched(s, t) && k <= |s.open[t].claimed|
    ensures AfterPublishing(s, t, 0) == s
    ensures k < |s.open[t].claimed| ==>
      && Enabled(AfterPublishing(s, t, k), Published(t))
      && Apply(AfterPublishing(s, t, k), Published(t)) == AfterPublishing(s, t, k + 1)
  {
    var claimed := s.open[t].claimed;
    assert s.sends + [] == s.sends && claimed[..0] == [] && s.open[t := s.open[t]] == s.open;
    if k < |claimed| {
      assert claimed[..k + 1][..k] == claimed[..k];
      MessagesSnoc(t, claimed[..k + 1]);
      assert AfterPublishing(s, t, k).sends + [Sent(t, claimed[k])] == AfterPublishing(s, t, k + 1).sends;
    }
  }

  /** From the claim on: publish `k` rows, throw on the next if there is one, commit. */
  lemma FromClaim(s: Store, t: TxId, k: nat, error: string)
    requires Untouched(s, t) && k <= |s.open[t].claimed|
    ensures var tx, s1 := s.open[t], AfterPublishing(s, t, k);
      var failed := if k < |tx.claimed| then Some(error) else None;
      var s2 := if failed.Some? then Apply(s1, Threw(t, error)) else s1;
      && Enabled(s2, Committed(t))
      && Apply(s2, Committed(t)).rows == Settle(s.rows, tx.(published := k, failed := failed))
      && Apply(s2, Committed(t)).sends == s.sends + Messages(t, tx.claimed[..k])
  {
    hide Settle, Messages;
    var tx, s1 := s.open[t], AfterPublishing(s, t, k);
    if k < |tx.claimed| {
      assert Enabled(s1, Threw(t, error));
      assert Apply(s1, Threw(t, error)).open[t] == tx.(published := k, failed := Some(error));
    } else {
      assert s1.open[t] == tx.(published := k, failed := None);
    }
  }

  /** Claim, publish `k` rows, throw on the next if there is one, commit: the rows and the log end as
      the specification of one processOutboxBatch call says. */
  lemma UninterruptedBatch(s: Store, claimed: seq<RowId>, batch: nat, k: nat, error: string)
    requires IsClaim(s, claimed, batch) && k <= |claimed|
    ensures var t, s0 := s.nextTx, Apply(s, Claimed(claimed, batch));
      && Untouched(s0, t) && s0.open[t].claimed == claimed
      && var failed := if k < |claimed| then Some(error) else None;
      var s1 := AfterPublishing(s0, t, k);
      var s2 := if failed.Some? then Apply(s1, Threw(t, error)) else s1;
      && Enabled(s2, Committed(t))
      && Apply(s2, Committed(t)).rows == Settle(s.rows, Tx(s.now, claimed, k, failed))
      && Apply(s2, Committed(t)).sends == s.sends + Messages(t, claimed[..k])
  {
    hide IsClaim, Settle, AfterPublishing, Messages;
    FromClaim(Apply(s, Claimed(claimed, batch)), s.nextTx, k, error);
  }
}
