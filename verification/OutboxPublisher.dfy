/** processOutboxBatch of server/workers/paper-outbox-publisher.ts: the loop over one claimed batch,
    and the updates its transaction commits. */
module OutboxPublishing {
  import opened Basics
  import opened Outbox

  class OutboxPublisher {
    var rows: map<RowId, Row>
    var sends: seq<Sent>

    /** `claimed` is what the locking query returned to transaction `tx`; the i-th publish of the
        batch reaches Redis when `accepts(i)` and throws `error` otherwise. */
    method ProcessOutboxBatch(ready: bool, tx: TxId, startedAt: int, claimed: seq<RowId>,
                              accepts: nat -> bool, error: string)
      returns (published: seq<RowId>)
      requires NoRepeats(claimed) && forall r <- claimed :: r in rows
      modifies this
      ensures !ready ==> published == [] && rows == old(rows) && sends == old(sends)
      ensures ready ==>
        && |published| <= |claimed| && published == claimed[..|published|]
        && (forall i | 0 <= i < |published| :: accepts(i))
        && (|published| < |claimed| ==> !accepts(|published|))
        && rows == Settle(old(rows), Tx(startedAt, claimed, |published|,
                                        if |published| < |claimed| then Some(error) else None))
        && sends == old(sends) + Messages(tx, published)
    {
      hide Mark, Messages;
      published := [];
      if !ready { return; }
      var i := 0;
      while i < |claimed|
        invariant i <= |claimed| && published == claimed[..i] && rows == old(rows)
        invariant forall j | 0 <= j < i :: accepts(j)
        invariant sends == old(sends) + Messages(tx, claimed[..i])
      {
        if accepts(i) {
          sends := sends + [Sent(tx, claimed[i])];
          published := published + [claimed[i]];
          MessagesSnoc(tx, claimed[..i + 1]);
          assert claimed[..i + 1][..i] == claimed[..i];
        } else {
          var event := rows[claimed[i]];
          var attempts := event.attempts + 1;
          rows := rows[claimed[i] := event.(attempts := attempts, lastError := Some(error),
                                            nextAttemptAt := Some(startedAt + DelaySeconds(attempts)))];
          break;
        }
        i := i + 1;
      }
      rows := map r <- rows :: if r in published then Mark(rows[r], startedAt) else rows[r];
    }
  }
}
