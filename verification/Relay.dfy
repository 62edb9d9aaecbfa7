/**
 The billing queue and its Postgres outbox. Rows are appended in creation order and never removed,
 so a row's id is its index. The queue is at-least-once; what the relay owes it is that a row is
 marked processed only after its message went in.
 */
module Relay {
  import opened Prelude
  import opened Books

  const RELAY_BATCH := 100

  datatype OutboxRow = OutboxRow(requestId: string, message: Message, attempts: nat, processed: bool)

  predicate InOutbox(rows: seq<OutboxRow>, id: string) {
    exists k :: 0 <= k < |rows| && rows[k].requestId == id
  }

  /** INSERT ... ON CONFLICT (request_id) DO NOTHING. */
  function Inserted(rows: seq<OutboxRow>, m: Message): seq<OutboxRow> {
    if InOutbox(rows, m.id) then rows else rows + [OutboxRow(m.id, m, 0, false)]
  }

  /** The ids of the rows not yet processed, oldest first. */
  function Pending(rows: seq<OutboxRow>): seq<nat> {
    if rows == [] then []
    else
      var last := |rows| - 1;
      Pending(rows[..last]) + if rows[last].processed then [] else [last]
  }

  function Batch(rows: seq<OutboxRow>): seq<nat> {
    var pending := Pending(rows);
    pending[..Min(RELAY_BATCH, |pending|)]
  }

  /** What one pass of the relay makes of a row, given whether the queue took its message and
      whether the mark was stored. */
  function Relayed(row: OutboxRow, taken: bool, marked: bool): OutboxRow {
    if !taken then row.(attempts := row.attempts + 1)
    else if marked then row.(processed := true)
    else row
  }

  /** A row keeps its message; it is processed if it was or if the queue took the message and the mark was stored;
      and it counts the attempts that were refused. */
  lemma RelayedRow(row: OutboxRow, taken: bool, marked: bool)
    ensures var after := Relayed(row, taken, marked);
      && after.requestId == row.requestId && after.message == row.message
      && (after.processed <==> row.processed || (taken && marked))
      && after.attempts - row.attempts == if taken then 0 else 1
  {
  }

  /** No two rows carry one request id, which the table's unique index keeps so. */
  ghost predicate IdsUnique(rows: seq<OutboxRow>) {
    forall i, j :: 0 <= i < j < |rows| ==> rows[i].requestId != rows[j].requestId
  }

  /** An insertion leaves every row in place and a row for the id, new and pending if there was none. */
  lemma InsertsOnce(rows: seq<OutboxRow>, m: Message)
    ensures var after := Inserted(rows, m);
      && rows <= after && InOutbox(after, m.id) && (IdsUnique(rows) ==> IdsUnique(after))
      && if InOutbox(rows, m.id) then after == rows
         else |after| == |rows| + 1 && after[|rows|] == OutboxRow(m.id, m, 0, false)
  {
    if !InOutbox(rows, m.id) {
      assert Inserted(rows, m)[|rows|].requestId == m.id;
    }
  }

  /** The messages the first n rows of a batch add to the queue. */
  function Delivered(rows: seq<OutboxRow>, batch: seq<nat>, taken: seq<bool>, n: nat): multiset<Message>
    requires n <= |batch| && n <= |taken| && forall k :: 0 <= k < |batch| ==> batch[k] < |rows|
  {
    if n == 0 then multiset{}
    else
      Delivered(rows, batch, taken, n - 1)
      + if taken[n - 1] then multiset{rows[batch[n - 1]].message} else multiset{}
  }

  /** The whole effect on the table of a pass over a batch of row ids. */
  ghost predicate PassedOver(batch: seq<nat>, before: seq<OutboxRow>, after: seq<OutboxRow>, taken: seq<bool>,
                             marked: seq<bool>)
    requires |batch| <= |taken| && |batch| <= |marked|
    requires forall k :: 0 <= k < |batch| ==> batch[k] < |before|
  {
    && |after| == |before|
    && (forall j :: 0 <= j < |batch| ==> after[batch[j]] == Relayed(before[batch[j]], taken[j], marked[j]))
    && (forall i :: 0 <= i < |before| && i !in batch ==> after[i] == before[i])
  }

  /** The effect of the first j rows of a batch. */
  ghost predicate PassedUpTo(batch: seq<nat>, before: seq<OutboxRow>, after: seq<OutboxRow>, taken: seq<bool>,
                             marked: seq<bool>, j: nat)
    requires j <= |batch| <= |taken| && |batch| <= |marked|
    requires forall k :: 0 <= k < |batch| ==> batch[k] < |before|
  {
    && |after| == |before|
    && (forall k :: 0 <= k < j ==> after[batch[k]] == Relayed(before[batch[k]], taken[k], marked[k]))
    && (forall k :: j <= k < |batch| ==> after[batch[k]] == before[batch[k]])
    && (forall i :: 0 <= i < |before| && i !in batch ==> after[i] == before[i])
  }

  lemma PassStep(batch: seq<nat>, before: seq<OutboxRow>, sofar: seq<OutboxRow>, after: seq<OutboxRow>,
                 taken: seq<bool>, marked: seq<bool>, j: nat)
    requires j < |batch| <= |taken| && |batch| <= |marked|
    requires forall k :: 0 <= k < |batch| ==> batch[k] < |before|
    requires forall i, k :: 0 <= i < k < |batch| ==> batch[i] != batch[k]
    requires PassedUpTo(batch, before, sofar, taken, marked, j)
    requires after == sofar[batch[j] := Relayed(sofar[batch[j]], taken[j], marked[j])]
    ensures PassedUpTo(batch, before, after, taken, marked, j + 1)
    ensures Delivered(before, batch, taken, j + 1)
         == Delivered(before, batch, taken, j) + if taken[j] then multiset{sofar[batch[j]].message} else multiset{}
  {
  }

  lemma PassEnds(batch: seq<nat>, before: seq<OutboxRow>, after: seq<OutboxRow>, taken: seq<bool>, marked: seq<bool>)
    requires |batch| <= |taken| && |batch| <= |marked|
    requires forall k :: 0 <= k < |batch| ==> batch[k] < |before|
    requires PassedUpTo(batch, before, after, taken, marked, |batch|)
    ensures PassedOver(batch, before, after, taken, marked)
  {
  }

  /** The state of a pass after j rows: the table, and the queue with what they added to it. */
  ghost predicate Relaying(batch: seq<nat>, before: seq<OutboxRow>, after: seq<OutboxRow>, pending: multiset<Message>,
                           queue: multiset<Message>, taken: seq<bool>, marked: seq<bool>, j: nat)
    requires j <= |batch| <= |taken| && |batch| <= |marked|
    requires forall k :: 0 <= k < |batch| ==> batch[k] < |before|
  {
    PassedUpTo(batch, before, after, taken, marked, j) && queue == pending + Delivered(before, batch, taken, j)
  }

  lemma RelayingStep(batch: seq<nat>, before: seq<OutboxRow>, sofar: seq<OutboxRow>, after: seq<OutboxRow>,
                     pending: multiset<Message>, held: multiset<Message>, queue: multiset<Message>, taken: seq<bool>,
                     marked: seq<bool>, j: nat)
    requires j < |batch| <= |taken| && |batch| <= |marked|
    requires forall k :: 0 <= k < |batch| ==> batch[k] < |before|
    requires forall i, k :: 0 <= i < k < |batch| ==> batch[i] != batch[k]
    requires Relaying(batch, before, sofar, pending, held, taken, marked, j)
    requires after == sofar[batch[j] := Relayed(sofar[batch[j]], taken[j], marked[j])]
    requires queue == held + if taken[j] then multiset{sofar[batch[j]].message} else multiset{}
    ensures Relaying(batch, before, after, pending, queue, taken, marked, j + 1)
  {
    PassStep(batch, before, sofar, after, taken, marked, j);
  }

  ghost predicate Drained(before: seq<OutboxRow>, after: seq<OutboxRow>, taken: seq<bool>, marked: seq<bool>)
    requires |Batch(before)| <= |taken| && |Batch(before)| <= |marked|
  {
    PendingAscends(before);
    PassedOver(Batch(before), before, after, taken, marked)
  }

  /** Pending lists exactly the unprocessed rows, in ascending order. */
  lemma {:induction false} PendingAscends(rows: seq<OutboxRow>)
    ensures forall j :: 0 <= j < |Pending(rows)| ==> Pending(rows)[j] < |rows| && !rows[Pending(rows)[j]].processed
    ensures forall i, j :: 0 <= i < j < |Pending(rows)| ==> Pending(rows)[i] < Pending(rows)[j]
    ensures forall i :: 0 <= i < |rows| && !rows[i].processed ==> i in Pending(rows)
  {
    if rows != [] {
      var last := |rows| - 1;
      var init := Pending(rows[..last]);
      PendingAscends(rows[..last]);
      assert forall i :: 0 <= i < last && !rows[i].processed ==> rows[..last][i] == rows[i] && i in init;
      assert !rows[last].processed ==> Pending(rows)[|init|] == last;
    }
  }

  class SettlementRelay {
    var queue: multiset<Message>
    var rows: seq<OutboxRow>

    constructor ()
      ensures queue == multiset{} && rows == []
    {
      queue, rows := multiset{}, [];
    }

    /** Hand a message to the queue; it is refused when the queue is down. */
    method Enqueue(m: Message, up: bool) returns (ok: bool)
      modifies this`queue
      ensures ok == up
      ensures queue == if up then old(queue) + multiset{m} else old(queue)
    {
      if up {
        queue := queue + multiset{m};
      }
      return up;
    }

    method InsertSettlementOutbox(m: Message)
      modifies this`rows
      ensures rows == Inserted(old(rows), m)
    {
      if !InOutbox(rows, m.id) {
        rows := rows + [OutboxRow(m.id, m, 0, false)];
      }
    }

    /** SELECT ... WHERE processed_at IS NULL ORDER BY created_at LIMIT 100. */
    method ListPending() returns (batch: seq<nat>)
      ensures batch == Batch(rows)
    {
      var i := 0;
      batch := [];
      while i < |rows|
        invariant 0 <= i <= |rows|
        invariant batch == Pending(rows[..i])
      {
        assert rows[..i + 1][..i] == rows[..i];
        if !rows[i].processed {
          batch := batch + [i];
        }
        i := i + 1;
      }
      assert rows[..i] == rows;
      batch := batch[..Min(RELAY_BATCH, |batch|)];
    }

    /** drainSettlementOutbox: one pass over the oldest pending rows. `taken` and `marked` say, row by
        row, whether the queue accepts the message and whether the mark can be stored. */
    method DrainSettlementOutbox(taken: seq<bool>, marked: seq<bool>)
      requires |Batch(rows)| <= |taken| && |Batch(rows)| <= |marked|
      modifies this
      ensures Drained(old(rows), rows, taken, marked)
      ensures var batch := Batch(old(rows)); forall k :: 0 <= k < |batch| ==> batch[k] < |old(rows)|
      ensures queue == old(queue) + Delivered(old(rows), Batch(old(rows)), taken, |Batch(old(rows))|)
    {
      var batch := ListPending();
      PendingAscends(rows);
      RelayBatch(batch, taken, marked);
    }

    method RelayBatch(batch: seq<nat>, taken: seq<bool>, marked: seq<bool>)
      requires |batch| <= |taken| && |batch| <= |marked|
      requires forall k :: 0 <= k < |batch| ==> batch[k] < |rows|
      requires forall i, j :: 0 <= i < j < |batch| ==> batch[i] != batch[j]
      modifies this
      ensures PassedOver(batch, old(rows), rows, taken, marked)
      ensures queue == old(queue) + Delivered(old(rows), batch, taken, |batch|)
    {
      ghost var before, pending := rows, queue;
      var j := 0;
      while j < |batch|
        invariant 0 <= j <= |batch|
        invariant Relaying(batch, before, rows, pending, queue, taken, marked, j)
      {
        ghost var sofar, held := rows, queue;
        RelayRow(batch[j], taken[j], marked[j]);
        RelayingStep(batch, before, sofar, rows, pending, held, queue, taken, marked, j);
        j := j + 1;
      }
      PassEnds(batch, before, rows, taken, marked);
    }

    /** The body of the relay's loop: enqueue, then mark. */
    method RelayRow(id: nat, taken: bool, marked: bool)
      requires id < |rows|
      modifies this
      ensures rows == old(rows)[id := Relayed(old(rows)[id], taken, marked)]
      ensures queue == old(queue) + if taken then multiset{old(rows)[id].message} else multiset{}
    {
      var ok := Enqueue(rows[id].message, taken);
      if !ok {
        rows := rows[id := rows[id].(attempts := rows[id].attempts + 1)];
      } else if marked {
        rows := rows[id := rows[id].(processed := true)];
      }
    }
  }

  /** A pass with the queue and the marks available. */
  ghost predicate FullyDrained(before: seq<OutboxRow>, after: seq<OutboxRow>) {
    var all := seq(RELAY_BATCH, _ => true);
    Drained(before, after, all, all)
  }

  /** A row becomes processed in a pass only if it was pending and the queue took its message. */
  lemma {:induction false} MarkedOnlyIfDelivered(before: seq<OutboxRow>, after: seq<OutboxRow>, taken: seq<bool>,
                                                 marked: seq<bool>, i: nat)
    requires |Batch(before)| <= |taken| && |Batch(before)| <= |marked|
    requires Drained(before, after, taken, marked)
    requires i < |before| && after[i].processed && !before[i].processed
    ensures var batch := Batch(before); forall k :: 0 <= k < |batch| ==> batch[k] < |before|
    ensures before[i].message in Delivered(before, Batch(before), taken, |Batch(before)|)
  {
    PendingAscends(before);
    var batch := Batch(before);
    var j :| 0 <= j < |batch| && batch[j] == i;
    DeliveredContains(before, batch, taken, |batch|, j);
  }

  lemma {:induction false} DeliveredContains(rows: seq<OutboxRow>, batch: seq<nat>, taken: seq<bool>, n: nat, j: nat)
    requires j < n <= |batch| && n <= |taken| && taken[j] && forall k :: 0 <= k < |batch| ==> batch[k] < |rows|
    ensures rows[batch[j]].message in Delivered(rows, batch, taken, n)
  {
    if j < n - 1 {
      DeliveredContains(rows, batch, taken, n - 1, j);
    }
  }

  /** A full pass removes exactly the oldest hundred pending rows, or all if there are fewer. */
  lemma FullDrainRemovesOldest(before: seq<OutboxRow>, after: seq<OutboxRow>)
    requires FullyDrained(before, after)
    ensures Pending(after) == Pending(before)[Min(100, |Pending(before)|)..]
  {
    PendingAscends(before);
    PendingAscends(after);
    var pending, batch := Pending(before), Batch(before);
    var rest := pending[|batch|..];
    assert pending == batch + rest;
    forall i | 0 <= i < |after|
      ensures after[i].processed <==> i !in rest
    {
      if i in batch {
        var j :| 0 <= j < |batch| && batch[j] == i;
        assert after[batch[j]].processed;
      }
    }
    AscendingEqual(Pending(after), rest);
  }

  lemma {:induction false} AscendingEqual(a: seq<nat>, b: seq<nat>)
    requires forall i, j :: 0 <= i < j < |a| ==> a[i] < a[j]
    requires forall i, j :: 0 <= i < j < |b| ==> b[i] < b[j]
    requires forall x :: x in a <==> x in b
    ensures a == b
  {
    assert a != [] ==> a[0] in b;
    assert b != [] ==> b[0] in a;
    if a != [] {
      assert a[0] == b[0];
      forall x ensures x in a[1..] <==> x in b[1..] {
        assert x in a <==> x == a[0] || x in a[1..];
        assert x in b <==> x == b[0] || x in b[1..];
      }
      AscendingEqual(a[1..], b[1..]);
    }
  }

  /** With queue and marks available and no new rows, k passes remove the oldest 100 k rows, so
      ceil(n / 100) passes empty the outbox of n pending rows. */
  lemma {:induction false} DrainsConverge(tables: seq<seq<OutboxRow>>, k: nat)
    requires k < |tables|
    requires forall i :: 0 <= i < |tables| - 1 ==> FullyDrained(tables[i], tables[i + 1])
    ensures Pending(tables[k]) == Pending(tables[0])[Min(k * 100, |Pending(tables[0])|)..]
    ensures |Pending(tables[0])| <= k * 100 <==> Pending(tables[k]) == []
  {
    if k > 0 {
      DrainsConverge(tables, k - 1);
      assert FullyDrained(tables[k - 1], tables[k - 1 + 1]);
      FullDrainRemovesOldest(tables[k - 1], tables[k]);
    }
  }
}
