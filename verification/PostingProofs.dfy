/** Exactly-once, order-independent posting: the billing worker under any delivery sequence, with
    duplicates, retries and reordering. */
module PostingProofs {
  import opened Money
  import opened Sums
  import opened Books

  function PostAll(b: Books, ms: seq<Message>): Books {
    if ms == [] then b else Post(PostAll(b, ms[..|ms| - 1]), ms[|ms| - 1])
  }

  /** A request's payload is made once, so deliveries with one id carry one message; ids are
      non-empty and the users exist. */
  ghost predicate Deliverable(b: Books, ms: seq<Message>) {
    && (forall m :: m in ms ==> m.id != "" && m.user in b.users)
    && (forall m, n :: m in ms && n in ms && m.id == n.id ==> m == n)
  }

  /** The requests a delivery sequence newly bills: those not billed before, each once. */
  function NewlyBilled(b: Books, ms: seq<Message>): map<string, Message> {
    if ms == [] then map[]
    else
      var sofar, last := NewlyBilled(b, ms[..|ms| - 1]), ms[|ms| - 1];
      if Billed(b.billingLogs, last.id) || last.id in sofar then sofar else sofar[last.id := last]
  }

  function ChargeTo(user: int): Message -> Pools {
    (m: Message) => if m.user == user then Shares(m) else ZERO
  }

  lemma {:induction false} NewlyBilledIsASet(b: Books, ms: seq<Message>)
    requires Deliverable(b, ms)
    ensures forall id :: id in NewlyBilled(b, ms)
                         <==> !Billed(b.billingLogs, id) && exists m :: m in ms && m.id == id
    ensures forall id :: id in NewlyBilled(b, ms) ==> NewlyBilled(b, ms)[id] in ms && NewlyBilled(b, ms)[id].id == id
  {
    if ms != [] {
      var init, last := ms[..|ms| - 1], ms[|ms| - 1];
      assert forall m :: m in ms <==> m in init || m == last;
      NewlyBilledIsASet(b, init);
    }
  }

  lemma BilledGrows(logs: seq<BillingLog>, row: BillingLog, id: string)
    ensures Billed(logs + [row], id) <==> Billed(logs, id) || row.requestId == id
  {
    if Billed(logs, id) {
      var k :| 0 <= k < |logs| && logs[k].requestId == id;
      assert (logs + [row])[k].requestId == id;
    }
    assert (logs + [row])[|logs|] == row;
  }

  lemma FirstPosting(b: Books, m: Message, user: int)
    requires m.user in b.users && user in b.users && !Billed(b.billingLogs, m.id)
    ensures Post(b, m).users.Keys == b.users.Keys
    ensures Post(b, m).users[user] == Adjust(b.users[user], ZERO.Minus(ChargeTo(user)(m)))
    ensures forall id :: Billed(Post(b, m).billingLogs, id) <==> Billed(b.billingLogs, id) || id == m.id
  {
    forall id ensures Billed(Post(b, m).billingLogs, id) <==> Billed(b.billingLogs, id) || id == m.id {
      BilledGrows(b.billingLogs, BillingLog(m.id, m.user, m.actual, Shares(m)), id);
    }
  }

  /** The state after any delivery sequence: each user's pools are the start less the split shares of
      the newly billed requests, each once. */
  lemma {:induction false} DeliveriesBillOnce(b: Books, ms: seq<Message>, user: int)
    requires Deliverable(b, ms) && user in b.users
    ensures PostAll(b, ms).users.Keys == b.users.Keys
    ensures PostAll(b, ms).users[user]
         == Adjust(b.users[user], ZERO.Minus(Sum(NewlyBilled(b, ms), ChargeTo(user))))
    ensures forall id :: Billed(PostAll(b, ms).billingLogs, id)
                         <==> Billed(b.billingLogs, id) || id in NewlyBilled(b, ms)
  {
    if ms != [] {
      var init, last := ms[..|ms| - 1], ms[|ms| - 1];
      DeliveriesBillOnce(b, init, user);
      DeliverLast(b, PostAll(b, init), NewlyBilled(b, init), last, user);
    }
  }

  lemma DeliverLast(b: Books, mid: Books, news: map<string, Message>, m: Message, user: int)
    requires m.id != "" && m.user in b.users && user in b.users && mid.users.Keys == b.users.Keys
    requires mid.users[user] == Adjust(b.users[user], ZERO.Minus(Sum(news, ChargeTo(user))))
    requires forall id :: Billed(mid.billingLogs, id) <==> Billed(b.billingLogs, id) || id in news
    ensures Billed(mid.billingLogs, m.id) ==> Post(mid, m) == mid
    ensures !Billed(mid.billingLogs, m.id) ==>
      && Post(mid, m).users.Keys == b.users.Keys
      && Post(mid, m).users[user] == Adjust(b.users[user], ZERO.Minus(Sum(news[m.id := m], ChargeTo(user))))
      && forall id :: Billed(Post(mid, m).billingLogs, id) <==> Billed(b.billingLogs, id) || id in news[m.id := m]
  {
    if !Billed(mid.billingLogs, m.id) {
      var now, charge := Post(mid, m), ChargeTo(user)(m);
      FirstPosting(mid, m, user);
      assert m.id !in news;
      SumInsert(news, ChargeTo(user), m.id, m);
      assert Sum(news[m.id := m], ChargeTo(user)) == Sum(news, ChargeTo(user)).Plus(charge);
      AdjustTwice(b.users[user], Sum(news, ChargeTo(user)), charge);
    }
  }

  lemma AdjustTwice(user: User, first: Pools, second: Pools)
    ensures Adjust(Adjust(user, ZERO.Minus(first)), ZERO.Minus(second)) == Adjust(user, ZERO.Minus(first.Plus(second)))
  {
  }

  /** Two delivery sequences that carry the same set of messages, in any order and with any
      duplicates, leave every user with the same balances and bill the same requests. */
  lemma DeliveryOrderIrrelevant(b: Books, ms: seq<Message>, ns: seq<Message>)
    requires Deliverable(b, ms) && forall m :: m in ms <==> m in ns
    ensures PostAll(b, ms).users == PostAll(b, ns).users
    ensures forall id :: Billed(PostAll(b, ms).billingLogs, id) <==> Billed(PostAll(b, ns).billingLogs, id)
  {
    NewlyBilledIsASet(b, ms);
    NewlyBilledIsASet(b, ns);
    assert NewlyBilled(b, ms) == NewlyBilled(b, ns);
    assert ms != [] ==> ms[0] in ns;
    assert ns != [] ==> ns[0] in ms;
    if ms != [] {
      forall user | user in b.users
        ensures PostAll(b, ms).users.Keys == PostAll(b, ns).users.Keys == b.users.Keys
        ensures PostAll(b, ms).users[user] == PostAll(b, ns).users[user]
      {
        DeliveriesBillOnce(b, ms, user);
        DeliveriesBillOnce(b, ns, user);
      }
      assert ms[0] in ms && ms[0].user in b.users;
      DeliveriesBillOnce(b, ms, ms[0].user);
      DeliveriesBillOnce(b, ns, ms[0].user);
    }
  }

  /** At most one billing log for each non-empty request id. */
  ghost predicate LogsUnique(logs: seq<BillingLog>) {
    forall i, j :: 0 <= i < j < |logs| && logs[i].requestId != "" ==> logs[i].requestId != logs[j].requestId
  }

  lemma {:induction false} RunKeepsLogsUnique(b: Books, entries: seq<Entry>)
    requires LogsUnique(b.billingLogs)
    ensures LogsUnique(EnterAll(b, entries).billingLogs)
    ensures b.billingLogs <= EnterAll(b, entries).billingLogs
    decreases |entries|
  {
    if entries != [] {
      RunKeepsLogsUnique(Enter(b, entries[0]), entries[1..]);
    }
  }

  /** Redelivery of a message is harmless exactly when the request has an id or costs nothing: a
      message without id is charged again each time it is delivered. */
  lemma RedeliveryHarmlessExactly(b: Books, m: Message)
    requires m.user in b.users && !Billed(b.billingLogs, m.id)
    ensures Post(Post(b, m), m).users == Post(b, m).users <==> m.id != "" || Shares(m) == ZERO
  {
    var once := Post(b, m);
    BilledGrows(b.billingLogs, BillingLog(m.id, m.user, m.actual, Shares(m)), m.id);
    if m.id == "" {
      var twice := Post(once, m);
      assert twice.users[m.user].balance == once.users[m.user].balance.Minus(Shares(m));
      if Shares(m) == ZERO {
        assert twice.users[m.user] == once.users[m.user];
      }
    }
  }
}
