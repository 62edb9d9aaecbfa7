/** Over every run of the ledger: no settlement is lost, and each is posted at most once. */
module LedgerDelivery {
  import opened Money
  import opened CacheScripts
  import opened Books
  import opened Relay
  import opened Ledger
  import BooksProofs
  import PostingProofs

  ghost predicate SoundRequest(users: map<int, User>, id: string, r: Request) {
    && id != "" && r.user in users
    && r.hold.NonNegative() && 0 <= r.actual
    && (r.recorded == r.hold.Total() || r.hold == ZERO)
    && (!r.phase.Open? ==> r.shares == Split(r.actual, r.hold))
  }

  ghost predicate Shape(s: State) {
    && s.cache.Keys == s.owed.Keys == s.crediting.Keys == s.drift.Keys == s.books.users.Keys
    && (forall id :: id in s.requests ==> SoundRequest(s.books.users, id, s.requests[id]))
    && (forall e :: e in s.uncached ==> Recorded(s.books.transactions, e) && s.uncached[e].user in s.books.users)
  }

  /** A message is the payload of a request that has been dispatched. */
  ghost predicate Genuine(requests: map<string, Request>, m: Message) {
    && m.id in requests && m == Payload(m.id, requests[m.id])
    && (requests[m.id].phase.Dispatched? || requests[m.id].phase.Posted?)
  }

  ghost predicate PostedIn(requests: map<string, Request>, id: string) {
    id in requests && requests[id].phase.Posted?
  }

  ghost predicate Waiting(queue: multiset<Message>, rows: seq<OutboxRow>, m: Message) {
    m in queue || exists i :: 0 <= i < |rows| && rows[i].message == m && !rows[i].processed
  }

  ghost predicate Underway(queue: multiset<Message>, requests: map<string, Request>, m: Message) {
    m in queue || PostedIn(requests, m.id)
  }

  ghost predicate LogMatches(requests: map<string, Request>, log: BillingLog) {
    PostedIn(requests, log.requestId)
    && var r := requests[log.requestId]; log == BillingLog(log.requestId, r.user, r.actual, Split(r.actual, r.hold))
  }

  /** Every message queued or kept is genuine, every relayed row's message is queued or posted, and every
      dispatched request's message is somewhere. */
  ghost predicate InFlight(requests: map<string, Request>, queue: multiset<Message>, rows: seq<OutboxRow>,
                           relayed: set<nat>) {
    && (forall m :: m in queue ==> Genuine(requests, m))
    && (forall i :: 0 <= i < |rows| ==> rows[i].requestId == rows[i].message.id && Genuine(requests, rows[i].message))
    && (forall i :: i in relayed ==> i < |rows| && Underway(queue, requests, rows[i].message))
    && (forall i :: 0 <= i < |rows| && rows[i].processed ==> i in relayed)
    && (forall id :: id in requests && requests[id].phase.Dispatched? ==>
          Waiting(queue, rows, Payload(id, requests[id])))
  }

  /** A request is posted exactly when it has a billing log, which is the only one and is right. */
  ghost predicate Accounted(requests: map<string, Request>, logs: seq<BillingLog>) {
    && (forall id :: Billed(logs, id) <==> PostedIn(requests, id))
    && (forall k :: 0 <= k < |logs| ==> LogMatches(requests, logs[k]))
    && PostingProofs.LogsUnique(logs)
  }

  ghost predicate Traced(s: State) {
    InFlight(s.requests, s.queue, s.rows, s.relayed) && Accounted(s.requests, s.books.billingLogs)
  }

  lemma HoldIsSound(keys: Keys, cost: int, policy: Policy)
    ensures match PreDeductAnswer(keys, cost, policy)
            case Taken(taken) => taken.NonNegative() && (taken.Total() == cost || taken == ZERO)
            case _ => true
  {
    if PreDeductAnswer(keys, cost, policy).Taken? {
      GreedyIsSound(keys.OrZero(), cost, policy);
    }
  }

  // Requests that no message or log speaks of yet.

  lemma EarlyChangeInFlight(requests: map<string, Request>, queue: multiset<Message>, rows: seq<OutboxRow>,
                            relayed: set<nat>, id: string, r: Request)
    requires InFlight(requests, queue, rows, relayed)
    requires (id in requests ==> requests[id].phase.Open?) && (r.phase.Open? || r.phase.Unsent?)
    ensures InFlight(requests[id := r], queue, rows, relayed)
  {
    var now := requests[id := r];
    forall m | Genuine(requests, m) ensures Genuine(now, m) {}
    forall m | Underway(queue, requests, m) ensures Underway(queue, now, m) {}
    forall j | j in now && now[j].phase.Dispatched? ensures Waiting(queue, rows, Payload(j, now[j])) {
      assert Waiting(queue, rows, Payload(j, requests[j]));
    }
  }

  lemma EarlyChangeAccounted(requests: map<string, Request>, logs: seq<BillingLog>, id: string, r: Request)
    requires Accounted(requests, logs)
    requires (id in requests ==> requests[id].phase.Open? || requests[id].phase.Unsent?) && !r.phase.Posted?
    ensures Accounted(requests[id := r], logs)
  {
    var now := requests[id := r];
    forall j ensures Billed(logs, j) <==> PostedIn(now, j) {
      assert Billed(logs, j) <==> PostedIn(requests, j);
    }
    forall k | 0 <= k < |logs| ensures LogMatches(now, logs[k]) {
      assert LogMatches(requests, logs[k]);
    }
  }

  lemma ShapeWith(s: State, s': State, id: string, r: Request)
    requires Shape(s) && SoundRequest(s.books.users, id, r)
    requires s'.requests == s.requests[id := r] && s'.books == s.books && s'.uncached == s.uncached
    requires s'.cache.Keys == s.cache.Keys && s'.owed.Keys == s.owed.Keys
    requires s'.crediting.Keys == s.crediting.Keys && s'.drift.Keys == s.drift.Keys
    ensures Shape(s')
  {
    forall j | j in s'.requests ensures SoundRequest(s'.books.users, j, s'.requests[j]) {
      assert j == id || SoundRequest(s.books.users, j, s.requests[j]);
    }
  }

  lemma EarlyChangeKeeps(s: State, s': State, id: string, r: Request)
    requires Shape(s) && Traced(s) && SoundRequest(s.books.users, id, r)
    requires (id in s.requests ==> s.requests[id].phase.Open?) && (r.phase.Open? || r.phase.Unsent?)
    requires s'.requests == s.requests[id := r] && s'.books == s.books && s'.uncached == s.uncached
    requires s'.queue == s.queue && s'.rows == s.rows && s'.relayed == s.relayed
    requires s'.cache.Keys == s.cache.Keys && s'.owed.Keys == s.owed.Keys
    requires s'.crediting.Keys == s.crediting.Keys && s'.drift.Keys == s.drift.Keys
    ensures Shape(s') && Traced(s')
  {
    ShapeWith(s, s', id, r);
    EarlyChangeInFlight(s.requests, s.queue, s.rows, s.relayed, id, r);
    EarlyChangeAccounted(s.requests, s.books.billingLogs, id, r);
  }

  lemma OpenedKeeps(s: State, id: string, user: int, cost: int, taken: Pools, keys: Keys)
    requires Shape(s) && Traced(s) && id != "" && id !in s.requests && Known(s, user)
    requires taken.NonNegative() && (taken.Total() == cost || taken == ZERO)
    ensures Shape(Opened(s, id, user, cost, taken, keys)) && Traced(Opened(s, id, user, cost, taken, keys))
  {
    EarlyChangeKeeps(s, Opened(s, id, user, cost, taken, keys), id, Request(user, cost, taken, 0, ZERO, Open));
  }

  lemma HoldKeeps(s: State, id: string, user: int, cost: int, policy: Policy, lastTry: bool)
    requires Shape(s) && Traced(s)
    ensures Shape(HoldStep(s, id, user, cost, policy, lastTry)) && Traced(HoldStep(s, id, user, cost, policy, lastTry))
  {
    if id != "" && id !in s.requests && Known(s, user) {
      match PreDeductAnswer(s.cache[user], cost, policy)
      case Insufficient =>
      case Missing =>
        var r := Request(user, cost, ZERO, 0, ZERO, Open);
        EarlyChangeKeeps(s, s.(requests := s.requests[id := r]), id, r);
      case Taken(taken) =>
        HoldIsSound(s.cache[user], cost, policy);
        OpenedKeeps(s, id, user, cost, taken, Shift(s.cache[user], ZERO.Minus(taken)));
    }
  }

  /** What a settlement touches, besides cache and histories of a user it knows. */
  lemma SettleTouches(s: State, id: string, actual: int, policy: Policy)
    ensures var s' := SettleStep(s, id, actual, policy);
      s' == s
      || (&& id in s.requests && s.requests[id].phase.Open? && 0 <= actual
          && s'.requests == s.requests[id := Finalised(s.requests[id], actual)] && s'.books == s.books
          && s'.uncached == s.uncached && s'.queue == s.queue && s'.rows == s.rows && s'.relayed == s.relayed
          && s'.cache.Keys == s.cache.Keys && s'.owed.Keys == s.owed.Keys
          && s'.crediting.Keys == s.crediting.Keys && s'.drift.Keys == s.drift.Keys)
  {
  }

  lemma FinalisedIsSound(users: map<int, User>, id: string, r: Request, actual: int)
    requires SoundRequest(users, id, r) && 0 <= actual
    ensures SoundRequest(users, id, Finalised(r, actual))
  {
  }

  lemma SettleKeeps(s: State, id: string, actual: int, policy: Policy)
    requires Shape(s) && Traced(s)
    ensures Shape(SettleStep(s, id, actual, policy)) && Traced(SettleStep(s, id, actual, policy))
  {
    var s' := SettleStep(s, id, actual, policy);
    SettleTouches(s, id, actual, policy);
    if s' != s {
      FinalisedIsSound(s.books.users, id, s.requests[id], actual);
      EarlyChangeKeeps(s, s', id, Finalised(s.requests[id], actual));
    }
  }

  // Sending.

  lemma SentInFlight(requests: map<string, Request>, queue: multiset<Message>, rows: seq<OutboxRow>, relayed: set<nat>,
                     id: string, queue': multiset<Message>, rows': seq<OutboxRow>)
    requires InFlight(requests, queue, rows, relayed) && id in requests && requests[id].phase.Unsent?
    requires var m := Payload(id, requests[id]);
      || (queue' == queue + multiset{m} && rows' == rows)
      || (queue' == queue && rows' == rows + [OutboxRow(id, m, 0, false)])
    ensures InFlight(requests[id := requests[id].(phase := Dispatched)], queue', rows', relayed)
  {
    var m, now := Payload(id, requests[id]), requests[id := requests[id].(phase := Dispatched)];
    assert Payload(id, now[id]) == m;
    forall n | n in queue' ensures Genuine(now, n) { assert n == m || Genuine(requests, n); }
    forall i | 0 <= i < |rows'| ensures rows'[i].requestId == rows'[i].message.id && Genuine(now, rows'[i].message) {
      assert i < |rows| ==> rows'[i] == rows[i] && Genuine(requests, rows[i].message);
    }
    forall i | i in relayed ensures i < |rows'| && Underway(queue', now, rows'[i].message) {
      assert Underway(queue, requests, rows[i].message);
    }
    forall j | j in now && now[j].phase.Dispatched? ensures Waiting(queue', rows', Payload(j, now[j])) {
      if j == id {
        assert m in queue' || (rows'[|rows|].message == m && !rows'[|rows|].processed);
      } else {
        WaitingKept(queue, rows, queue', rows', Payload(j, requests[j]));
      }
    }
  }

  lemma WaitingKept(queue: multiset<Message>, rows: seq<OutboxRow>, queue': multiset<Message>, rows': seq<OutboxRow>,
                    m: Message)
    requires Waiting(queue, rows, m) && queue <= queue' && rows <= rows'
    ensures Waiting(queue', rows', m)
  {
    if m !in queue {
      var i :| 0 <= i < |rows| && rows[i].message == m && !rows[i].processed;
      assert rows'[i] == rows[i];
    }
  }

  lemma UnsentNotInOutbox(s: State, id: string)
    requires Traced(s) && id in s.requests && s.requests[id].phase.Unsent?
    ensures !InOutbox(s.rows, id)
  {
    assert forall k :: 0 <= k < |s.rows| ==> Genuine(s.requests, s.rows[k].message);
  }

  lemma SendKeeps(s: State, id: string, queueUp: bool)
    requires Shape(s) && Traced(s)
    ensures Shape(SendStep(s, id, queueUp)) && Traced(SendStep(s, id, queueUp))
  {
    var s' := SendStep(s, id, queueUp);
    if id in s.requests && s.requests[id].phase.Unsent? {
      assert SoundRequest(s.books.users, id, s.requests[id]);
      UnsentNotInOutbox(s, id);
      ShapeWith(s, s', id, s'.requests[id]);
      SentInFlight(s.requests, s.queue, s.rows, s.relayed, id, s'.queue, s'.rows);
      EarlyChangeAccounted(s.requests, s.books.billingLogs, id, s'.requests[id]);
    }
  }

  // Posting.

  lemma PostedInFlight(requests: map<string, Request>, queue: multiset<Message>, rows: seq<OutboxRow>,
                       relayed: set<nat>, m: Message, queue': multiset<Message>)
    requires InFlight(requests, queue, rows, relayed) && m in queue && m.id in requests
    requires queue' == queue || queue' == queue - multiset{m}
    ensures InFlight(requests[m.id := requests[m.id].(phase := Posted)], queue', rows, relayed)
  {
    var now := requests[m.id := requests[m.id].(phase := Posted)];
    assert Genuine(requests, m);
    forall n | Genuine(requests, n) ensures Genuine(now, n) {}
    forall i | i in relayed ensures i < |rows| && Underway(queue', now, rows[i].message) {
      assert Underway(queue, requests, rows[i].message);
    }
    forall j | j in now && now[j].phase.Dispatched? ensures Waiting(queue', rows, Payload(j, now[j])) {
      var n := Payload(j, requests[j]);
      assert Waiting(queue, rows, n) && n != m;
      assert n !in queue ==> exists i :: 0 <= i < |rows| && rows[i].message == n && !rows[i].processed;
    }
  }

  lemma PostedAccounted(requests: map<string, Request>, logs: seq<BillingLog>, m: Message)
    requires Accounted(requests, logs) && Genuine(requests, m) && m.id != ""
    ensures var now := requests[m.id := requests[m.id].(phase := Posted)];
            Accounted(now, if Billed(logs, m.id) then logs else logs + [BillingLog(m.id, m.user, m.actual, Shares(m))])
  {
    var now := requests[m.id := requests[m.id].(phase := Posted)];
    var row := BillingLog(m.id, m.user, m.actual, Shares(m));
    assert Billed(logs, m.id) <==> PostedIn(requests, m.id);
    forall j ensures Billed(logs + [row], j) <==> Billed(logs, j) || j == m.id {
      PostingProofs.BilledGrows(logs, row, j);
    }
    forall j ensures PostedIn(now, j) <==> Billed(logs, j) || j == m.id {
      assert Billed(logs, j) <==> PostedIn(requests, j);
    }
    forall k | 0 <= k < |logs| ensures LogMatches(now, logs[k]) {
      assert LogMatches(requests, logs[k]);
    }
    assert LogMatches(now, row);
  }

  lemma DeliveredTraced(s: State, m: Message, acknowledged: bool)
    requires Shape(s) && Traced(s) && m in s.queue && m.user in s.books.users && m.id in s.requests && m.id != ""
    ensures Traced(DeliverStep(s, m, acknowledged))
  {
    PostedInFlight(s.requests, s.queue, s.rows, s.relayed, m, DeliverStep(s, m, acknowledged).queue);
    PostedAccounted(s.requests, s.books.billingLogs, m);
  }

  lemma DeliverKeeps(s: State, m: Message, acknowledged: bool)
    requires Shape(s) && Traced(s)
    ensures Shape(DeliverStep(s, m, acknowledged)) && Traced(DeliverStep(s, m, acknowledged))
  {
    if m in s.queue {
      assert Genuine(s.requests, m) && SoundRequest(s.books.users, m.id, s.requests[m.id]);
      DeliveredTraced(s, m, acknowledged);
      PostedShape(s, DeliverStep(s, m, acknowledged), m);
    }
  }

  lemma PostedShape(s: State, s': State, m: Message)
    requires Shape(s) && Genuine(s.requests, m)
    requires s'.requests == s.requests[m.id := s.requests[m.id].(phase := Posted)]
    requires s'.books.users.Keys == s.books.users.Keys && s'.books.transactions == s.books.transactions
    requires s'.cache == s.cache && s'.owed.Keys == s.owed.Keys
    requires s'.crediting == s.crediting && s'.drift == s.drift && s'.uncached == s.uncached
    ensures Shape(s')
  {
    forall id | id in s'.requests ensures SoundRequest(s'.books.users, id, s'.requests[id]) {
      assert SoundRequest(s.books.users, id, s.requests[id]);
    }
  }

  // Relaying.

  lemma RelayEnqueueKeeps(s: State, row: nat)
    requires Shape(s) && Traced(s)
    ensures Shape(RelayEnqueueStep(s, row)) && Traced(RelayEnqueueStep(s, row))
  {
    if row < |s.rows| {
      var queue' := s.queue + multiset{s.rows[row].message};
      assert Genuine(s.requests, s.rows[row].message);
      forall i | i in s.relayed + {row} ensures i < |s.rows| && Underway(queue', s.requests, s.rows[i].message) {
        assert i == row || Underway(s.queue, s.requests, s.rows[i].message);
      }
      forall j | j in s.requests && s.requests[j].phase.Dispatched?
          ensures Waiting(queue', s.rows, Payload(j, s.requests[j])) {
        WaitingKept(s.queue, s.rows, queue', s.rows, Payload(j, s.requests[j]));
      }
      assert InFlight(s.requests, queue', s.rows, s.relayed + {row});
    }
  }

  lemma MarkedInFlight(requests: map<string, Request>, queue: multiset<Message>, rows: seq<OutboxRow>,
                       relayed: set<nat>, row: nat)
    requires InFlight(requests, queue, rows, relayed) && row < |rows| && row in relayed
    ensures InFlight(requests, queue, rows[row := rows[row].(processed := true)], relayed)
  {
    var rows' := rows[row := rows[row].(processed := true)];
    assert Underway(queue, requests, rows[row].message);
    forall i | i in relayed ensures i < |rows'| && Underway(queue, requests, rows'[i].message) {
      assert Underway(queue, requests, rows[i].message);
    }
    forall j | j in requests && requests[j].phase.Dispatched? ensures Waiting(queue, rows', Payload(j, requests[j])) {
      var n := Payload(j, requests[j]);
      assert Waiting(queue, rows, n);
      if n !in queue {
        var i :| 0 <= i < |rows| && rows[i].message == n && !rows[i].processed;
        assert Genuine(requests, rows[row].message);
        assert i != row;
        assert rows'[i] == rows[i];
      }
    }
  }

  lemma RelayMarkKeeps(s: State, row: nat)
    requires Shape(s) && Traced(s)
    ensures Shape(RelayMarkStep(s, row)) && Traced(RelayMarkStep(s, row))
  {
    if row < |s.rows| && row in s.relayed {
      MarkedInFlight(s.requests, s.queue, s.rows, s.relayed, row);
    }
  }

  // Steps that leave requests, outbox and billing logs alone.

  lemma RedeliverKeeps(s: State, m: Message)
    requires Shape(s) && Traced(s)
    ensures Shape(RedeliverStep(s, m)) && Traced(RedeliverStep(s, m))
  {
    if m in s.queue {
      var queue' := s.queue + multiset{m};
      forall i | i in s.relayed ensures i < |s.rows| && Underway(queue', s.requests, s.rows[i].message) {
        assert Underway(s.queue, s.requests, s.rows[i].message);
      }
      forall j | j in s.requests && s.requests[j].phase.Dispatched?
          ensures Waiting(queue', s.rows, Payload(j, s.requests[j])) {
        WaitingKept(s.queue, s.rows, queue', s.rows, Payload(j, s.requests[j]));
      }
      assert InFlight(s.requests, queue', s.rows, s.relayed);
    }
  }

  lemma LoadKeeps(s: State, user: int)
    requires Shape(s) && Traced(s)
    ensures Shape(LoadStep(s, user)) && Traced(LoadStep(s, user))
  {
  }

  lemma DropKeeps(s: State, user: int)
    requires Shape(s) && Traced(s)
    ensures Shape(DropStep(s, user)) && Traced(DropStep(s, user))
  {
  }

  lemma CacheCreditKeeps(s: State, event: EventId)
    requires Shape(s) && Traced(s)
    ensures Shape(CacheCreditStep(s, event)) && Traced(CacheCreditStep(s, event))
  {
    var s' := CacheCreditStep(s, event);
    assert s'.books == s.books && s'.requests == s.requests;
    assert s'.queue == s.queue && s'.rows == s.rows && s'.relayed == s.relayed;
  }

  lemma CommitKeeps(s: State, req: TransactionRequest)
    requires Shape(s) && Traced(s)
    ensures Shape(CommitStep(s, req)) && Traced(CommitStep(s, req))
  {
    var s' := CommitStep(s, req);
    if s' != s {
      RowsKept(s, s'.books);
      assert s'.books.transactions[|s.books.transactions|].event == req.event;
    }
  }

  lemma ChangeKeeps(s: State, a: SubscriptionApply, seen: Reading)
    requires Shape(s) && Traced(s)
    ensures Shape(ChangeStep(s, a, seen)) && Traced(ChangeStep(s, a, seen))
  {
    var s' := ChangeStep(s, a, seen);
    if s' != s {
      RowsKept(s, s'.books);
    }
  }

  lemma RowsKept(s: State, books: Books)
    requires Shape(s)
    requires books.users.Keys == s.books.users.Keys && s.books.transactions <= books.transactions
    ensures forall id :: id in s.requests ==> SoundRequest(books.users, id, s.requests[id])
    ensures forall e :: e in s.uncached ==> Recorded(books.transactions, e) && s.uncached[e].user in books.users
  {
    forall id | id in s.requests ensures SoundRequest(books.users, id, s.requests[id]) {
      assert SoundRequest(s.books.users, id, s.requests[id]);
    }
    forall e | e in s.uncached ensures Recorded(books.transactions, e) {
      var k :| 0 <= k < |s.books.transactions| && s.books.transactions[k].event == e;
      assert books.transactions[k].event == e;
    }
  }

  lemma RequestStepKeepsTrace(s: State, step: Step)
    requires Shape(s) && Traced(s) && (step.Hold? || step.Settle? || step.Refund?)
    ensures Shape(Next(s, step)) && Traced(Next(s, step))
  {
    match step
    case Hold(id, user, cost, policy, lastTry) => HoldKeeps(s, id, user, cost, policy, lastTry);
    case Settle(id, actual, policy) => SettleKeeps(s, id, actual, policy);
    case Refund(id) => SettleKeeps(s, id, 0, AllPools);
  }

  lemma CacheStepKeepsTrace(s: State, step: Step)
    requires Shape(s) && Traced(s) && (step.Load? || step.Drop? || step.CacheCredit?)
    ensures Shape(Next(s, step)) && Traced(Next(s, step))
  {
    match step
    case Load(user) => LoadKeeps(s, user);
    case Drop(user) => DropKeeps(s, user);
    case CacheCredit(event) => CacheCreditKeeps(s, event);
  }

  lemma QueueStepKeepsTrace(s: State, step: Step)
    requires Shape(s) && Traced(s)
    requires step.Send? || step.Deliver?
    ensures Shape(Next(s, step)) && Traced(Next(s, step))
  {
    if step.Send? {
      SendKeeps(s, step.sent, step.queueUp);
    } else {
      DeliverKeeps(s, step.m, step.acknowledged);
    }
  }

  lemma RelayStepKeepsTrace(s: State, step: Step)
    requires Shape(s) && Traced(s)
    requires step.Redeliver? || step.RelayEnqueue? || step.RelayMark?
    ensures Shape(Next(s, step)) && Traced(Next(s, step))
  {
    match step
    case Redeliver(m) => RedeliverKeeps(s, m);
    case RelayEnqueue(row) => RelayEnqueueKeeps(s, row);
    case RelayMark(row) => RelayMarkKeeps(s, row);
  }

  lemma StepKeepsTrace(s: State, step: Step)
    requires Shape(s) && Traced(s)
    ensures Shape(Next(s, step)) && Traced(Next(s, step))
  {
    match step
    case Commit(req) => CommitKeeps(s, req);
    case ChangeSubscription(a, seen) => ChangeKeeps(s, a, seen);
    case Send(_, _) => QueueStepKeepsTrace(s, step);
    case Redeliver(_) => RelayStepKeepsTrace(s, step);
    case Deliver(_, _) => QueueStepKeepsTrace(s, step);
    case RelayEnqueue(_) => RelayStepKeepsTrace(s, step);
    case RelayMark(_) => RelayStepKeepsTrace(s, step);
    case Hold(_, _, _, _, _) => RequestStepKeepsTrace(s, step);
    case Settle(_, _, _) => RequestStepKeepsTrace(s, step);
    case Refund(_) => RequestStepKeepsTrace(s, step);
    case _ => CacheStepKeepsTrace(s, step);
  }

  lemma {:induction false} RunKeepsTrace(s: State, steps: seq<Step>)
    requires Shape(s) && Traced(s)
    ensures Shape(Run(s, steps)) && Traced(Run(s, steps))
    decreases |steps|
  {
    if steps != [] {
      StepKeepsTrace(s, steps[0]);
      RunKeepsTrace(Next(s, steps[0]), steps[1..]);
    }
  }

  /** No settlement lost, and none posted twice, in any reachable state: a dispatched request is in the
      queue, in a pending outbox row, or posted; the request of every processed outbox row is queued or
      posted; a request is posted exactly when it has a billing log, and then it has exactly one, for
      exactly its split shares. */
  lemma NoSettlementLostNorRepeated(start: State, steps: seq<Step>)
    requires Initial(start)
    ensures var s := Run(start, steps);
      && (forall id :: id in s.requests && s.requests[id].phase.Dispatched? ==>
          Waiting(s.queue, s.rows, Payload(id, s.requests[id])))
      && (forall i :: 0 <= i < |s.rows| && s.rows[i].processed ==> Underway(s.queue, s.requests, s.rows[i].message))
      && (forall id :: Billed(s.books.billingLogs, id) <==> PostedIn(s.requests, id))
      && (forall k :: 0 <= k < |s.books.billingLogs| ==> LogMatches(s.requests, s.books.billingLogs[k]))
      && (forall i, j :: 0 <= i < j < |s.books.billingLogs| ==>
            s.books.billingLogs[i].requestId != s.books.billingLogs[j].requestId)
  {
    RunKeepsTrace(start, steps);
    var s := Run(start, steps);
    forall i, j | 0 <= i < j < |s.books.billingLogs|
      ensures s.books.billingLogs[i].requestId != s.books.billingLogs[j].requestId
    {
      assert LogMatches(s.requests, s.books.billingLogs[i]);
      assert SoundRequest(s.books.users, s.books.billingLogs[i].requestId,
          s.requests[s.books.billingLogs[i].requestId]);
    }
  }

  lemma StepKeepsIdsUnique(s: State, step: Step)
    requires IdsUnique(s.rows)
    ensures IdsUnique(Next(s, step).rows)
  {
    if step.Send? && step.sent in s.requests {
      InsertsOnce(s.rows, Payload(step.sent, s.requests[step.sent]));
    }
  }

  /** In every reachable state the outbox holds at most one row for each request. */
  lemma {:induction false} OutboxHoldsOnce(s: State, steps: seq<Step>)
    requires IdsUnique(s.rows)
    ensures IdsUnique(Run(s, steps).rows)
    decreases |steps|
  {
    if steps != [] {
      StepKeepsIdsUnique(s, steps[0]);
      OutboxHoldsOnce(Next(s, steps[0]), steps[1..]);
    }
  }

  // The books of a ledger run are the books of a run of their database transactions.

  function EntryOf(s: State, step: Step): seq<Entry> {
    match step
    case Deliver(m, _) => if m in s.queue && m.id in s.requests then [Posting(m)] else []
    case Commit(req) => [Moving(req)]
    case ChangeSubscription(a, seen) => [Applying(a, seen)]
    case _ => []
  }

  ghost function EntriesOf(s: State, steps: seq<Step>): seq<Entry>
    decreases |steps|
  {
    if steps == [] then [] else EntryOf(s, steps[0]) + EntriesOf(Next(s, steps[0]), steps[1..])
  }

  lemma StepEntersBooks(s: State, step: Step)
    ensures Next(s, step).books == EnterAll(s.books, EntryOf(s, step))
  {
    OneEntry(s.books, EntryOf(s, step));
    match step
    case Deliver(m, acknowledged) =>
      assert DeliverStep(s, m, acknowledged).books
          == if m in s.queue && m.id in s.requests then Post(s.books, m) else s.books;
    case Commit(req) => assert CommitStep(s, req).books == Transact(s.books, req);
    case ChangeSubscription(a, seen) => assert ChangeStep(s, a, seen).books == Apply(s.books, a, seen);
    case _ => assert Next(s, step).books == s.books;
  }

  lemma OneEntry(b: Books, entries: seq<Entry>)
    requires |entries| <= 1
    ensures EnterAll(b, entries) == if entries == [] then b else Enter(b, entries[0])
  {
    if entries != [] {
      assert EnterAll(Enter(b, entries[0]), entries[1..]) == Enter(b, entries[0]);
    }
  }

  lemma {:induction false} RunEntersBooks(s: State, steps: seq<Step>)
    ensures Run(s, steps).books == BooksOf(s, steps)
    decreases |steps|
  {
    if steps != [] {
      var next := Next(s, steps[0]);
      StepEntersBooks(s, steps[0]);
      RunEntersBooks(next, steps[1..]);
      BooksProofs.EnterAllAppend(s.books, EntryOf(s, steps[0]), EntriesOf(next, steps[1..]));
    }
  }

  ghost function BooksOf(s: State, steps: seq<Step>): Books {
    EnterAll(s.books, EntriesOf(s, steps))
  }

  /** Conservation over whole ledger runs, with postings arriving through queue and outbox. */
  lemma LedgerConservesMoney(start: State, steps: seq<Step>, user: int)
    requires Initial(start) && user in start.books.users
    ensures var now := Run(start, steps).books;
      && user in now.users
      && var opening, balance := start.books.users[user].balance, now.users[user].balance;
         var ledger, posted := LedgerOf(now.transactions, user), PostedTo(now.billingLogs, user);
         && balance.sub + balance.cash == opening.sub + opening.cash + ledger.money - posted.sub - posted.cash
         && balance.grant == opening.grant + ledger.granted - ledger.forfeited - posted.grant
         && (balance.cash == opening.cash + CashLogged(now.balanceLogs, user) - posted.cash
             <==> ledger.unlogged == 0)
  {
    RunEntersBooks(start, steps);
    BooksProofs.RealMoneyConserved(start.books, EntriesOf(start, steps), user);
    BooksProofs.AuditReconcilesExactly(start.books, EntriesOf(start, steps), user);
  }
}
