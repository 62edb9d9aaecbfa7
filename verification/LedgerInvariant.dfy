/**
 The ledger invariant with the outstanding amounts spelled out as sums over the requests and credits in
 flight, and what follows from it: when the cache equals the database, and that refunds undo holds.
 */
module LedgerInvariant {
  import opened Money
  import opened Sums
  import opened Books
  import opened Ledger
  import opened LedgerDelivery
  import opened Reconciliation

  ghost predicate OwedTallied(requests: map<string, Request>, owed: Pools, user: int) {
    owed == Sum(requests, OwingTo(user))
  }

  ghost predicate CreditsTallied(uncached: map<EventId, Credit>, crediting: Pools, user: int) {
    crediting == Sum(uncached, CreditTo(user))
  }

  ghost predicate Tallied(s: State, user: int) {
    && user in s.owed && OwedTallied(s.requests, s.owed[user], user)
    && user in s.crediting && CreditsTallied(s.uncached, s.crediting[user], user)
  }

  function Moved(user: int, mover: int, total: Pools, delta: Pools): Pools {
    if user == mover then total.Plus(delta) else total
  }

  lemma TallyInsert(requests: map<string, Request>, owed: Pools, id: string, r: Request, user: int)
    requires OwedTallied(requests, owed, user) && id !in requests
    ensures OwedTallied(requests[id := r], Moved(user, r.user, owed, Owing(r)), user)
  {
    SumInsert(requests, OwingTo(user), id, r);
  }

  lemma TallyMove(requests: map<string, Request>, owed: Pools, id: string, r: Request, delta: Pools, user: int)
    requires OwedTallied(requests, owed, user) && id in requests && r.user == requests[id].user
    requires Owing(r) == Owing(requests[id]).Plus(delta)
    ensures OwedTallied(requests[id := r], Moved(user, r.user, owed, delta), user)
  {
    SumUpdate(requests, OwingTo(user), id, r, if user == r.user then delta else ZERO);
  }

  lemma BumpedAt(histories: map<int, Pools>, mover: int, delta: Pools, user: int)
    requires user in histories
    ensures user in Bumped(histories, mover, delta)
    ensures Bumped(histories, mover, delta)[user] == Moved(user, mover, histories[user], delta)
    ensures Moved(user, mover, histories[user], ZERO) == histories[user]
  {
  }

  /** What the script gives back is what the request stops owing: the refund/split duality at work. */
  lemma GivenIsReleased(recorded: int, actual: int, hold: Pools)
    requires hold.NonNegative() && (recorded == hold.Total() || hold == ZERO) && 0 <= actual
    ensures Split(actual, hold) == hold.Plus(ZERO.Minus(Given(recorded, actual, hold)))
  {
    TakeAway(hold, Given(recorded, actual, hold));
    if recorded <= actual {
      SplitAll(actual, hold);
    } else if hold == ZERO {
      NothingHeld(actual);
      NothingHeld(recorded - actual);
    } else {
      RefundSplitDuality(actual, hold);
    }
  }

  lemma TakeAway(hold: Pools, given: Pools)
    ensures hold.Plus(ZERO.Minus(given)) == hold.Minus(given) && hold.Minus(ZERO) == hold
  {
  }

  lemma SettleTallies(s: State, id: string, actual: int, policy: Policy, user: int)
    requires Shape(s) && Tallied(s, user)
    ensures Tallied(SettleStep(s, id, actual, policy), user)
  {
    var s' := SettleStep(s, id, actual, policy);
    if s' != s {
      var r := s.requests[id];
      assert SoundRequest(s.books.users, id, r);
      GivenIsReleased(r.recorded, actual, r.hold);
      var delta := ZERO.Minus(Given(r.recorded, actual, r.hold));
      TallyMove(s.requests, s.owed[user], id, s'.requests[id], delta, user);
      BumpedAt(s.owed, r.user, delta, user);
    }
  }

  lemma PostedTallies(requests: map<string, Request>, owed: map<int, Pools>, id: string, shares: Pools, user: int)
    requires user in owed && OwedTallied(requests, owed[user], user)
    requires id in requests && Owing(requests[id]) == shares
    ensures OwedTallied(requests[id := requests[id].(phase := Posted)],
        Bumped(owed, requests[id].user, ZERO.Minus(shares))[user], user)
  {
    TallyMove(requests, owed[user], id, requests[id].(phase := Posted), ZERO.Minus(shares), user);
    BumpedAt(owed, requests[id].user, ZERO.Minus(shares), user);
  }

  lemma DeliverTallies(s: State, m: Message, acknowledged: bool, user: int)
    requires Shape(s) && Traced(s) && Tallied(s, user)
    ensures Tallied(DeliverStep(s, m, acknowledged), user)
  {
    if m in s.queue {
      assert Genuine(s.requests, m) && SoundRequest(s.books.users, m.id, s.requests[m.id]);
      assert Billed(s.books.billingLogs, m.id) <==> PostedIn(s.requests, m.id);
      if Billed(s.books.billingLogs, m.id) {
        assert s.requests[m.id := s.requests[m.id].(phase := Posted)] == s.requests;
      } else {
        assert Owing(s.requests[m.id]) == Shares(m);
        PostedTallies(s.requests, s.owed, m.id, Shares(m), user);
      }
    }
  }

  lemma SendTallies(s: State, id: string, queueUp: bool, user: int)
    requires Tallied(s, user)
    ensures Tallied(SendStep(s, id, queueUp), user)
  {
    var s' := SendStep(s, id, queueUp);
    if s' != s {
      TallyMove(s.requests, s.owed[user], id, s'.requests[id], ZERO, user);
      BumpedAt(s.owed, s.requests[id].user, ZERO, user);
    }
  }

  lemma HoldTallies(s: State, id: string, holder: int, cost: int, policy: Policy, lastTry: bool, user: int)
    requires Tallied(s, user)
    ensures Tallied(HoldStep(s, id, holder, cost, policy, lastTry), user)
  {
    var s' := HoldStep(s, id, holder, cost, policy, lastTry);
    if s' != s {
      var r := s'.requests[id];
      TallyInsert(s.requests, s.owed[user], id, r, user);
      BumpedAt(s.owed, holder, Owing(r), user);
    }
  }

  lemma CreditInsert(uncached: map<EventId, Credit>, crediting: Pools, event: EventId, c: Credit, user: int)
    requires CreditsTallied(uncached, crediting, user) && event !in uncached
    ensures CreditsTallied(uncached[event := c], Moved(user, c.user, crediting, Single(c.pool, c.delta)), user)
  {
    SumInsert(uncached, CreditTo(user), event, c);
  }

  lemma CreditRemove(uncached: map<EventId, Credit>, crediting: Pools, event: EventId, user: int)
    requires CreditsTallied(uncached, crediting, user) && event in uncached
    ensures var c := uncached[event];
            CreditsTallied(uncached - {event}, Moved(user, c.user, crediting, ZERO.Minus(Single(c.pool, c.delta))),
                user)
  {
    var c := uncached[event];
    SumRemove(uncached, CreditTo(user), event, if user == c.user then ZERO.Minus(Single(c.pool, c.delta)) else ZERO);
  }

  lemma CommitTallies(s: State, req: TransactionRequest, user: int)
    requires Shape(s) && Tallied(s, user)
    ensures Tallied(CommitStep(s, req), user)
  {
    if TransactStatus(s.books, req) == Done {
      var c := CommitStep(s, req).uncached[req.event];
      assert req.event !in s.uncached;
      CreditInsert(s.uncached, s.crediting[user], req.event, c, user);
      BumpedAt(s.crediting, req.user, Single(c.pool, c.delta), user);
    }
  }

  lemma CacheCreditTallies(s: State, event: EventId, user: int)
    requires Tallied(s, user)
    ensures Tallied(CacheCreditStep(s, event), user)
  {
    if event in s.uncached {
      var c := s.uncached[event];
      CreditRemove(s.uncached, s.crediting[user], event, user);
      BumpedAt(s.crediting, c.user, ZERO.Minus(Single(c.pool, c.delta)), user);
    }
  }

  lemma RequestStepTallies(s: State, step: Step, user: int)
    requires Shape(s) && Traced(s) && Tallied(s, user)
    requires step.Hold? || step.Settle? || step.Refund? || step.Send? || step.Deliver?
    ensures Tallied(Next(s, step), user)
  {
    match step
    case Hold(id, holder, cost, policy, lastTry) => HoldTallies(s, id, holder, cost, policy, lastTry, user);
    case Settle(id, actual, policy) => SettleTallies(s, id, actual, policy, user);
    case Refund(id) => SettleTallies(s, id, 0, AllPools, user);
    case Send(id, queueUp) => SendTallies(s, id, queueUp, user);
    case Deliver(m, acknowledged) => DeliverTallies(s, m, acknowledged, user);
  }

  lemma OtherStepTallies(s: State, step: Step, user: int)
    requires Shape(s) && Tallied(s, user)
    requires !step.Hold? && !step.Settle? && !step.Refund? && !step.Send? && !step.Deliver?
    ensures Tallied(Next(s, step), user)
  {
    match step
    case Commit(req) => CommitTallies(s, req, user);
    case CacheCredit(event) => CacheCreditTallies(s, event, user);
    case _ =>
  }

  lemma StepTallies(s: State, step: Step, user: int)
    requires Shape(s) && Traced(s) && Tallied(s, user)
    ensures Tallied(Next(s, step), user)
  {
    if step.Hold? || step.Settle? || step.Refund? || step.Send? || step.Deliver? {
      RequestStepTallies(s, step, user);
    } else {
      OtherStepTallies(s, step, user);
    }
  }

  lemma {:induction false} RunTallies(s: State, steps: seq<Step>, user: int)
    requires Shape(s) && Traced(s) && Tallied(s, user)
    ensures Tallied(Run(s, steps), user)
    decreases |steps|
  {
    if steps != [] {
      StepTallies(s, steps[0], user);
      StepKeepsTrace(s, steps[0]);
      RunTallies(Next(s, steps[0]), steps[1..], user);
    }
  }

  /** The ledger invariant: in every reachable state, for every user and every pool whose key is present,
      cache + owed + crediting == database + drift, where `owed` is what running requests hold plus the
      split shares of finalised requests not yet posted, and `crediting` the committed credits not yet
      cached. */
  lemma CacheMatchesLedger(start: State, steps: seq<Step>, user: int)
    requires Initial(start) && user in start.books.users
    ensures AgreesFor(Run(start, steps), user)
    ensures Tallied(Run(start, steps), user)
  {
    InitialIsSound(start);
    InitialIsTallied(start, user);
    RunTallies(start, steps, user);
    RunReconciles(start, steps);
  }

  lemma InitialIsSound(start: State)
    requires Initial(start)
    ensures Shape(start) && Traced(start) && Reconciled(start)
  {
    forall user | user in start.books.users ensures AgreesFor(start, user) {
      assert user in start.cache && user in start.owed && user in start.crediting && user in start.drift;
    }
  }

  lemma InitialIsTallied(start: State, user: int)
    requires Initial(start) && user in start.books.users
    ensures Tallied(start, user)
  {
    assert user in start.owed && user in start.crediting && start.owed[user] == start.crediting[user] == ZERO;
    NothingOwed(start.requests, user);
    NothingCredited(start.uncached, user);
  }

  lemma NothingOwed(requests: map<string, Request>, user: int)
    requires forall id :: id in requests && requests[id].user == user ==> Owing(requests[id]) == ZERO
    ensures OwedTallied(requests, ZERO, user)
  {
    SumOfZeros(requests, OwingTo(user));
  }

  lemma NothingCredited(uncached: map<EventId, Credit>, user: int)
    requires forall e :: e in uncached ==> uncached[e].user != user
    ensures CreditsTallied(uncached, ZERO, user)
  {
    SumOfZeros(uncached, CreditTo(user));
  }
}
