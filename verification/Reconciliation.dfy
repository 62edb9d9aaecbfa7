/**
 The cache against the database, pool by pool, in every reachable state: a present key plus everything
 outstanding equals the database balance plus the drift. Drift moves only at four events: a load makes
 it the outstanding total, an under-charge lowers it by what was collected, a refund that creates a
 missing key sets it, and a subscription change moves it until the keys are dropped.
 */
module Reconciliation {
  import opened Prelude
  import opened Money
  import opened CacheScripts
  import opened Books
  import opened Settlement
  import opened Ledger
  import opened LedgerDelivery

  predicate KeyAgrees(key: Option<int>, outstanding: int, db: int, drift: int) {
    key.Some? ==> key.value + outstanding == db + drift
  }

  predicate Agrees(keys: Keys, outstanding: Pools, db: Pools, drift: Pools) {
    && KeyAgrees(keys.sub, outstanding.sub, db.sub, drift.sub)
    && KeyAgrees(keys.grant, outstanding.grant, db.grant, drift.grant)
    && KeyAgrees(keys.cash, outstanding.cash, db.cash, drift.cash)
  }

  predicate AgreesFor(s: State, user: int) {
    Known(s, user) && Agrees(s.cache[user], Outstanding(s, user), s.books.users[user].balance, s.drift[user])
  }

  ghost predicate Reconciled(s: State) {
    forall user :: user in s.books.users ==> AgreesFor(s, user)
  }

  // The effect of each kind of move on one user's agreement.

  lemma HoldAgrees(keys: Keys, outstanding: Pools, db: Pools, drift: Pools, taken: Pools)
    requires Agrees(keys, outstanding, db, drift) && keys.Complete()
    ensures Agrees(Shift(keys, ZERO.Minus(taken)), outstanding.Plus(taken), db, drift)
  {
  }

  lemma ReturnAgrees(keys: Keys, outstanding: Pools, db: Pools, drift: Pools, given: Pools)
    requires Agrees(keys, outstanding, db, drift)
    ensures Agrees(Shift(keys, given), outstanding.Minus(given), db,
        DriftAfterRefund(keys, given, outstanding, db, drift))
  {
  }

  lemma CreditAgrees(keys: Keys, outstanding: Pools, db: Pools, drift: Pools, pool: Pool, delta: int)
    requires Agrees(keys, outstanding, db, drift)
    ensures Agrees(AfterCredit(keys, pool, delta), outstanding.Minus(Single(pool, delta)), db, drift)
  {
  }

  lemma NothingMoves(keys: Keys, outstanding: Pools, db: Pools, drift: Pools)
    ensures outstanding.Plus(ZERO.Minus(ZERO)) == outstanding && drift.Minus(ZERO) == drift
    ensures DriftAfterRefund(keys, ZERO, outstanding, db, drift) == drift
  {
  }

  /** What remains to show of a settlement, with its three amounts named. */
  predicate SettledAgrees(keys: Keys, outstanding: Pools, db: Pools, drift: Pools, after: Keys, given: Pools,
                          taken: Pools) {
    Agrees(after, outstanding.Plus(ZERO.Minus(given)), db,
           DriftAfterRefund(keys, given, outstanding, db, drift).Minus(taken))
  }

  lemma GiveBranch(keys: Keys, outstanding: Pools, db: Pools, drift: Pools, after: Keys, given: Pools)
    requires Agrees(keys, outstanding, db, drift) && after == Shift(keys, given)
    ensures SettledAgrees(keys, outstanding, db, drift, after, given, ZERO)
  {
    ReturnAgrees(keys, outstanding, db, drift, given);
  }

  /** Nothing is taken from an absent key. */
  predicate OnPresent(keys: Keys, taken: Pools) {
    (taken.sub != 0 ==> keys.sub.Some?) && (taken.grant != 0 ==> keys.grant.Some?)
        && (taken.cash != 0 ==> keys.cash.Some?)
  }

  lemma UnderChargeOnPresent(keys: Keys, amount: int, policy: Policy)
    ensures OnPresent(keys, UnderCharge(keys, amount, policy))
  {
  }

  lemma TakeBranch(keys: Keys, outstanding: Pools, db: Pools, drift: Pools, after: Keys, taken: Pools)
    requires Agrees(keys, outstanding, db, drift) && OnPresent(keys, taken) && after == Shift(keys, ZERO.Minus(taken))
    ensures SettledAgrees(keys, outstanding, db, drift, after, ZERO, taken)
  {
    NothingMoves(keys, outstanding, db, drift);
  }

  lemma SettledCases(keys: Keys, m: Message, policy: Policy)
    ensures m.actual < m.recorded ==>
      && SettledKeys(keys, m, policy) == Shift(keys, Given(m.recorded, m.actual, m.hold))
      && Collected(keys, m.recorded, m.actual, policy) == ZERO
    ensures m.recorded <= m.actual ==>
      && SettledKeys(keys, m, policy) == Shift(keys, ZERO.Minus(Collected(keys, m.recorded, m.actual, policy)))
      && Given(m.recorded, m.actual, m.hold) == ZERO
  {
  }

  lemma CollectedOnPresent(keys: Keys, m: Message, policy: Policy)
    ensures OnPresent(keys, Collected(keys, m.recorded, m.actual, policy))
  {
    UnderChargeOnPresent(keys, m.actual - m.recorded, policy);
  }

  /** Settle's script, whichever way the difference goes. */
  lemma SettleAgrees(keys: Keys, outstanding: Pools, db: Pools, drift: Pools, m: Message, policy: Policy)
    requires Agrees(keys, outstanding, db, drift)
    ensures SettledAgrees(keys, outstanding, db, drift, SettledKeys(keys, m, policy),
                          Given(m.recorded, m.actual, m.hold), Collected(keys, m.recorded, m.actual, policy))
  {
    var after, given, taken := SettledKeys(keys, m, policy), Given(m.recorded, m.actual, m.hold),
        Collected(keys, m.recorded, m.actual, policy);
    SettledCases(keys, m, policy);
    if m.actual < m.recorded {
      GiveBranch(keys, outstanding, db, drift, after, given);
    } else {
      CollectedOnPresent(keys, m, policy);
      TakeBranch(keys, outstanding, db, drift, after, taken);
    }
  }

  // Every step keeps every user reconciled.

  lemma HoldReconciles(s: State, id: string, holder: int, cost: int, policy: Policy, lastTry: bool, user: int)
    requires AgreesFor(s, user)
    ensures AgreesFor(HoldStep(s, id, holder, cost, policy, lastTry), user)
  {
    var s' := HoldStep(s, id, holder, cost, policy, lastTry);
    if s' != s && user == holder && PreDeductAnswer(s.cache[user], cost, policy).Taken? {
      var taken := s'.requests[id].hold;
      HoldAgrees(s.cache[user], Outstanding(s, user), s.books.users[user].balance, s.drift[user], taken);
      assert Outstanding(s', user) == Outstanding(s, user).Plus(taken);
    }
  }

  lemma SettleReconciles(s: State, id: string, actual: int, policy: Policy, user: int)
    requires AgreesFor(s, user)
    ensures AgreesFor(SettleStep(s, id, actual, policy), user)
  {
    var s' := SettleStep(s, id, actual, policy);
    if s' != s && user == s.requests[id].user {
      var m := Payload(id, s'.requests[id]);
      var given := Given(m.recorded, m.actual, m.hold);
      SettleAgrees(s.cache[user], Outstanding(s, user), s.books.users[user].balance, s.drift[user], m, policy);
      assert Outstanding(s', user) == Outstanding(s, user).Plus(ZERO.Minus(given));
    }
  }

  lemma CacheCreditReconciles(s: State, event: EventId, user: int)
    requires AgreesFor(s, user)
    ensures AgreesFor(CacheCreditStep(s, event), user)
  {
    var s' := CacheCreditStep(s, event);
    if s' != s && user == s.uncached[event].user {
      var c := s.uncached[event];
      CreditAgrees(s.cache[user], Outstanding(s, user), s.books.users[user].balance, s.drift[user], c.pool, c.delta);
      assert Outstanding(s', user) == Outstanding(s, user).Minus(Single(c.pool, c.delta));
    }
  }

  lemma ChargeReconciles(s: State, s': State, m: Message, shares: Pools, user: int)
    requires AgreesFor(s, user) && m.user in s.books.users
    requires s'.books == Charged(s.books, m, shares) && s'.owed == Bumped(s.owed, m.user, ZERO.Minus(shares))
    requires s'.cache == s.cache && s'.crediting == s.crediting && s'.drift == s.drift
    ensures AgreesFor(s', user)
  {
    if user == m.user {
      assert s'.books.users[user].balance == s.books.users[user].balance.Plus(ZERO.Minus(shares));
      assert Outstanding(s', user) == Outstanding(s, user).Plus(ZERO.Minus(shares));
    }
  }

  /** A step that touches none of what a user's agreement speaks of. */
  lemma SameMoney(s: State, s': State, user: int)
    requires AgreesFor(s, user) && s'.books == s.books && s'.cache == s.cache
    requires s'.owed == s.owed && s'.crediting == s.crediting && s'.drift == s.drift
    ensures AgreesFor(s', user)
  {
  }

  lemma DeliverReconciles(s: State, m: Message, acknowledged: bool, user: int)
    requires Shape(s) && Traced(s) && AgreesFor(s, user)
    ensures AgreesFor(DeliverStep(s, m, acknowledged), user)
  {
    var s' := DeliverStep(s, m, acknowledged);
    if m in s.queue {
      assert Genuine(s.requests, m) && SoundRequest(s.books.users, m.id, s.requests[m.id]);
      if Billed(s.books.billingLogs, m.id) {
        SameMoney(s, s', user);
      } else {
        ChargeReconciles(s, s', m, Shares(m), user);
      }
    }
  }

  lemma CommitReconciles(s: State, req: TransactionRequest, user: int)
    requires AgreesFor(s, user)
    ensures AgreesFor(CommitStep(s, req), user)
  {
    var s' := CommitStep(s, req);
    if TransactStatus(s.books, req) == Done && user == req.user {
      var moved := Single(PoolNamed(req.balanceType), SignedAmount(req));
      assert Outstanding(s', user) == Outstanding(s, user).Plus(moved);
      assert s'.books.users[user].balance == s.books.users[user].balance.Plus(moved);
    }
  }

  lemma ChangeReconciles(s: State, a: SubscriptionApply, seen: Reading, user: int)
    requires AgreesFor(s, user)
    ensures AgreesFor(ChangeStep(s, a, seen), user)
  {
  }

  lemma LoadReconciles(s: State, loaded: int, user: int)
    requires AgreesFor(s, user)
    ensures AgreesFor(LoadStep(s, loaded), user)
  {
  }

  lemma DropReconciles(s: State, dropped: int, user: int)
    requires AgreesFor(s, user)
    ensures AgreesFor(DropStep(s, dropped), user)
  {
  }

  lemma SendReconciles(s: State, id: string, queueUp: bool, user: int)
    requires AgreesFor(s, user)
    ensures AgreesFor(SendStep(s, id, queueUp), user)
  {
    SameMoney(s, SendStep(s, id, queueUp), user);
  }

  lemma RedeliverReconciles(s: State, m: Message, user: int)
    requires AgreesFor(s, user)
    ensures AgreesFor(RedeliverStep(s, m), user)
  {
    SameMoney(s, RedeliverStep(s, m), user);
  }

  lemma RelayEnqueueReconciles(s: State, row: nat, user: int)
    requires AgreesFor(s, user)
    ensures AgreesFor(RelayEnqueueStep(s, row), user)
  {
    SameMoney(s, RelayEnqueueStep(s, row), user);
  }

  lemma RelayMarkReconciles(s: State, row: nat, user: int)
    requires AgreesFor(s, user)
    ensures AgreesFor(RelayMarkStep(s, row), user)
  {
    SameMoney(s, RelayMarkStep(s, row), user);
  }

  lemma QueueStepAgrees(s: State, step: Step, user: int)
    requires Shape(s) && Traced(s) && AgreesFor(s, user)
    requires step.Send? || step.Deliver?
    ensures AgreesFor(Next(s, step), user)
  {
    if step.Send? {
      SendReconciles(s, step.sent, step.queueUp, user);
    } else {
      DeliverReconciles(s, step.m, step.acknowledged, user);
    }
  }

  lemma RelayStepAgrees(s: State, step: Step, user: int)
    requires AgreesFor(s, user)
    requires step.Redeliver? || step.RelayEnqueue? || step.RelayMark?
    ensures AgreesFor(Next(s, step), user)
  {
    match step
    case Redeliver(m) => RedeliverReconciles(s, m, user);
    case RelayEnqueue(row) => RelayEnqueueReconciles(s, row, user);
    case RelayMark(row) => RelayMarkReconciles(s, row, user);
  }

  lemma CacheStepAgrees(s: State, step: Step, user: int)
    requires AgreesFor(s, user)
    requires step.Load? || step.Drop? || step.Hold? || step.Settle? || step.Refund? || step.CacheCredit?
    ensures AgreesFor(Next(s, step), user)
  {
    match step
    case Hold(id, holder, cost, policy, lastTry) => HoldReconciles(s, id, holder, cost, policy, lastTry, user);
    case Settle(id, actual, policy) => SettleReconciles(s, id, actual, policy, user);
    case Refund(id) => SettleReconciles(s, id, 0, AllPools, user);
    case CacheCredit(event) => CacheCreditReconciles(s, event, user);
    case Load(loaded) => LoadReconciles(s, loaded, user);
    case Drop(dropped) => DropReconciles(s, dropped, user);
  }

  lemma StepAgrees(s: State, step: Step, user: int)
    requires Shape(s) && Traced(s) && AgreesFor(s, user)
    ensures AgreesFor(Next(s, step), user)
  {
    match step
    case Commit(req) => CommitReconciles(s, req, user);
    case ChangeSubscription(a, seen) => ChangeReconciles(s, a, seen, user);
    case Send(_, _) => QueueStepAgrees(s, step, user);
    case Redeliver(_) => RelayStepAgrees(s, step, user);
    case Deliver(_, _) => QueueStepAgrees(s, step, user);
    case RelayEnqueue(_) => RelayStepAgrees(s, step, user);
    case RelayMark(_) => RelayStepAgrees(s, step, user);
    case _ => CacheStepAgrees(s, step, user);
  }

  lemma StepReconciles(s: State, step: Step)
    requires Shape(s) && Traced(s) && Reconciled(s)
    ensures Shape(Next(s, step)) && Traced(Next(s, step)) && Reconciled(Next(s, step))
  {
    StepKeepsTrace(s, step);
    var s' := Next(s, step);
    UsersStay(s, step);
    forall user | user in s'.books.users ensures AgreesFor(s', user) {
      StepAgrees(s, step, user);
    }
  }

  lemma UsersStay(s: State, step: Step)
    ensures Next(s, step).books.users.Keys == s.books.users.Keys
  {
    StepEntersBooks(s, step);
    if EntryOf(s, step) != [] {
      OneEntry(s.books, EntryOf(s, step));
      UsersEnter(s.books, EntryOf(s, step)[0]);
    }
  }

  lemma UsersEnter(b: Books, e: Entry)
    ensures Enter(b, e).users.Keys == b.users.Keys
  {
  }

  lemma {:induction false} RunReconciles(s: State, steps: seq<Step>)
    requires Shape(s) && Traced(s) && Reconciled(s)
    ensures Shape(Run(s, steps)) && Traced(Run(s, steps)) && Reconciled(Run(s, steps))
    ensures Run(s, steps).books.users.Keys == s.books.users.Keys
    decreases |steps|
  {
    if steps != [] {
      StepReconciles(s, steps[0]);
      UsersStay(s, steps[0]);
      RunReconciles(Next(s, steps[0]), steps[1..]);
    }
  }
}
