/**
 What follows from the ledger invariant for a cache that was loaded, and for one that holds and refunds
 alone have touched: exactly when it equals the database, and by how much it is off otherwise.
 */
module LedgerConsequences {
  import opened Money
  import opened Sums
  import opened CacheScripts
  import opened Books
  import opened Settlement
  import opened Ledger
  import opened LedgerDelivery
  import opened Reconciliation
  import opened LedgerInvariant

  // When the cache is exact.

  /** Nothing of this user is running, unposted or uncached. */
  ghost predicate Settled(s: State, user: int) {
    && (forall id :: id in s.requests && s.requests[id].user == user ==> Owing(s.requests[id]) == ZERO)
    && (forall e :: e in s.uncached ==> s.uncached[e].user != user)
  }

  lemma SettledOwesNothing(s: State, user: int)
    requires Settled(s, user) && Tallied(s, user)
    ensures s.owed[user] == ZERO && s.crediting[user] == ZERO
  {
    NothingOwed(s.requests, user);
    NothingCredited(s.uncached, user);
  }

  /** A step that can move a user's drift, in the state it happens in. */
  predicate Drifts(s: State, step: Step, user: int) {
    match step
    case Load(loaded) => loaded == user
    case Settle(id, actual, _) => SettleDrifts(s, id, actual, user)
    case Refund(id) => SettleDrifts(s, id, 0, user)
    case ChangeSubscription(a, _) => a.user == user
    case _ => false
  }

  /** An under-charge, or a refund onto a missing key. */
  predicate SettleDrifts(s: State, id: string, actual: int, user: int) {
    && id in s.requests && s.requests[id].user == user && Known(s, user)
    && (s.requests[id].recorded < actual || !s.cache[user].Complete())
  }

  predicate SameDrift(s: State, s': State, user: int) {
    Known(s, user) ==> Known(s', user) && s'.drift[user] == s.drift[user]
  }

  lemma HoldKeepsDrift(s: State, id: string, holder: int, cost: int, policy: Policy, lastTry: bool, user: int)
    ensures SameDrift(s, HoldStep(s, id, holder, cost, policy, lastTry), user)
  {
  }

  lemma DeliverKeepsDrift(s: State, m: Message, acknowledged: bool, user: int)
    ensures SameDrift(s, DeliverStep(s, m, acknowledged), user)
  {
  }

  lemma CommitKeepsDrift(s: State, req: TransactionRequest, user: int)
    ensures SameDrift(s, CommitStep(s, req), user)
  {
  }

  lemma CacheCreditKeepsDrift(s: State, event: EventId, user: int)
    ensures SameDrift(s, CacheCreditStep(s, event), user)
  {
  }

  lemma SendKeepsDrift(s: State, id: string, queueUp: bool, user: int)
    ensures SameDrift(s, SendStep(s, id, queueUp), user)
  {
  }

  lemma DriftStays(s: State, step: Step, user: int)
    requires Known(s, user) && !Drifts(s, step, user)
    ensures SameDrift(s, Next(s, step), user)
  {
    match step
    case Settle(id, actual, policy) => SettleKeepsDrift(s, id, actual, policy, user);
    case Refund(id) => SettleKeepsDrift(s, id, 0, AllPools, user);
    case Hold(id, holder, cost, policy, lastTry) => HoldKeepsDrift(s, id, holder, cost, policy, lastTry, user);
    case Deliver(m, acknowledged) => DeliverKeepsDrift(s, m, acknowledged, user);
    case Commit(req) => CommitKeepsDrift(s, req, user);
    case CacheCredit(event) => CacheCreditKeepsDrift(s, event, user);
    case Send(id, queueUp) => SendKeepsDrift(s, id, queueUp, user);
    case _ =>
  }

  lemma SettleKeepsDrift(s: State, id: string, actual: int, policy: Policy, user: int)
    requires Known(s, user) && !SettleDrifts(s, id, actual, user)
    ensures Known(SettleStep(s, id, actual, policy), user)
        && SettleStep(s, id, actual, policy).drift[user] == s.drift[user]
  {
  }

  predicate NoDrift(s: State, steps: seq<Step>, user: int)
    decreases |steps|
  {
    steps == [] || (!Drifts(s, steps[0], user) && NoDrift(Next(s, steps[0]), steps[1..], user))
  }

  lemma {:induction false} NoDriftRun(s: State, steps: seq<Step>, user: int)
    requires Known(s, user) && NoDrift(s, steps, user)
    ensures Known(Run(s, steps), user) && Run(s, steps).drift[user] == s.drift[user]
    decreases |steps|
  {
    if steps != [] {
      DriftStays(s, steps[0], user);
      NoDriftRun(Next(s, steps[0]), steps[1..], user);
    }
  }

  lemma {:induction false} RunAppend(s: State, first: seq<Step>, second: seq<Step>)
    ensures Run(s, first + second) == Run(Run(s, first), second)
    decreases |first|
  {
    if first == [] {
      assert first + second == second;
    } else {
      assert (first + second)[1..] == first[1..] + second;
      RunAppend(Next(s, first[0]), first[1..], second);
    }
  }

  lemma LoadedDrift(s: State, user: int)
    requires Known(s, user)
    ensures var t := LoadStep(s, user); Known(t, user) && t.drift[user] == Outstanding(s, user)
  {
  }

  predicate OffBy(keys: Keys, db: Pools, excess: Pools) {
    forall pool :: keys.Get(pool).Some? ==> keys.Get(pool).value == db.Get(pool) + excess.Get(pool)
  }

  lemma AgreementIsOffset(keys: Keys, outstanding: Pools, db: Pools, drift: Pools)
    requires Agrees(keys, outstanding, db, drift)
    ensures OffBy(keys, db, drift.Minus(outstanding))
  {
    forall pool | keys.Get(pool).Some?
      ensures keys.Get(pool).value == db.Get(pool) + drift.Minus(outstanding).Get(pool)
    {
      match pool
      case Sub =>
      case Grant =>
      case Cash =>
    }
  }

  lemma LoadedRun(start: State, before: seq<Step>, after: seq<Step>, user: int)
    requires Initial(start) && user in start.books.users
    ensures var mid := Run(start, before);
      && Known(mid, user)
      && Run(start, before + [Load(user)] + after) == Run(LoadStep(mid, user), after)
  {
    var mid := Run(start, before);
    assert Run(mid, [Load(user)]) == Run(Next(mid, Load(user)), []);
    RunAppend(start, before, [Load(user)]);
    RunAppend(start, before + [Load(user)], after);
    CacheMatchesLedger(start, before, user);
  }

  /** The later cache exceeds the later database by what was outstanding at the load less what is now. */
  ghost predicate OffSinceLoad(mid: State, s: State, user: int) {
    && Known(mid, user) && Tallied(mid, user) && Known(s, user) && Tallied(s, user)
    && OffBy(s.cache[user], s.books.users[user].balance, Outstanding(mid, user).Minus(Outstanding(s, user)))
  }

  /** A cache after a load, in any run in which nothing moves the drift since: every present pool exceeds
      the database by what was outstanding in it at the load less what is outstanding now. */
  lemma CacheAfterLoad(start: State, before: seq<Step>, after: seq<Step>, user: int)
    requires Initial(start) && user in start.books.users
    requires NoDrift(LoadStep(Run(start, before), user), after, user)
    ensures OffSinceLoad(Run(start, before), Run(start, before + [Load(user)] + after), user)
  {
    var mid, s := Run(start, before), Run(start, before + [Load(user)] + after);
    LoadedRun(start, before, after, user);
    LoadedDrift(mid, user);
    NoDriftRun(LoadStep(mid, user), after, user);
    CacheMatchesLedger(start, before, user);
    CacheMatchesLedger(start, before + [Load(user)] + after, user);
    AgreementIsOffset(s.cache[user], Outstanding(s, user), s.books.users[user].balance, s.drift[user]);
  }

  lemma OffByNothing(keys: Keys, db: Pools, outstanding: Pools, settled: Pools)
    requires OffBy(keys, db, outstanding.Minus(settled)) && settled == ZERO
    ensures OffBy(keys, db, outstanding)
    ensures forall pool :: keys.Get(pool).Some? ==>
              (keys.Get(pool).value == db.Get(pool) <==> outstanding.Get(pool) == 0)
  {
    assert outstanding.Minus(settled) == outstanding;
  }

  /** The later cache exceeds the later database by what was outstanding at the load, and so equals it, pool
      by pool, if and only if the outstanding amounts in that pool added up to nothing. */
  ghost predicate OffByLoad(mid: State, s: State, user: int) {
    && Known(mid, user) && Tallied(mid, user) && Known(s, user)
    && var keys, db, outstanding := s.cache[user], s.books.users[user].balance, Outstanding(mid, user);
       && OffBy(keys, db, outstanding)
       && forall pool :: keys.Get(pool).Some? ==>
            (keys.Get(pool).value == db.Get(pool) <==> outstanding.Get(pool) == 0)
  }

  lemma SettledSinceLoad(mid: State, s: State, user: int)
    requires OffSinceLoad(mid, s, user) && Settled(s, user)
    ensures OffByLoad(mid, s, user)
  {
    SettledOwesNothing(s, user);
    OffByNothing(s.cache[user], s.books.users[user].balance, Outstanding(mid, user), Outstanding(s, user));
  }

  /** Once the user is settled again, a present pool exceeds the database by exactly what was outstanding in
      it at the load. */
  lemma SettledCacheEqualsDatabase(start: State, before: seq<Step>, after: seq<Step>, user: int)
    requires Initial(start) && user in start.books.users
    requires NoDrift(LoadStep(Run(start, before), user), after, user)
    requires Settled(Run(start, before + [Load(user)] + after), user)
    ensures OffByLoad(Run(start, before), Run(start, before + [Load(user)] + after), user)
  {
    CacheAfterLoad(start, before, after, user);
    SettledSinceLoad(Run(start, before), Run(start, before + [Load(user)] + after), user);
  }

  /** No debit of this pool has been committed without being cached. */
  ghost predicate CreditsOnly(s: State, user: int, pool: Pool) {
    forall e :: e in s.uncached && s.uncached[e].user == user && s.uncached[e].pool == pool ==> 0 < s.uncached[e].delta
  }

  /** No hold, no unposted share and no uncached credit in this pool. */
  ghost predicate NothingWaits(s: State, user: int, pool: Pool) {
    && (forall id :: id in s.requests && s.requests[id].user == user ==> Owing(s.requests[id]).Get(pool) == 0)
    && (forall e :: e in s.uncached && s.uncached[e].user == user ==> s.uncached[e].pool != pool)
  }

  lemma OwingNonNegative(users: map<int, User>, id: string, r: Request, user: int, pool: Pool)
    requires SoundRequest(users, id, r)
    ensures 0 <= OwingTo(user)(r).Get(pool)
  {
    GreedyWithin(r.hold, r.actual, AllPools);
  }

  lemma OwedNothing(s: State, user: int, pool: Pool)
    requires Shape(s) && Tallied(s, user)
    ensures 0 <= s.owed[user].Get(pool)
    ensures s.owed[user].Get(pool) == 0
       <==> forall id :: id in s.requests && s.requests[id].user == user ==> Owing(s.requests[id]).Get(pool) == 0
  {
    forall id | id in s.requests ensures 0 <= OwingTo(user)(s.requests[id]).Get(pool) {
      OwingNonNegative(s.books.users, id, s.requests[id], user, pool);
    }
    SumOfNonNegative(s.requests, OwingTo(user), pool);
    assert forall id :: id in s.requests ==>
        OwingTo(user)(s.requests[id]).Get(pool)
        == if s.requests[id].user == user then Owing(s.requests[id]).Get(pool) else 0;
  }

  lemma CreditedNothing(s: State, user: int, pool: Pool)
    requires Tallied(s, user) && CreditsOnly(s, user, pool)
    ensures 0 <= s.crediting[user].Get(pool)
    ensures s.crediting[user].Get(pool) == 0
       <==> forall e :: e in s.uncached && s.uncached[e].user == user ==> s.uncached[e].pool != pool
  {
    assert forall e :: e in s.uncached ==>
        CreditTo(user)(s.uncached[e]).Get(pool)
        == if s.uncached[e].user == user && s.uncached[e].pool == pool then s.uncached[e].delta else 0;
    SumOfNonNegative(s.uncached, CreditTo(user), pool);
  }

  lemma NothingOutstanding(s: State, user: int, pool: Pool)
    requires Shape(s) && Tallied(s, user) && CreditsOnly(s, user, pool)
    ensures Outstanding(s, user).Get(pool) == 0 <==> NothingWaits(s, user, pool)
  {
    OwedNothing(s, user, pool);
    CreditedNothing(s, user, pool);
    AtPool(s.owed[user], s.crediting[user], pool);
  }

  /** Debits can cancel holds in that sum. Where none is waiting, a present pool of the settled user equals the
      database if and only if nothing at all was waiting in it at the load. */
  lemma SettledCacheEqualsDatabaseExactly(start: State, before: seq<Step>, after: seq<Step>, user: int, pool: Pool)
    requires Initial(start) && user in start.books.users
    requires NoDrift(LoadStep(Run(start, before), user), after, user)
    requires Settled(Run(start, before + [Load(user)] + after), user)
    requires CreditsOnly(Run(start, before), user, pool)
    ensures var mid, s := Run(start, before), Run(start, before + [Load(user)] + after);
      && user in s.cache && user in s.books.users
      && (s.cache[user].Get(pool).Some? ==>
            (s.cache[user].Get(pool).value == s.books.users[user].balance.Get(pool) <==> NothingWaits(mid, user, pool)))
  {
    var mid := Run(start, before);
    SettledCacheEqualsDatabase(start, before, after, user);
    InitialIsSound(start);
    RunKeepsTrace(start, before);
    NothingOutstanding(mid, user, pool);
  }

  /** How a debit cancels a hold: a hold and an uncached debit of the same amount leave nothing outstanding. */
  lemma DebitCancelsHold(s: State, req: TransactionRequest)
    requires TransactStatus(s.books, req) == Done && Known(s, req.user)
    requires req.direction == "debit" && s.crediting[req.user] == ZERO
    requires s.owed[req.user] == Single(PoolNamed(req.balanceType), req.amount)
    ensures var t := CommitStep(s, req); Known(t, req.user) && Outstanding(t, req.user) == ZERO
  {
    CommitOutstanding(s, req);
  }

  lemma CommitOutstanding(s: State, req: TransactionRequest)
    requires TransactStatus(s.books, req) == Done && Known(s, req.user)
    ensures var t := CommitStep(s, req);
      && Known(t, req.user)
      && Outstanding(t, req.user)
         == Outstanding(s, req.user).Plus(Single(PoolNamed(req.balanceType), SignedAmount(req)))
  {
  }

  /** A committed top-up waits for the cache as the change of the pool it names, with the sign of its direction. */
  lemma CommitCredits(s: State, req: TransactionRequest)
    requires TransactStatus(s.books, req) == Done
    ensures var t := CommitStep(s, req);
      && ToppedUp(s.books, t.books, req)
      && t.uncached == s.uncached[req.event := Credit(req.user, if req.balanceType == "grant" then Grant else Cash,
                                                      if req.direction == "credit" then req.amount else -req.amount)]
  {
    TransactByText(s.books, req);
  }

  lemma CommittedRun(start: State, before: seq<Step>, req: TransactionRequest)
    ensures Run(start, before + [Commit(req)]) == CommitStep(Run(start, before), req)
  {
    var s := Run(start, before);
    RunAppend(start, before, [Commit(req)]);
    assert Run(s, [Commit(req)]) == Run(Next(s, Commit(req)), []);
  }

  /** The later cache exceeds the later database by the credit, on top of what was outstanding before it. */
  ghost predicate CountsTwice(earlier: State, s: State, req: TransactionRequest) {
    && Known(earlier, req.user) && Known(s, req.user)
    && OffBy(s.cache[req.user], s.books.users[req.user].balance,
             Outstanding(earlier, req.user).Plus(Single(PoolNamed(req.balanceType), SignedAmount(req))))
  }

  lemma CreditAtLoad(earlier: State, s: State, req: TransactionRequest)
    requires TransactStatus(earlier.books, req) == Done && Known(earlier, req.user)
    requires OffByLoad(CommitStep(earlier, req), s, req.user)
    ensures CountsTwice(earlier, s, req)
  {
    CommitOutstanding(earlier, req);
  }

  /** A load that falls between a credit's commit and its cache script counts the credit twice: in every run
      that ends settled, its pool exceeds the database by exactly the credit, on top of what was outstanding
      before the commit. */
  lemma LoadInsideCreditCountsTwice(start: State, before: seq<Step>, req: TransactionRequest, after: seq<Step>)
    requires Initial(start) && req.user in start.books.users
    requires TransactStatus(Run(start, before).books, req) == Done
    requires NoDrift(LoadStep(Run(start, before + [Commit(req)]), req.user), after, req.user)
    requires Settled(Run(start, before + [Commit(req)] + [Load(req.user)] + after), req.user)
    ensures CountsTwice(Run(start, before), Run(start, before + [Commit(req)] + [Load(req.user)] + after), req)
  {
    CacheMatchesLedger(start, before, req.user);
    CommittedRun(start, before, req);
    SettledCacheEqualsDatabase(start, before + [Commit(req)], after, req.user);
    CreditAtLoad(Run(start, before), Run(start, before + [Commit(req)] + [Load(req.user)] + after), req);
  }

  // Holds and refunds.

  /** A refund of nothing is no step at all. */
  lemma NothingToRefund(s: State, id: string)
    requires id in s.requests && s.requests[id].recorded <= 0
    ensures RefundStep(s, id) == s
  {
  }

  /** Old requests are as they were; new ones of this user have been refunded or held nothing. */
  ghost predicate Returned(s: State, t: State, user: int) {
    && (forall id :: id in s.requests ==> id in t.requests && t.requests[id] == s.requests[id])
    && (forall id :: id in t.requests && id !in s.requests && t.requests[id].user == user ==>
          t.requests[id].phase.Unsent? || t.requests[id].hold == ZERO)
  }

  /** Requests new since s, made and finalised by holds and refunds alone. */
  ghost predicate FreshRequests(s: State, t: State) {
    forall id :: id in t.requests && id !in s.requests ==>
      var r := t.requests[id];
      r.actual == 0 && (r.phase.Open? || (r.phase.Unsent? && r.shares == Split(0, r.hold)))
  }

  lemma ReturnedOwesTheSame(s: State, t: State, user: int)
    requires Returned(s, t, user) && FreshRequests(s, t)
    ensures Sum(t.requests, OwingTo(user)) == Sum(s.requests, OwingTo(user))
  {
    forall id | id in t.requests && id !in s.requests ensures OwingTo(user)(t.requests[id]) == ZERO {
      NothingSplit(t.requests[id].hold);
    }
    SumExtends(s.requests, t.requests, OwingTo(user));
  }

  lemma NothingSplit(hold: Pools)
    ensures Split(0, hold) == ZERO
  {
  }

  /** What the cache has lost is what is held more, and it is whole again once all new holds are returned. */
  ghost predicate Restores(s: State, t: State, user: int) {
    && Known(s, user) && Known(t, user) && s.cache[user].Complete() && t.cache[user].Complete()
    && t.cache[user].OrZero().Plus(t.owed[user]) == s.cache[user].OrZero().Plus(s.owed[user])
    && (Returned(s, t, user) ==> t.cache[user] == s.cache[user])
  }

  lemma RestoresBetween(s: State, t: State, user: int)
    requires AgreesFor(s, user) && Tallied(s, user) && s.cache[user].Complete()
    requires AgreesFor(t, user) && Tallied(t, user) && t.cache[user].Complete()
    requires t.books == s.books && t.drift[user] == s.drift[user] && t.crediting[user] == s.crediting[user]
    requires FreshRequests(s, t)
    ensures Restores(s, t, user)
  {
    SameSide(s.cache[user], t.cache[user], s.owed[user], t.owed[user], s.crediting[user],
             s.books.users[user].balance, s.drift[user]);
    if Returned(s, t, user) {
      ReturnedOwesTheSame(s, t, user);
      SameKeys(s.cache[user], t.cache[user], s.owed[user]);
    }
  }

  /** Holds and refunds alone, of any users in any interleaving, from a reconciled state where this user's
      keys are complete: what the cache has lost is exactly what is held more than before, and once every
      new hold has been refunded every pool is back where it was. */
  lemma RefundsRestore(start: State, before: seq<Step>, after: seq<Step>, user: int)
    requires Initial(start) && user in start.books.users
    requires user in Run(start, before).cache && Run(start, before).cache[user].Complete()
    requires forall i :: 0 <= i < |after| ==> after[i].Hold? || after[i].Refund?
    ensures Restores(Run(start, before), Run(start, before + after), user)
  {
    var s := Run(start, before);
    CacheMatchesLedger(start, before, user);
    HoldsAndRefundsRun(s, s, after, user);
    RunAppend(start, before, after);
    CacheMatchesLedger(start, before + after, user);
    RestoresBetween(s, Run(start, before + after), user);
  }

  lemma SameKeys(first: Keys, second: Keys, owed: Pools)
    requires first.Complete() && second.Complete() && second.OrZero().Plus(owed) == first.OrZero().Plus(owed)
    ensures second == first
  {
  }

  lemma SameSide(first: Keys, second: Keys, owed: Pools, owed': Pools, crediting: Pools, db: Pools, drift: Pools)
    requires first.Complete() && second.Complete()
    requires Agrees(first, owed.Plus(crediting), db, drift) && Agrees(second, owed'.Plus(crediting), db, drift)
    ensures second.OrZero().Plus(owed') == first.OrZero().Plus(owed)
  {
  }

  lemma {:induction false} HoldsAndRefundsRun(first: State, s: State, steps: seq<Step>, user: int)
    requires Known(s, user) && s.cache[user].Complete() && FreshRequests(first, s)
    requires first.requests.Keys <= s.requests.Keys
    requires forall i :: 0 <= i < |steps| ==> steps[i].Hold? || steps[i].Refund?
    ensures var t := Run(s, steps);
      && Known(t, user) && t.cache[user].Complete() && FreshRequests(first, t)
      && t.books == s.books && t.drift[user] == s.drift[user] && t.crediting[user] == s.crediting[user]
    decreases |steps|
  {
    if steps != [] {
      HoldOrRefundStep(s, steps[0], user);
      FreshStep(first, s, steps[0]);
      HoldsAndRefundsRun(first, Next(s, steps[0]), steps[1..], user);
    }
  }

  lemma FreshStep(first: State, s: State, step: Step)
    requires FreshRequests(first, s) && first.requests.Keys <= s.requests.Keys && (step.Hold? || step.Refund?)
    ensures FreshRequests(first, Next(s, step)) && first.requests.Keys <= Next(s, step).requests.Keys
  {
    if step.Refund? {
      RefundedRequest(s, step.refunded);
    } else {
      HeldRequest(s, step.id, step.holder, step.cost, step.policy, step.lastTry);
    }
  }

  lemma HeldRequest(s: State, id: string, user: int, cost: int, policy: Policy, lastTry: bool)
    ensures var t := HoldStep(s, id, user, cost, policy, lastTry);
      || t.requests == s.requests
      || (id !in s.requests && exists hold :: t.requests == s.requests[id := Request(user, cost, hold, 0, ZERO, Open)])
  {
    var t := HoldStep(s, id, user, cost, policy, lastTry);
    if t.requests != s.requests {
      assert t.requests == s.requests[id := Request(user, cost, t.requests[id].hold, 0, ZERO, Open)];
    }
  }

  lemma RefundedRequest(s: State, id: string)
    ensures var t := RefundStep(s, id);
      || t.requests == s.requests
      || (id in s.requests
          && t.requests == s.requests[id := Finalised(s.requests[id], 0)])
  {
  }

  lemma HoldOrRefundStep(s: State, step: Step, user: int)
    requires Known(s, user) && s.cache[user].Complete() && (step.Hold? || step.Refund?)
    ensures var t := Next(s, step);
      && Known(t, user) && t.cache[user].Complete()
      && t.books == s.books && t.drift[user] == s.drift[user] && t.crediting[user] == s.crediting[user]
  {
  }

  lemma RefundStepSettles(s: State, id: string)
    requires id in s.requests && Known(s, s.requests[id].user)
    requires s.requests[id].phase.Open? && 0 < s.requests[id].recorded
    ensures var r := s.requests[id];
      RefundStep(s, id).cache
        == s.cache[r.user := SettledKeys(s.cache[r.user], Message(id, r.user, r.recorded, r.hold, 0), AllPools)]
  {
  }

  lemma RefundStepGives(s: State, id: string)
    requires id in s.requests && Known(s, s.requests[id].user)
    requires var r := s.requests[id]; r.phase.Open? && 0 < r.recorded && s.cache[r.user].Complete()
    requires var r := s.requests[id]; r.hold.NonNegative() && (r.recorded == r.hold.Total() || r.hold == ZERO)
    ensures var r, t := s.requests[id], RefundStep(s, id);
      && t.cache.Keys == s.cache.Keys && HoldReturned(s.cache[r.user], r.hold, t.cache[r.user])
      && (forall u :: u in s.cache && u != r.user ==> t.cache[u] == s.cache[u])
  {
    var r := s.requests[id];
    RefundStepSettles(s, id);
    SettledAtNothing(s.cache[r.user], Message(id, r.user, r.recorded, r.hold, 0), AllPools);
  }

  lemma RefundStepBills(s: State, id: string, queueUp: bool)
    requires id in s.requests && Known(s, s.requests[id].user)
    requires s.requests[id].phase.Open? && 0 < s.requests[id].recorded
    ensures var r, t := s.requests[id], RefundStep(s, id);
      && t.requests == s.requests[id := r.(actual := 0, shares := ZERO, phase := Unsent)]
      && t.books == s.books && t.queue == s.queue && t.rows == s.rows
      && var sent, u := Message(id, r.user, r.recorded, r.hold, 0), SendStep(t, id, queueUp);
         && Shares(sent) == ZERO
         && SentOnce(Dispatch(s.queue, s.rows), sent, queueUp, Dispatch(u.queue, u.rows))
  {
    NothingSplit(s.requests[id].hold);
  }

  /** In every reachable state, refunding a running request raises each of its user's keys by exactly the hold's
      part and nobody else's, and the one message it then sends has the hold as it was recorded and bills
      nothing. */
  lemma RefundStepReturnsHold(start: State, steps: seq<Step>, id: string, queueUp: bool)
    requires Initial(start) && id in Run(start, steps).requests
    requires Run(start, steps).requests[id].phase.Open? && 0 < Run(start, steps).requests[id].recorded
    requires Run(start, steps).requests[id].user in Run(start, steps).cache
    requires Run(start, steps).cache[Run(start, steps).requests[id].user].Complete()
    ensures var s := Run(start, steps);
      var r, t := s.requests[id], RefundStep(s, id);
      && t.cache.Keys == s.cache.Keys && HoldReturned(s.cache[r.user], r.hold, t.cache[r.user])
      && (forall u :: u in s.cache && u != r.user ==> t.cache[u] == s.cache[u])
      && var sent, u := Message(id, r.user, r.recorded, r.hold, 0), SendStep(t, id, queueUp);
         && Shares(sent) == ZERO
         && SentOnce(Dispatch(s.queue, s.rows), sent, queueUp, Dispatch(u.queue, u.rows))
  {
    InitialIsSound(start);
    RunKeepsTrace(start, steps);
    assert SoundRequest(Run(start, steps).books.users, id, Run(start, steps).requests[id]);
    RefundStepGives(Run(start, steps), id);
    RefundStepBills(Run(start, steps), id, queueUp);
  }

  // Settling onto dropped keys.

  lemma SettledOnto(s: State, id: string, actual: int, policy: Policy)
    requires id in s.requests && Known(s, s.requests[id].user) && s.requests[id].phase.Open? && 0 <= actual
    ensures var r, t := s.requests[id], SettleStep(DropStep(s, s.requests[id].user), id, actual, policy);
      && r.user in t.cache
      && t.cache[r.user] == SettledKeys(NO_KEYS, Message(id, r.user, r.recorded, r.hold, actual), policy)
  {
  }

  lemma UnusedPart(actual: int, hold: Pools, policy: Policy, m: Message)
    requires hold.NonNegative() && 0 <= actual && m.hold == hold && m.actual == actual && m.recorded == hold.Total()
    ensures SettledKeys(NO_KEYS, m, policy) == Shift(NO_KEYS, hold.Minus(Split(actual, hold)))
  {
    if actual < hold.Total() {
      RefundSplitDuality(actual, hold);
      assert hold.Minus(Split(actual, hold)) == GiveBack(hold.Total() - actual, hold);
    } else {
      SplitAll(actual, hold);
      NothingCollected(actual - hold.Total(), policy);
    }
  }

  lemma NothingCollected(amount: int, policy: Policy)
    ensures AfterCompensate(NO_KEYS, amount, policy) == NO_KEYS && Shift(NO_KEYS, ZERO) == NO_KEYS
  {
  }

  lemma UnusedOnAllPools(actual: int, hold: Pools)
    requires hold.NonNegative() && 0 <= actual
    ensures Shift(NO_KEYS, hold.Minus(Split(actual, hold))).Complete()
       <==> actual < hold.sub && 0 < hold.grant && 0 < hold.cash
  {
    SplitPours(actual, hold);
  }

  /** Settling a hold onto dropped keys, a refund being a settlement at zero, brings keys to life with the
      unused part of the hold as their whole value. They then pass for a complete cache if and only if some
      of the hold on every pool is unused: only then does no later request load the true balances. */
  lemma RefundOntoDroppedKeys(s: State, id: string, actual: int, policy: Policy)
    requires id in s.requests && Known(s, s.requests[id].user) && s.requests[id].phase.Open? && 0 <= actual
    requires s.requests[id].hold.NonNegative() && s.requests[id].recorded == s.requests[id].hold.Total()
    ensures var r, t := s.requests[id], SettleStep(DropStep(s, s.requests[id].user), id, actual, policy);
      && r.user in t.cache
      && t.cache[r.user] == Shift(NO_KEYS, r.hold.Minus(Split(actual, r.hold)))
      && (t.cache[r.user].Complete() <==> actual < r.hold.sub && 0 < r.hold.grant && 0 < r.hold.cash)
  {
    var r := s.requests[id];
    SettledOnto(s, id, actual, policy);
    UnusedPart(actual, r.hold, policy, Message(id, r.user, r.recorded, r.hold, actual));
    UnusedOnAllPools(actual, r.hold);
  }
}
