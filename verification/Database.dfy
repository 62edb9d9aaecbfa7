/**
 The Postgres tables as one object, with the code that runs a database transaction on them. Reads and
 writes between begin and commit work on local copies; the fields change at the commit only.
 */
module Database {
  import opened Prelude
  import opened Money
  import opened Books

  datatype Handled = UserMissing | AlreadyBilled | NowBilled

  class Tables {
    var users: map<int, User>
    var billingLogs: seq<BillingLog>
    var transactions: seq<Transaction>
    var balanceLogs: seq<BalanceLog>

    constructor (users: map<int, User>)
      ensures View() == Books(users, [], [], [])
    {
      this.users := users;
      billingLogs, transactions, balanceLogs := [], [], [];
    }

    function View(): Books
      reads this
    {
      Books(users, billingLogs, transactions, balanceLogs)
    }

    /** HandleRecordBillingLog: check, three balance updates and the log row in one transaction. */
    method HandleRecordBillingLog(m: Message) returns (r: Handled)
      modifies this
      ensures View() == Post(old(View()), m)
      ensures r == NowBilled <==> |billingLogs| == |old(billingLogs)| + 1
      ensures r == AlreadyBilled <==> m.user in old(users) && m.id != "" && Billed(old(billingLogs), m.id)
    {
      if m.user !in users {
        return UserMissing;
      }
      if m.id != "" && Billed(billingLogs, m.id) {
        return AlreadyBilled;
      }
      var shares := SharesOf(m);
      ChargeAndLog(m, shares);
      return NowBilled;
    }

    /** The three balance updates and the log row of one posting. */
    method ChargeAndLog(m: Message, shares: Pools)
      requires m.user in users
      modifies this`users, this`billingLogs
      ensures users == old(users)[m.user := Adjust(old(users)[m.user], ZERO.Minus(shares))]
      ensures billingLogs == old(billingLogs) + [BillingLog(m.id, m.user, m.actual, shares)]
    {
      var row := users[m.user];
      row := Adjust(row, Pools(-shares.sub, 0, 0));
      row := Adjust(row, Pools(0, 0, -shares.cash));
      row := Adjust(row, Pools(0, -shares.grant, 0));
      users := users[m.user := row];
      billingLogs := billingLogs + [BillingLog(m.id, m.user, m.actual, shares)];
    }

    /** processTransaction, up to and including its commit. */
    method ProcessTransaction(req: TransactionRequest) returns (status: Status)
      modifies this
      ensures status == TransactStatus(old(View()), req)
      ensures View() == Transact(old(View()), req)
      ensures StatusByText(old(View()), req, status)
      ensures if status == Done then ToppedUp(old(View()), View(), req) else View() == old(View())
    {
      TransactByText(View(), req);
      if req.event.NoEvent? || !req.fieldsPresent || req.user <= 0 {
        return BadRequest;
      }
      if req.amount <= 0 {
        return BadRequest;
      }
      if req.balanceType != "cash" && req.balanceType != "grant" {
        return BadRequest;
      }
      if req.direction != "credit" && req.direction != "debit" {
        return BadRequest;
      }
      if Recorded(transactions, req.event) {
        return AlreadyProcessed;
      }
      if req.user !in users {
        return NotFound;
      }
      var row := users[req.user];
      var before := row.balance.cash;
      if req.balanceType == "grant" {
        before := row.balance.grant;
      }
      var delta := req.amount;
      if req.direction == "debit" {
        delta := -req.amount;
      }
      var after := before + delta;
      if after < 0 {
        return Conflict;
      }
      var pool, kind := Cash, CashLog;
      if req.balanceType == "grant" {
        pool, kind := Grant, GrantLog;
      }
      users := users[req.user := Adjust(row, Single(pool, delta))];
      transactions := transactions + [Movement(req.event, req.user, pool, delta, before, after)];
      balanceLogs := balanceLogs + [BalanceLog(req.user, kind, req.amount, before, after)];
      return Done;
    }

    /** What other transactions commit meanwhile. */
    method Interleave(entries: seq<Entry>)
      modifies this
      ensures View() == EnterAll(old(View()), entries)
    {
      var now := EnterAll(View(), entries);
      users, billingLogs, transactions, balanceLogs := now.users, now.billingLogs, now.transactions, now.balanceLogs;
    }

    /** ApplySubscription, up to and including its commit, with others at work around its second reading. */
    method ApplySubscription(a: SubscriptionApply, first: seq<Entry>, second: seq<Entry>) returns (applied: bool)
      modifies this
      ensures View() == Overtaken(old(View()), a, first, second)
      ensures applied <==> Applies(old(View()), a) && Applies(EnterAll(EnterAll(old(View()), first), second), a)
    {
      if a.user !in users || (a.event != NoEvent && Recorded(transactions, a.event)) {
        return false;
      }
      var prior := users[a.user].balance;
      Interleave(first);
      var movedToCash := users[a.user].balance.sub;
      Interleave(second);
      if a.event != NoEvent && Recorded(transactions, a.event) {
        return false;
      }
      WriteChange(a, prior, movedToCash);
      return true;
    }

    /** The update, which is relative to the row as it is, and the log rows, which go by what was read. */
    method WriteChange(a: SubscriptionApply, prior: Pools, movedToCash: int)
      requires Applies(View(), a)
      modifies this
      ensures View() == Apply(old(View()), a, Reading(prior, movedToCash))
      ensures Changed(old(View()), View(), a, Reading(prior, movedToCash))
    {
      ApplyChanges(View(), a, Reading(prior, movedToCash));
      var row := users[a.user].balance;
      users := users[a.user := User(Pools(a.paid, a.grant, row.cash + row.sub), a.expiresAt, a.tier)];
      var total := a.paid + a.grant;
      transactions := transactions
        + [Subscription(a.event, a.user, a.paid, a.grant, row.sub, row.grant, movedToCash)];
      balanceLogs := balanceLogs + [BalanceLog(a.user, SubscriptionLog, total, prior.sub + prior.grant, total)];
      if movedToCash > 0 {
        balanceLogs := balanceLogs + [BalanceLog(a.user, CashLog, movedToCash, prior.cash, prior.cash + movedToCash)];
      } else {
        assert balanceLogs == balanceLogs + [];
      }
    }

    /** sweepExpiredSubscriptions, error-free and with nothing else committed meanwhile: expire every listed
        user, in any order, under the key of the user and the day. */
    method SweepExpiredSubscriptions(now: int, day: int)
      modifies this
      ensures users.Keys == old(users.Keys) && billingLogs == old(billingLogs)
      ensures forall u :: u in users ==>
        users[u] == if u in Expired(old(users), now) && !Recorded(old(transactions), ExpireEvent(u, day))
                    then Cleared(old(users[u])) else old(users[u])
      ensures forall u :: u in users ==>
        SweptRow(old(users[u]), users[u], now, Recorded(old(transactions), ExpireEvent(u, day)))
      ensures forall u :: u in Expired(users, now) ==> Recorded(old(transactions), ExpireEvent(u, day))
      ensures forall u :: u in Expired(old(users), now) ==> Recorded(transactions, ExpireEvent(u, day))
    {
      var todo := Expired(users, now);
      ghost var listed, before, txs := todo, users, transactions;
      while todo != {}
        invariant todo <= listed && listed <= before.Keys
        invariant users.Keys == before.Keys && billingLogs == old(billingLogs)
        invariant forall u :: u in users ==>
          users[u] == if u in listed - todo && !Recorded(txs, ExpireEvent(u, day)) then Cleared(before[u])
              else before[u]
        invariant forall u :: Recorded(transactions, ExpireEvent(u, day))
                              <==> Recorded(txs, ExpireEvent(u, day)) || u in listed - todo
        decreases |todo|
      {
        var u := AnyOf(todo);
        label Turn:
        var _ := ApplySubscription(SubscriptionApply(ExpireEvent(u, day), u, 0, 0, None, 0), [], []);
        forall v
          ensures Recorded(transactions, ExpireEvent(v, day))
                  <==> Recorded(old@Turn(transactions), ExpireEvent(v, day)) || v == u
        {
          RecordedGrows(old@Turn(transactions), transactions, ExpireEvent(u, day), ExpireEvent(v, day));
        }
        todo := todo - {u};
      }
      SweptByDate(before, users, now, day, txs);
    }
  }

  method SharesOf(m: Message) returns (shares: Pools)
    ensures shares == Shares(m)
  {
    var sub, grant, cash := SplitActual3(m.actual, m.hold.sub, m.hold.grant, m.hold.cash);
    return Pools(sub, grant, cash);
  }

  /** ListExpiredSubscriptionUsers: past their date with sub or grant left. */
  function Expired(users: map<int, User>, now: int): set<int> {
    set u | u in users && users[u].expiresAt.Some? && users[u].expiresAt.value < now
            && (users[u].balance.sub > 0 || users[u].balance.grant > 0)
  }

  /** A user after expiry: nothing forfeited but grant, no expiry date, tier zero. */
  function Cleared(user: User): User {
    User(Pools(0, 0, user.balance.cash + user.balance.sub), None, 0)
  }

  /** A row before and after the sweep, `known` telling whether the user's expiry of that day is recorded. A
      subscription whose date has passed, with something left in its pools, ends: what was paid joins cash. */
  predicate SweptRow(was: User, now: User, at: int, known: bool) {
    if was.expiresAt.Some? && was.expiresAt.value < at && (0 < was.balance.sub || 0 < was.balance.grant) && !known
    then now == User(Pools(0, 0, was.balance.cash + was.balance.sub), None, 0)
    else now == was
  }

  lemma SweptByDate(was: map<int, User>, now: map<int, User>, at: int, day: int, recorded: seq<Transaction>)
    requires now.Keys == was.Keys
    requires forall u :: u in now ==>
      now[u] == if u in Expired(was, at) && !Recorded(recorded, ExpireEvent(u, day)) then Cleared(was[u]) else was[u]
    ensures forall u :: u in now ==> SweptRow(was[u], now[u], at, Recorded(recorded, ExpireEvent(u, day)))
  {
  }

  lemma RecordedGrows(before: seq<Transaction>, after: seq<Transaction>, added: EventId, event: EventId)
    requires || (Recorded(before, added) && after == before)
             || (|after| == |before| + 1 && before <= after && after[|before|].event == added)
    ensures Recorded(after, event) <==> Recorded(before, event) || event == added
  {
    if Recorded(before, event) {
      var k :| 0 <= k < |before| && before[k].event == event;
      assert after[k].event == event;
    }
  }
}
