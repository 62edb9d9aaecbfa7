/**
 The Postgres side: user balances, billing logs, the transactions ledger and the balance logs,
 with the three database transactions that change them. Each is atomic: it applies whole or not
 at all.
 */
module Books {
  import opened Prelude
  import opened Money

  /** The idempotence key of a ledger entry. ExpireEvent(u, d) is the key the hourly expiry sweep
      composes from the user and the day; NoEvent is the empty key, which is never deduplicated. */
  datatype EventId = NoEvent | Event(key: string) | ExpireEvent(user: int, day: int)

  datatype User = User(balance: Pools, expiresAt: Option<int>, tier: int)

  /** The settlement request carried by the billing queue. `recorded` is the pre-deducted amount,
      `hold` its parts, `actual` the settled cost (zero for a refund). */
  datatype Message = Message(id: string, user: int, recorded: int, hold: Pools, actual: int)

  /** A billing log row, with the shares its database transaction charged. */
  datatype BillingLog = BillingLog(requestId: string, user: int, amount: int, shares: Pools)

  /** Of a subscription change the table has the event, the user and the sum of paid and grant. The rest is
      history: the two parts, the sub balance carried into cash, the grant forfeited, and the sub balance the
      change had read before and logged as moved. */
  datatype Transaction =
    | Movement(event: EventId, user: int, pool: Pool, delta: int, before: int, after: int)
    | Subscription(event: EventId, user: int, paid: int, grant: int, carried: int, forfeited: int, moved: int)

  datatype LogKind = SubscriptionLog | GrantLog | CashLog

  datatype BalanceLog = BalanceLog(user: int, kind: LogKind, amount: int, before: int, after: int)

  datatype Books = Books(users: map<int, User>, billingLogs: seq<BillingLog>,
                         transactions: seq<Transaction>, balanceLogs: seq<BalanceLog>)

  predicate Billed(logs: seq<BillingLog>, id: string) {
    exists k :: 0 <= k < |logs| && logs[k].requestId == id
  }

  predicate Recorded(transactions: seq<Transaction>, event: EventId) {
    exists k :: 0 <= k < |transactions| && transactions[k].event == event
  }

  function Adjust(user: User, delta: Pools): User {
    user.(balance := user.balance.Plus(delta))
  }

  function Shares(m: Message): Pools {
    Split(m.actual, m.hold)
  }

  /** A posting's charge and its log row. */
  function Charged(b: Books, m: Message, shares: Pools): Books
    requires m.user in b.users
  {
    b.(users := b.users[m.user := Adjust(b.users[m.user], ZERO.Minus(shares))],
       billingLogs := b.billingLogs + [BillingLog(m.id, m.user, m.actual, shares)])
  }

  /** The billing worker's transaction: skip a billed request id, else charge the split and log.
      A message for an unknown user fails on the log's foreign key and leaves no trace. */
  function Post(b: Books, m: Message): Books {
    if m.user !in b.users || (m.id != "" && Billed(b.billingLogs, m.id)) then b
    else Charged(b, m, Shares(m))
  }

  datatype TransactionRequest = TransactionRequest(event: EventId, fieldsPresent: bool, user: int,
                                                   balanceType: string, direction: string, amount: int)

  datatype Status = BadRequest | AlreadyProcessed | NotFound | Conflict | Done

  function PoolNamed(balanceType: string): Pool {
    if balanceType == "grant" then Grant else Cash
  }

  function SignedAmount(req: TransactionRequest): int {
    if req.direction == "debit" then -req.amount else req.amount
  }

  function TransactStatus(b: Books, req: TransactionRequest): Status {
    if req.event.NoEvent? || !req.fieldsPresent || req.user <= 0 then BadRequest
    else if req.amount <= 0 then BadRequest
    else if req.balanceType != "cash" && req.balanceType != "grant" then BadRequest
    else if req.direction != "credit" && req.direction != "debit" then BadRequest
    else if Recorded(b.transactions, req.event) then AlreadyProcessed
    else if req.user !in b.users then NotFound
    else if b.users[req.user].balance.Get(PoolNamed(req.balanceType)) + SignedAmount(req) < 0 then Conflict
    else Done
  }

  /** The top-up transaction: one pool, one ledger entry, one balance log. */
  function Transact(b: Books, req: TransactionRequest): Books {
    if TransactStatus(b, req) != Done then b
    else
      var pool, delta := PoolNamed(req.balanceType), SignedAmount(req);
      var before := b.users[req.user].balance.Get(pool);
      Books(b.users[req.user := Adjust(b.users[req.user], Single(pool, delta))],
            b.billingLogs,
            b.transactions + [Movement(req.event, req.user, pool, delta, before, before + delta)],
            b.balanceLogs + [BalanceLog(req.user, if pool == Grant then GrantLog else CashLog,
                                        req.amount, before, before + delta)])
  }

  /** All fields are there and name a pool, a direction and a positive amount. */
  predicate WellFormed(req: TransactionRequest) {
    && req.event != NoEvent && req.fieldsPresent && 0 < req.user && 0 < req.amount
    && (req.balanceType == "cash" || req.balanceType == "grant")
    && (req.direction == "credit" || req.direction == "debit")
  }

  /** The pool that the request names, changed as its direction says, would be negative. */
  predicate Overdraws(balance: Pools, req: TransactionRequest) {
    var named := if req.balanceType == "cash" then balance.cash else balance.grant;
    if req.direction == "debit" then named < req.amount else named + req.amount < 0
  }

  /** A row before and after a top-up, in the texts of the request: the pool it names has risen by the amount of
      a credit or fallen by that of a debit, and nothing else has changed. */
  predicate MovedByText(was: User, now: User, req: TransactionRequest) {
    var change := now.balance.Minus(was.balance);
    && now.expiresAt == was.expiresAt && now.tier == was.tier
    && change.sub == 0
    && change.grant == (if req.balanceType != "grant" then 0 else if req.direction == "credit" then req.amount
                        else -req.amount)
    && change.cash == (if req.balanceType != "cash" then 0 else if req.direction == "credit" then req.amount
                       else -req.amount)
  }

  /** The status of every request, in its texts. */
  predicate StatusByText(b: Books, req: TransactionRequest, status: Status) {
    && (status == BadRequest <==> !WellFormed(req))
    && (status == AlreadyProcessed <==> WellFormed(req) && Recorded(b.transactions, req.event))
    && (status == NotFound <==>
          WellFormed(req) && !Recorded(b.transactions, req.event) && req.user !in b.users)
    && (status == Conflict <==>
          WellFormed(req) && !Recorded(b.transactions, req.event) && req.user in b.users
          && Overdraws(b.users[req.user].balance, req))
  }

  /** The books before and after a top-up: one user's row, one entry and one log that say so. */
  predicate ToppedUp(was: Books, now: Books, req: TransactionRequest) {
    && req.user in was.users && now.users.Keys == was.users.Keys
    && MovedByText(was.users[req.user], now.users[req.user], req)
    && (forall u :: u in was.users && u != req.user ==> now.users[u] == was.users[u])
    && now.billingLogs == was.billingLogs
    && var before := if req.balanceType == "cash" then was.users[req.user].balance.cash
                     else was.users[req.user].balance.grant;
       var after := if req.direction == "credit" then before + req.amount else before - req.amount;
       && now.transactions == was.transactions
            + [Movement(req.event, req.user, if req.balanceType == "cash" then Cash else Grant, after - before, before,
                        after)]
       && now.balanceLogs == was.balanceLogs
            + [BalanceLog(req.user, if req.balanceType == "cash" then CashLog else GrantLog, req.amount, before, after)]
  }

  lemma TransactByText(b: Books, req: TransactionRequest)
    ensures StatusByText(b, req, TransactStatus(b, req))
    ensures if TransactStatus(b, req) == Done then ToppedUp(b, Transact(b, req), req) else Transact(b, req) == b
  {
  }

  datatype SubscriptionApply = SubscriptionApply(event: EventId, user: int, paid: int, grant: int,
                                                 expiresAt: Option<int>, tier: int)

  predicate Applies(b: Books, a: SubscriptionApply) {
    a.user in b.users && !(a.event != NoEvent && Recorded(b.transactions, a.event))
  }

  /** What a subscription change read without a lock before its update: the three pools, for the logs, and
      then the sub balance that it logs as moved. Other transactions may commit between and after the two. */
  datatype Reading = Reading(prior: Pools, moved: int)

  /** A reading that nothing has overtaken. */
  function Unovertaken(b: Books, user: int): Reading
    requires user in b.users
  {
    Reading(b.users[user].balance, b.users[user].balance.sub)
  }

  /** A subscription change: the sub balance joins cash, sub and grant are overwritten. The logs go by the
      reading, and the moved amount is logged on cash only when positive. */
  function Apply(b: Books, a: SubscriptionApply, seen: Reading): Books {
    if !Applies(b, a) then b
    else
      var balance, prior, issued := b.users[a.user].balance, seen.prior, a.paid + a.grant;
      Books(b.users[a.user := User(Pools(a.paid, a.grant, balance.cash + balance.sub), a.expiresAt, a.tier)],
            b.billingLogs,
            b.transactions
            + [Subscription(a.event, a.user, a.paid, a.grant, balance.sub, balance.grant, seen.moved)],
            b.balanceLogs
            + [BalanceLog(a.user, SubscriptionLog, issued, prior.sub + prior.grant, issued)]
            + if seen.moved > 0 then [BalanceLog(a.user, CashLog, seen.moved, prior.cash, prior.cash + seen.moved)]
              else [])
  }

  /** The books before and after a subscription change: sub and grant are what was bought, the sub balance has
      joined cash, and the rows say what had been read. */
  predicate Changed(was: Books, now: Books, a: SubscriptionApply, seen: Reading) {
    && a.user in was.users && now.users.Keys == was.users.Keys
    && ChangedRow(was.users[a.user], now.users[a.user], a)
    && (forall u :: u in was.users && u != a.user ==> now.users[u] == was.users[u])
    && now.billingLogs == was.billingLogs
    && ChangeLogged(was.balanceLogs, now.balanceLogs, a, seen)
    && var carried, forfeited := was.users[a.user].balance.sub, was.users[a.user].balance.grant;
       now.transactions == was.transactions
           + [Subscription(a.event, a.user, a.paid, a.grant, carried, forfeited, seen.moved)]
  }

  predicate ChangedRow(was: User, now: User, a: SubscriptionApply) {
    && now.balance.sub == a.paid && now.balance.grant == a.grant
    && now.balance.cash - was.balance.cash == was.balance.sub
    && now.expiresAt == a.expiresAt && now.tier == a.tier
  }

  /** One row says what was issued in place of the sub and grant that had been read, and another, if sub had been
      read as positive, that it moved to cash. */
  predicate ChangeLogged(was: seq<BalanceLog>, now: seq<BalanceLog>, a: SubscriptionApply, seen: Reading) {
    var issue := BalanceLog(a.user, SubscriptionLog, a.paid + a.grant, seen.prior.sub + seen.prior.grant,
                            a.paid + a.grant);
    if seen.moved <= 0 then now == was + [issue]
    else now == was + [issue, BalanceLog(a.user, CashLog, seen.moved, seen.prior.cash, seen.prior.cash + seen.moved)]
  }

  /** A change is made for every known user unless its event, if it has one, is recorded already. */
  lemma ApplyChanges(b: Books, a: SubscriptionApply, seen: Reading)
    ensures if a.user in b.users && (a.event == NoEvent || !Recorded(b.transactions, a.event))
            then Changed(b, Apply(b, a, seen), a, seen)
            else Apply(b, a, seen) == b
  {
  }

  /** One database transaction of any kind. */
  datatype Entry =
    | Posting(m: Message)
    | Moving(req: TransactionRequest)
    | Applying(a: SubscriptionApply, seen: Reading)

  function Enter(b: Books, e: Entry): Books {
    match e
    case Posting(m) => Post(b, m)
    case Moving(req) => Transact(b, req)
    case Applying(a, seen) => Apply(b, a, seen)
  }

  function EnterAll(b: Books, entries: seq<Entry>): (now: Books)
    ensures now.users.Keys == b.users.Keys
    decreases |entries|
  {
    if entries == [] then b else EnterAll(Enter(b, entries[0]), entries[1..])
  }

  /** A whole subscription change: its check and first reading, its second reading after `first` has been
      committed by others, and its update after `second`. An event recorded meanwhile violates the unique index,
      and the change is rolled back. */
  function Overtaken(b: Books, a: SubscriptionApply, first: seq<Entry>, second: seq<Entry>): Books {
    if !Applies(b, a) then b
    else
      var mid := EnterAll(b, first);
      Apply(EnterAll(mid, second), a, Reading(b.users[a.user].balance, mid.users[a.user].balance.sub))
  }

  /** Whatever others commit, the logs of a change have its first reading from the books it began with, its second
      one from the books after `first`, and its update changes the books after `second`. */
  lemma OvertakenChanges(b: Books, a: SubscriptionApply, first: seq<Entry>, second: seq<Entry>)
    requires a.user in b.users && (a.event == NoEvent || !Recorded(b.transactions, a.event))
    ensures var mid := EnterAll(b, first);
      var end := EnterAll(mid, second);
      if a.event != NoEvent && Recorded(end.transactions, a.event) then Overtaken(b, a, first, second) == end
      else Changed(end, Overtaken(b, a, first, second), a,
                   Reading(b.users[a.user].balance, mid.users[a.user].balance.sub))
  {
    var mid := EnterAll(b, first);
    ApplyChanges(EnterAll(mid, second), a, Reading(b.users[a.user].balance, mid.users[a.user].balance.sub));
  }

  // Totals per user, read off the tables.

  /** What postings have charged to a user's pools. */
  function PostedTo(logs: seq<BillingLog>, user: int): Pools {
    if logs == [] then ZERO
    else
      var last := logs[|logs| - 1];
      PostedTo(logs[..|logs| - 1], user).Plus(if last.user == user then last.shares else ZERO)
  }

  /** What ledger entries have brought to a user, as real money (sub and cash), grants issued, grants
      forfeited, and sub balances carried into cash beyond what the cash logs say. */
  datatype Ledger = Ledger(money: int, granted: int, forfeited: int, unlogged: int)

  function EntryTotals(t: Transaction): Ledger {
    match t
    case Movement(_, _, pool, delta, _, _) =>
      if pool == Grant then Ledger(0, delta, 0, 0) else Ledger(delta, 0, 0, 0)
    case Subscription(_, _, paid, grant, carried, forfeited, moved) =>
      Ledger(paid, grant, forfeited, carried - Max(moved, 0))
  }

  function LedgerOf(transactions: seq<Transaction>, user: int): Ledger {
    if transactions == [] then Ledger(0, 0, 0, 0)
    else
      var last := transactions[|transactions| - 1];
      var sofar := LedgerOf(transactions[..|transactions| - 1], user);
      if last.user != user then sofar
      else
        var e := EntryTotals(last);
        Ledger(sofar.money + e.money, sofar.granted + e.granted, sofar.forfeited + e.forfeited,
               sofar.unlogged + e.unlogged)
  }

  /** The sum of after - before over a user's cash balance logs. */
  function CashLogged(logs: seq<BalanceLog>, user: int): int {
    if logs == [] then 0
    else
      var last := logs[|logs| - 1];
      CashLogged(logs[..|logs| - 1], user)
      + if last.user == user && last.kind == CashLog then last.after - last.before else 0
  }

  // How the totals grow, one row at a time.

  lemma PostedToGrows(logs: seq<BillingLog>, row: BillingLog, user: int)
    ensures PostedTo(logs + [row], user)
         == PostedTo(logs, user).Plus(if row.user == user then row.shares else ZERO)
  {
    assert (logs + [row])[..|logs|] == logs;
  }

  lemma LedgerOfGrows(transactions: seq<Transaction>, row: Transaction, user: int)
    ensures var now, was, e := LedgerOf(transactions + [row], user), LedgerOf(transactions, user), EntryTotals(row);
            now == if row.user != user then was
                   else Ledger(was.money + e.money, was.granted + e.granted, was.forfeited + e.forfeited,
                               was.unlogged + e.unlogged)
  {
    assert (transactions + [row])[..|transactions|] == transactions;
  }

  lemma CashLoggedGrows(logs: seq<BalanceLog>, row: BalanceLog, user: int)
    ensures CashLogged(logs + [row], user)
         == CashLogged(logs, user) + if row.user == user && row.kind == CashLog then row.after - row.before else 0
  {
    assert (logs + [row])[..|logs|] == logs;
  }
}
