/**
 The billing ledger as a step machine over all users. Each Lua script, each database transaction,
 each cache load and each queue operation is one step, so a run is any interleaving of them. A step
 whose guard fails leaves the state as it is.
 */
module Ledger {
  import opened Prelude
  import opened Money
  import opened CacheScripts
  import opened Books
  import opened Relay
  import opened Settlement

  /** Open: held and running. Unsent: the settlement script has run. Dispatched: its message went to
      the queue or the outbox. Posted: the worker has billed it. */
  datatype Phase = Open | Unsent | Dispatched | Posted

  /** `shares` is set on finalising: the split of the actual cost over the hold, which the worker will
      work out again from the message. */
  datatype Request = Request(user: int, recorded: int, hold: Pools, actual: int, shares: Pools, phase: Phase)

  datatype Credit = Credit(user: int, pool: Pool, delta: int)

  /** `relayed` are the outbox rows whose message the relay has put in the queue, `uncached` the credits
      committed to the database whose cache script has not run. The last three are histories kept per
      user and read by no step but a load: `owed` adds holds and subtracts refunds and postings,
      `crediting` adds commits and subtracts cache credits, and `drift` is the cache's lawful
      disagreement with the database. */
  datatype State = State(books: Books, cache: map<int, Keys>, requests: map<string, Request>,
                         queue: multiset<Message>, rows: seq<OutboxRow>, relayed: set<nat>,
                         uncached: map<EventId, Credit>,
                         owed: map<int, Pools>, crediting: map<int, Pools>, drift: map<int, Pools>)

  function Bumped(histories: map<int, Pools>, user: int, delta: Pools): map<int, Pools> {
    if user in histories then histories[user := histories[user].Plus(delta)] else histories
  }

  function Payload(id: string, r: Request): Message {
    Message(id, r.user, r.recorded, r.hold, r.actual)
  }

  /** What a request still owes the database: its hold while it runs, its split shares once it is
      finalised, nothing once posted. */
  function Owing(r: Request): Pools {
    match r.phase
    case Open => r.hold
    case Posted => ZERO
    case _ => r.shares
  }

  function OwingTo(user: int): Request -> Pools {
    (r: Request) => if r.user == user then Owing(r) else ZERO
  }

  function CreditTo(user: int): Credit -> Pools {
    (c: Credit) => if c.user == user then Single(c.pool, c.delta) else ZERO
  }

  /** Everything that separates a user's cache from the database by design. */
  function Outstanding(s: State, user: int): Pools
    requires user in s.owed && user in s.crediting
  {
    s.owed[user].Plus(s.crediting[user])
  }

  predicate Known(s: State, user: int) {
    user in s.books.users && user in s.cache && user in s.owed && user in s.crediting && user in s.drift
  }

  datatype Step =
    | Load(user: int)
    | Drop(user: int)
    | Hold(id: string, holder: int, cost: int, policy: Policy, lastTry: bool)
    | Settle(settled: string, actual: int, settlePolicy: Policy)
    | Refund(refunded: string)
    | Send(sent: string, queueUp: bool)
    | Redeliver(again: Message)
    | Deliver(m: Message, acknowledged: bool)
    | RelayEnqueue(row: nat)
    | RelayMark(marked: nat)
    | Commit(req: TransactionRequest)
    | CacheCredit(event: EventId)
    | ChangeSubscription(change: SubscriptionApply, seen: Reading)

  // Cache steps.

  /** A load copies the database, so whatever is outstanding at that moment becomes drift. */
  function LoadStep(s: State, user: int): State {
    if !Known(s, user) then s
    else s.(cache := s.cache[user := KeysOf(s.books.users[user].balance)],
            drift := s.drift[user := Outstanding(s, user)])
  }

  /** DEL of a user's keys: after a subscription change, or an eviction at any time. */
  function DropStep(s: State, user: int): State {
    if user !in s.cache then s else s.(cache := s.cache[user := NO_KEYS])
  }

  /** One run of pre_deduct.lua for a new request. On the caller's last try a miss is taken for a
      success with nothing held. */
  function HoldStep(s: State, id: string, user: int, cost: int, policy: Policy, lastTry: bool): State {
    if id == "" || id in s.requests || !Known(s, user) then s
    else
      match PreDeductAnswer(s.cache[user], cost, policy)
      case Insufficient => s
      case Missing =>
        if lastTry then s.(requests := s.requests[id := Request(user, cost, ZERO, 0, ZERO, Open)]) else s
      case Taken(taken) => Opened(s, id, user, cost, taken, Shift(s.cache[user], ZERO.Minus(taken)))
  }

  /** The state with a new request running, given what it holds and the keys the hold leaves. */
  function Opened(s: State, id: string, user: int, cost: int, taken: Pools, keys: Keys): State {
    s.(cache := s.cache[user := keys],
       requests := s.requests[id := Request(user, cost, taken, 0, ZERO, Open)],
       owed := Bumped(s.owed, user, taken))
  }

  /** An absent key that a refund brings into being starts at zero instead of at the database's
      balance; that difference becomes drift. */
  function DriftAfterBirth(key: Option<int>, given: int, outstanding: int, db: int, drift: int): int {
    if key.None? && given != 0 then outstanding - db else drift
  }

  function DriftAfterRefund(keys: Keys, given: Pools, outstanding: Pools, db: Pools, drift: Pools): Pools {
    Pools(DriftAfterBirth(keys.sub, given.sub, outstanding.sub, db.sub, drift.sub),
          DriftAfterBirth(keys.grant, given.grant, outstanding.grant, db.grant, drift.grant),
          DriftAfterBirth(keys.cash, given.cash, outstanding.cash, db.cash, drift.cash))
  }

  /** What Settle's script gives back and what it collects. */
  function Given(recorded: int, actual: int, hold: Pools): Pools {
    if actual < recorded then GiveBack(recorded - actual, hold) else ZERO
  }

  function Collected(keys: Keys, recorded: int, actual: int, policy: Policy): Pools {
    if recorded < actual then UnderCharge(keys, actual - recorded, policy) else ZERO
  }

  /** A request on being finalised. */
  function Finalised(r: Request, actual: int): Request {
    r.(actual := actual, shares := Split(actual, r.hold), phase := Unsent)
  }

  /** Settle's script. An under-charge is collected in the cache only, so drift falls by it. */
  function SettleStep(s: State, id: string, actual: int, policy: Policy): State {
    if id !in s.requests || !s.requests[id].phase.Open? || actual < 0 || !Known(s, s.requests[id].user) then s
    else
      var r := s.requests[id];
      var done := Finalised(r, actual);
      var keys, given := s.cache[r.user], Given(r.recorded, actual, r.hold);
      var born := DriftAfterRefund(keys, given, Outstanding(s, r.user), s.books.users[r.user].balance, s.drift[r.user]);
      s.(cache := s.cache[r.user := SettledKeys(keys, Payload(id, done), policy)],
         requests := s.requests[id := done],
         owed := Bumped(s.owed, r.user, ZERO.Minus(given)),
         drift := s.drift[r.user := born.Minus(Collected(keys, r.recorded, actual, policy))])
  }

  /** A refund of a positive amount is a settlement at zero cost; any other does nothing. */
  function RefundStep(s: State, id: string): State {
    if id in s.requests && 0 < s.requests[id].recorded then SettleStep(s, id, 0, AllPools) else s
  }

  /** credit_cache.lua for a committed credit. */
  function CacheCreditStep(s: State, event: EventId): State {
    if event !in s.uncached || !Known(s, s.uncached[event].user) then s
    else
      var c := s.uncached[event];
      s.(cache := s.cache[c.user := AfterCredit(s.cache[c.user], c.pool, c.delta)],
         uncached := s.uncached - {event},
         crediting := Bumped(s.crediting, c.user, ZERO.Minus(Single(c.pool, c.delta))))
  }

  // Delivery steps.

  function SendStep(s: State, id: string, queueUp: bool): State {
    if id !in s.requests || !s.requests[id].phase.Unsent? then s
    else
      var r := s.requests[id];
      var d := Sent(Dispatch(s.queue, s.rows), Payload(id, r), queueUp);
      s.(queue := d.queue, rows := d.rows, requests := s.requests[id := r.(phase := Dispatched)])
  }

  /** The queue may deliver a message it holds any number of times. */
  function RedeliverStep(s: State, m: Message): State {
    if m in s.queue then s.(queue := s.queue + multiset{m}) else s
  }

  /** The worker handles a message; the queue forgets one copy only if it was acknowledged. A crash
      before the commit is no step at all. */
  function DeliverStep(s: State, m: Message, acknowledged: bool): State {
    if m !in s.queue || m.id !in s.requests || m.user !in s.books.users then s
    else
      s.(books := Post(s.books, m),
         requests := s.requests[m.id := s.requests[m.id].(phase := Posted)],
         queue := if acknowledged then s.queue - multiset{m} else s.queue,
         owed := if Billed(s.books.billingLogs, m.id) then s.owed
                 else Bumped(s.owed, m.user, ZERO.Minus(Shares(m))))
  }

  function RelayEnqueueStep(s: State, row: nat): State {
    if row >= |s.rows| || s.rows[row].processed then s
    else s.(queue := s.queue + multiset{s.rows[row].message}, relayed := s.relayed + {row})
  }

  /** The relay marks only a row it has enqueued. */
  function RelayMarkStep(s: State, row: nat): State {
    if row >= |s.rows| || row !in s.relayed then s
    else s.(rows := s.rows[row := s.rows[row].(processed := true)])
  }

  // Database steps.

  function CommitStep(s: State, req: TransactionRequest): State {
    if TransactStatus(s.books, req) != Done then s
    else
      var c := Credit(req.user, PoolNamed(req.balanceType), SignedAmount(req));
      s.(books := Transact(s.books, req),
         uncached := s.uncached[req.event := c],
         crediting := Bumped(s.crediting, req.user, Single(c.pool, c.delta)))
  }

  /** A subscription change moves the database under a cache that has not been dropped yet; until the
      drop the difference is drift. What the change had read before shows in the log rows only. */
  function ChangeStep(s: State, a: SubscriptionApply, seen: Reading): State {
    if !Applies(s.books, a) then s
    else
      var books := Apply(s.books, a, seen);
      s.(books := books,
         drift := Bumped(s.drift, a.user, s.books.users[a.user].balance.Minus(books.users[a.user].balance)))
  }

  function Next(s: State, step: Step): State {
    match step
    case Load(user) => LoadStep(s, user)
    case Drop(user) => DropStep(s, user)
    case Hold(id, user, cost, policy, lastTry) => HoldStep(s, id, user, cost, policy, lastTry)
    case Settle(id, actual, policy) => SettleStep(s, id, actual, policy)
    case Refund(id) => RefundStep(s, id)
    case Send(id, queueUp) => SendStep(s, id, queueUp)
    case Redeliver(m) => RedeliverStep(s, m)
    case Deliver(m, acknowledged) => DeliverStep(s, m, acknowledged)
    case RelayEnqueue(row) => RelayEnqueueStep(s, row)
    case RelayMark(row) => RelayMarkStep(s, row)
    case Commit(req) => CommitStep(s, req)
    case CacheCredit(event) => CacheCreditStep(s, event)
    case ChangeSubscription(a, seen) => ChangeStep(s, a, seen)
  }

  function Run(s: State, steps: seq<Step>): State
    decreases |steps|
  {
    if steps == [] then s else Run(Next(s, steps[0]), steps[1..])
  }

  /** A start: any user balances, nothing cached, nothing in flight, empty tables and queues. */
  ghost predicate Initial(s: State) {
    && s.books.billingLogs == [] && s.books.transactions == [] && s.books.balanceLogs == []
    && s.cache.Keys == s.owed.Keys == s.crediting.Keys == s.drift.Keys == s.books.users.Keys
    && (forall u :: u in s.cache ==> s.cache[u] == NO_KEYS)
    && (forall u :: u in s.owed ==> s.owed[u] == s.crediting[u] == s.drift[u] == ZERO)
    && s.requests == map[] && s.queue == multiset{} && s.rows == [] && s.relayed == {} && s.uncached == map[]
  }
}
