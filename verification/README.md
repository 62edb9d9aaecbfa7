# Verification of the gateway's billing ledger and channel pool

A Dafny model of three parts of the AI gateway and proofs about them. `dafny verify dfyconfig.toml`
checks everything.

**The three-pool billing ledger.** A user's money lies in three pools, `sub`, `grant` and `cash`, kept
twice: as three optional Redis keys changed by Lua scripts, and as columns of a Postgres row changed
later by an at-least-once worker. `Money` holds the greedy arithmetic; `CacheScripts` the scripts, each a
method over three keys proved against a function on their values; `Books` and `Database` the tables and
their transactions; `Relay` and `Settlement` the queue, the outbox and the finalising of a request.
`Ledger` puts them together as a step machine over all users: every script, every database transaction,
every cache load and every queue operation is one step, so a run is any interleaving of them, with
redelivery, reordering, crashes before a commit, relay re-enqueues, evictions and reloads. The same
functions specify the methods and make up the steps; what each means is said once more without them, in the
source's own policy texts, directions, status codes, dates and amounts. `LedgerDelivery`, `Reconciliation` and
`LedgerInvariant` prove what every run keeps, and `LedgerConsequences` what follows for a loaded cache.
`HoldRuns` shows that a `PreDeduct` call is a run of it. `WorkerOverlap` takes the worker's check and commit
apart; a subscription change carries what it had read without a lock before its update, in the books and in
the ledger alike. `SecondFinalisation` says what it costs to finalise one hold twice.

Three histories ride along with the state and are read by no step except a load. `owed` is what holds
and unposted settlements still owe the database. `crediting` is what has been committed and not yet
cached. `drift` is the cache's lawful disagreement: a load makes it the outstanding total, an
under-charge lowers it by what the script collected, a refund that brings an absent key to life sets it,
and a subscription change moves it until the keys are dropped. The invariant is, per user, per pool and
per present key: cache + owed + crediting = database + drift.

**The channel pool.** `Breaker` is the circuit breaker of a channel against its own history, `RoundRobin`
the weighted choice over a shared counter, `ChannelPool` the walk that combines them, `Fallback` and
`FallbackProofs` the retrying transport, with other requests at work on the pool between any two of its
steps.

**Bounds and finalisation.** `Pricing` compares the estimate a request is held for with its bill,
`Charging` joins that to the scripts, `RateLimit` bounds the fixed-window limiter over any span of time,
`Finalisation` and `AsyncTasks` count how often a proxied request and an asynchronous task are settled
or refunded.

## Where a promise fails, and exactly when it holds

- A hold is exact if and only if the three keys are complete when `PreDeduct` comes or none is lost between
  its load and its retry. After the retry it checks for -1 alone, so a lost key gives a success with nothing
  held (`CacheScripts.PreDeductExactly`).
- `internal/billing/settlement.go:105` expects that the estimate never falls short. For non-negative prices
  and usage within the estimated prompt and completion that is so exactly when the multiplier is positive
  and neither cached price exceeds the input price, or the tokens are free (`Pricing.CoveredExactly`). A
  multiplier of zero or less counts as one at settlement but not in the estimate. For any usage at all no
  estimate suffices unless the tokens are free (`Pricing.AnyUsageCoveredExactly`), and nothing here keeps a
  reply within it: a request that names no limit is held for 4096 completion tokens, and a longer reply
  costs more (`Pricing.LongReplyUncovered`). Images on a model priced by tokens are held for their prompt and
  billed by the unit: every prompt covers them exactly when price times units times the settlement
  multiplier is below 1.5 and no negative multiplier meets a positive input price
  (`Pricing.ImageOnTokenModelExactly`).
- The audit "cash = opening + logged movements - posted cash" is off by the `sub` balances that subscription
  changes carried into cash beyond what they logged as moved, so it holds exactly when these add up to
  nothing (`BooksProofs.AuditReconcilesExactly`). Two things make them differ. A change reads `sub` without
  a lock and updates it later; a posting that commits in between makes the log say more than moved
  (`BooksProofs.AuditMissesStaleReading`). And a negative `sub` is carried unlogged: among changes that
  nothing overtook the audit holds exactly when none met one (`BooksProofs.AuditOfSerialChanges`), and a hold
  on `sub` that is posted after a renewal brings one about (`BooksProofs.AuditMissesLatePosting`).
- A loaded cache, once the user is settled again and nothing has moved the drift since, exceeds the database
  in each pool by what was outstanding in it at the load, and so equals it if and only if the outstanding
  amounts in that pool sum to zero (`LedgerConsequences.SettledCacheEqualsDatabase`,
  `LedgerConsequences.LoadInsideCreditCountsTwice`). A committed and uncached debit can cancel a hold in that
  sum; where there is none, the two are equal if and only if nothing waited in the pool at the load: no hold,
  no unposted share, no uncached credit (`LedgerConsequences.SettledCacheEqualsDatabaseExactly`).
- Returning the unused part of a hold to dropped keys creates them with that part as their whole value. They
  pass for a complete cache if and only if some of the hold on every pool is unused
  (`LedgerConsequences.RefundOntoDroppedKeys`).
- `internal/channel/circuit_breaker.go:79-80` promises one probe per cooldown. The walk checks every
  channel before it picks one, so it spends the probe of every channel that is due. A channel that is due
  stays refused exactly when it was not next in line for that request, or was, and the request ended without
  a report, as the task handler (`internal/api/gateway/async_tasks.go:95`) and the adapter and
  authentication exits of the retry loop always do; and until a report reaches it from a request that was
  given it earlier, or someone resets or probes it by hand (`ChannelPool.ProbeLostExactly`, with a witness in
  `ChannelPool.FirstOfTwoIsLost`).
- Every window of picks, the counter's wrap included, is fair exactly when the total weight divides 2^64
  (`RoundRobin.FairAcrossWrapExactly`). A single window that crosses the wrap may be fair all the same:
  exactly when the residues before the wrap meet each channel as often as the end of a round does
  (`RoundRobin.CrossingWindowExactly`).
- `internal/middleware/rate_limit.go:27` and line 45 call the 60 second window sliding and rolling. It is
  fixed: as long as no single increment exceeds the limit, a span of one window can see twice the limit less
  one request, and no more (`RateLimit.SpanBound`, `RateLimit.SpanBoundIsReached`); a larger increment is
  admitted when it opens a window (`RateLimit.OversizedFirstRequestAdmitted`). It keeps the sliding promise,
  for requests of one up to the limit, exactly when the window is one tick of the clock or the limit at most
  one (`RateLimit.SlidingExactly`).
- The task handlers guard with the row as they read it, so overlapping calls finalise a task twice, exactly
  when the later writer would have finalised what it read (`AsyncTasks.OverlapFinalisesAgainExactly`,
  `AsyncTasks.SettledAndRefunded`). Both scripts then move the cache, and the worker posts one message of the
  two, so the cache gains on the database exactly what the script of the other one gave back
  (`SecondFinalisation.SecondFinalisationGivesAway`).
- `billing_logs.request_id` has no unique index (`schema.sql:150`), so exactly-once posting rests on worker
  transactions for one message not overlapping. When they do, the message is charged once for each handler
  that commits and whose check precedes the first commit (`WorkerOverlap.OverlappingHandlersCharge`), and so
  rightly exactly when there is one such handler or the message charges nothing
  (`WorkerOverlap.ChargedOnceExactly`).
- `internal/proxy/reverse_proxy.go:82-84` wants the client's original values restored before every attempt. The
  loop puts back path, header and body, but not the URL query, which the Gemini adapter sets for streaming
  requests (`internal/provider/gemini/adapter.go:67`). All attempts of a trip start from the client's request
  if and only if none but the last is on a channel whose adapter changes the query of this request, or gives
  it a body where the client sent none (`FallbackProofs.AllStartFromClientExactly`). After a failed attempt
  on such a Gemini channel the next one, on an OpenAI channel, is sent with `alt=sse`
  (`FallbackProofs.GeminiThenOpenAI`).
- A settlement without a request id is charged again at each delivery
  (`PostingProofs.RedeliveryHarmlessExactly`).

`schema.sql:50` names the default billing policy `both`; the scripts know no such policy and treat it,
like any unknown text, as all pools. `docs/ai/subscription-3pool-design.md` is followed only where the
code does the same.

## Model

| member | source | states |
|---|---|---|
| `Money.GreedyCharacterised` | internal/billing/lua/pre_deduct.lua:25-51 | the three `take` calls yield the one amount that stays within the positive balances of the enabled pools, totals as much of the cost as there is, and touches a pool only when every earlier one is drained |
| `Money.GreedyIsExact` | internal/billing/lua/pre_deduct.lua:29-47 | whenever the policy's pools sum to the cost, the take is exactly the cost, even with a negative pool |
| `Money.GreedyWithin` | internal/billing/lua/compensate.lua:21-36 | a greedy take never makes a non-negative pool negative |
| `Money.TakenByText` | internal/billing/lua/pre_deduct.lua:25-51 | cash_only takes from cash alone, grant_only from sub and grant, any other text from all three, each pool giving what is still wanted as far as it has it |
| `Money.AvailableByText` | internal/billing/lua/pre_deduct.lua:29-35 | what a policy sees: cash, sub and grant, or all three, by its text |
| `Money.RefundSplitDuality` | internal/billing/lua/refund.lua:15-28 | what stays taken after the reverse-order give-back equals, pool by pool, what the worker's split charges |
| `Money.RefundSplitDualityExactly` | internal/worker/billing.go:33-51 | the same for any recorded amount: exactly which records and costs keep the two loops dual |
| `Money.SplitOfGreedy` | internal/worker/billing.go:33-51 | splitting a smaller cost over a greedy hold is the greedy take of that cost from the original balances |
| `Money.SplitActual3` | internal/worker/billing.go:33-51 | the closure's running remainder computes the greedy split, characterised without its steps |
| `Money.TakeFrom` | internal/worker/billing.go:35-46 | one call of the closure: the part taken and the remainder left |
| `CacheScripts.BalanceKeys.Take` | internal/billing/lua/pre_deduct.lua:38-47 | one `take`: amount, remainder and the one key it moves |
| `CacheScripts.BalanceKeys.IncrBy` | internal/billing/lua/refund.lua:22 | INCRBY creates an absent key at zero and touches no other key |
| `CacheScripts.BalanceKeys.Give` | internal/billing/lua/refund.lua:16-24 | one `give`: remainder and the one key it moves or creates |
| `CacheScripts.BalanceKeys.PreDeductScript` | internal/billing/lua/pre_deduct.lua:7-52 | status and keys on a missing key, too little balance, and success |
| `CacheScripts.BalanceKeys.RefundScript` | internal/billing/lua/refund.lua:7-29 | cash, then grant, then sub, each at most its hold |
| `CacheScripts.BalanceKeys.CompensateScript` | internal/billing/lua/compensate.lua:7-36 | takes what the balances allow, absent keys read as zero, the rest written off |
| `CacheScripts.BalanceKeys.CreditScript` | internal/billing/lua/credit_cache.lua:8-11 | a relative change to a present key only |
| `CacheScripts.BalanceKeys.Sync` | internal/billing/redis.go:51-65 | all three keys overwritten |
| `CacheScripts.BalanceKeys.Drop` | internal/billing/subscription.go:135-138 | all three keys gone |
| `CacheScripts.BalanceKeys.PreDeduct` | internal/billing/deduct.go:34-94 | miss, load, one retry and its outcome; by the text of the policy, a hold takes only from the pools it names and is made on complete keys if and only if they hold the cost together |
| `CacheScripts.HoldByText` | internal/billing/deduct.go:39-82 | the same for every policy text, whether decided on the cached keys, on a loaded row, or on a row that lost a key again |
| `CacheScripts.BalanceKeys.Evict` | internal/billing/deduct.go:58-68 | any of the keys may be gone again between the load and the retry |
| `CacheScripts.PreDeductExactAndGreedy` | internal/billing/lua/pre_deduct.lua:25-52 | on complete keys a hold succeeds exactly when the policy's pools hold the cost, then takes exactly the cost, greedily and within the policy; a failure changes nothing |
| `CacheScripts.HoldExactOnlyOnCompleteKeys` | internal/billing/deduct.go:58-80 | a reported hold equals the cost if and only if the keys were complete at the last look; otherwise nothing is held |
| `CacheScripts.PreDeductExactly` | internal/billing/deduct.go:58-80 | in terms of the call: the hold equals the cost if and only if the keys were complete or none was lost before the retry |
| `CacheScripts.FullRefundRestores` | internal/billing/settlement.go:58-66 | a full refund undoes a hold on every pool whatever moved the balances in between |
| `CacheScripts.ScriptAccounts` | internal/billing/lua/credit_cache.lua:8-11 | a script moves exactly what it spends and credits, and makes a balance negative only as a debit above the cached pool |
| `CacheScripts.NoOverspend` | internal/billing/lua/pre_deduct.lua:37-47 | over every interleaving of scripts without debits no pool goes negative, so net spending stays within balance plus credits |
| `BooksProofs.RealMoneyConserved` | internal/db/billing_queries.go:110-129 | over any run of postings, top-ups, debits and subscription changes sub + cash is opening + paid + signed cash movements - posted sub and cash; only grant is forfeited, by what each change found |
| `Books.TransactByText` | internal/api/webhook/processor.go:58-181 | the status of every request, and after a top-up the named pool higher by a credit or lower by a debit, every other pool and user as before, with the entry and the log that say so |
| `Books.ApplyChanges` | internal/billing/subscription.go:54-129 | a change is made for every known user whose event is not recorded: sub and grant replaced, the sub balance in cash, and the rows by what had been read |
| `Books.OvertakenChanges` | internal/billing/subscription.go:54-129 | whatever others commit in between, which state each reading and the update of a change see |
| `BooksProofs.AuditReconcilesExactly` | internal/billing/subscription.go:113-129 | whatever the changes had read, the cash balance is off its logs by the sub carried beyond what was logged as moved, so the logs explain it if and only if that adds up to nothing |
| `BooksProofs.AuditOfSerialChanges` | internal/billing/subscription.go:113-129 | among changes that nothing overtook they do if and only if none carried a negative sub |
| `BooksProofs.AuditMissesStaleReading` | internal/db/billing_queries.go:112-124 | a posting between reading and update makes them fall short by what it took from sub, with no negative balance anywhere |
| `BooksProofs.AuditMissesLatePosting` | internal/billing/subscription.go:113-129 | a reachable run without overlap, from any opening, in which they do not |
| `BooksProofs.EventsEnterOnce` | schema.sql:280-281 | in every run each non-empty event id enters the ledger at most once and never leaves |
| `BooksProofs.ReplayedEventVanishes` | internal/api/webhook/processor.go:76-87 | a recorded event delivered again at any point of any run changes nothing at all |
| `PostingProofs.DeliveriesBillOnce` | internal/worker/billing.go:74-109 | after any delivery sequence each user's pools are the start less the shares of each newly billed request, once |
| `PostingProofs.DeliveryOrderIrrelevant` | internal/worker/billing.go:53-85 | two sequences carrying the same set of messages, in any order with any duplicates, leave the same balances and bill the same ids |
| `PostingProofs.RunKeepsLogsUnique` | internal/worker/billing.go:74-85 | every run keeps at most one log for each non-empty request id, and appends only |
| `PostingProofs.RedeliveryHarmlessExactly` | internal/worker/billing.go:74-85 | a second delivery changes no balance if and only if the message has an id or charges nothing |
| `WorkerOverlap.OverlappingHandlersCharge` | internal/worker/billing.go:74-144 | with check and commit apart, any interleaving of handlers charges once for each that commits and whose check precedes the first commit |
| `WorkerOverlap.ChargedOnceExactly` | schema.sql:150-155 | the balance is right if and only if there is exactly one such handler or nothing is charged |
| `WorkerOverlap.SerialHandlersPost` | internal/worker/billing.go:53-55 | handlers that do not overlap amount to the one-step posting |
| `WorkerOverlap.HandlersWithoutIdCharge` | internal/worker/billing.go:74-85 | without a request id every handler charges |
| `Database.Tables.HandleRecordBillingLog` | internal/worker/billing.go:56-150 | the handler's transaction is the posting of the message, and tells whether it billed |
| `Database.Tables.ChargeAndLog` | internal/worker/billing.go:90-139 | the three relative updates and the log row |
| `Database.Tables.ProcessTransaction` | internal/api/webhook/processor.go:55-202 | status of every request and the one pool, ledger entry and log it changes |
| `Database.Tables.ApplySubscription` | internal/billing/subscription.go:36-133 | old sub into cash, sub and grant overwritten by the update, ledger entry and logs by two earlier reads, with any transactions committed between reads and update, nothing for a known event |
| `Database.Tables.WriteChange` | internal/db/billing_queries.go:110-129 | the relative update and the rows that go by what was read |
| `Database.Tables.SweepExpiredSubscriptions` | internal/billing/subscription_expiry.go:38-71 | by dates and balances: every user past the date with sub or grant left and without that day's event is cleared, nobody else changes, and any user still expired had the event before the sweep |
| `Database.SweptByDate` | internal/db/billing_queries.go:61-67 | which rows a sweep clears and to what, from dates and balances alone |
| `Relay.PendingAscends` | internal/db/outbox_queries.go:17-23 | the pending list is exactly the unprocessed rows, oldest first |
| `Relay.RelayedRow` | internal/billing/outbox_relay.go:52-66 | a row keeps its message, is processed exactly if it was or was taken and marked, and counts refused attempts |
| `Relay.InsertsOnce` | internal/db/outbox_queries.go:5-15 | an insertion keeps every row, leaves one for the id, and keeps ids unique |
| `Relay.SettlementRelay.Enqueue` | internal/billing/outbox_relay.go:53-54 | the queue gains the message exactly when it is up |
| `Relay.SettlementRelay.InsertSettlementOutbox` | internal/db/outbox_queries.go:5-15 | insert unless the request id is there |
| `Relay.SettlementRelay.ListPending` | internal/db/outbox_queries.go:17-42 | the oldest hundred pending rows |
| `Relay.SettlementRelay.RelayRow` | internal/billing/outbox_relay.go:52-66 | enqueue, then mark; a refused row counts an attempt |
| `Relay.SettlementRelay.RelayBatch` | internal/billing/outbox_relay.go:51-66 | the loop over the rows: each row's fate, every other row untouched, what the queue gained |
| `Relay.SettlementRelay.DrainSettlementOutbox` | internal/billing/outbox_relay.go:41-70 | one pass changes exactly the batch, row by row as queue and mark allow, and the queue gains exactly the messages taken |
| `Relay.MarkedOnlyIfDelivered` | internal/billing/outbox_relay.go:52-64 | a row becomes processed only if the queue took its message |
| `Relay.FullDrainRemovesOldest` | internal/billing/outbox_relay.go:41-70 | with queue and marks up a pass removes exactly the oldest hundred pending rows, or all if there are fewer |
| `Relay.DrainsConverge` | internal/billing/outbox_relay.go:22-38 | k passes leave all but the oldest 100 k rows, so ceil(n/100) empty the outbox |
| `Settlement.SettlementService.Settle` | internal/billing/settlement.go:100-155 | refund or collect the difference, then queue, outbox, or lost without an id |
| `Settlement.SettlementService.Send` | internal/billing/settlement.go:127-155 | queue, else outbox, else lost, and never two of them; the result says whether the message was kept |
| `Settlement.SettlementService.Refund` | internal/billing/settlement.go:58-96 | a full refund raises each key by exactly the hold's part and sends one message with the same hold that bills nothing; none for no amount |
| `Settlement.RefundReturnsHold` | internal/billing/settlement.go:63-66 | each key is higher by the hold's part of its pool |
| `Settlement.RefundBillsNothing` | internal/billing/settlement.go:70-76 | the message has id, user and hold, records the amount, costs nothing and has no shares |
| `Settlement.SettledHoldChargesItsShares` | internal/billing/settlement.go:100-112 | the cache ends lower by exactly the shares of the billing message, whatever else moved it |
| `Settlement.UnderChargeIsNeverPosted` | internal/billing/settlement.go:113-125 | a cost above the hold: the collected excess stays in the cache, the posted shares are the whole hold |
| `LedgerDelivery.NoSettlementLostNorRepeated` | internal/billing/settlement.go:136-151 | in every reachable state a dispatched request is queued, in a pending outbox row or posted, a processed row's request is queued or posted, and a posted request has exactly one log, with its split shares |
| `LedgerDelivery.RunEntersBooks` | internal/worker/billing.go:64-144 | the books of any ledger run are those of its database transactions alone, in order |
| `LedgerDelivery.LedgerConservesMoney` | internal/worker/billing.go:87-109 | conservation and the exact audit condition over whole ledger runs |
| `LedgerDelivery.StepKeepsTrace` | internal/billing/outbox_relay.go:51-66 | every step keeps the trace of messages from dispatch to billing log |
| `LedgerDelivery.OutboxHoldsOnce` | internal/db/outbox_queries.go:5-15 | in every reachable state the outbox has at most one row for each request |
| `Reconciliation.SettleAgrees` | internal/billing/settlement.go:100-125 | settling keeps cache and database reconciled whichever way the difference goes, absent keys included |
| `Reconciliation.DeliverReconciles` | internal/worker/billing.go:87-109 | posting moves database and outstanding total by the same shares |
| `Reconciliation.RunReconciles` | internal/billing/deduct.go:84-94 | every run keeps every user reconciled |
| `LedgerInvariant.GivenIsReleased` | internal/billing/lua/refund.lua:15-28 | what the script gives back is what the request stops owing |
| `LedgerInvariant.CacheMatchesLedger` | internal/billing/settlement.go:100-125 | in every reachable state, per user and per present pool key: cache + owed + crediting = database + drift, with owed and crediting the sums over requests and credits in flight |
| `LedgerConsequences.DriftStays` | internal/billing/deduct.go:84-94 | no step moves a user's drift except a load, an under-charge, a refund onto a missing key and a subscription change |
| `LedgerConsequences.CacheAfterLoad` | internal/billing/deduct.go:84-94 | after a load and any run without a drifting step, each present pool exceeds the database by what was outstanding at the load less what is now |
| `LedgerConsequences.SettledCacheEqualsDatabase` | internal/billing/deduct.go:84-94 | once the user is settled again the excess is what was outstanding at the load, so cache equals database, pool by pool, if and only if the amounts outstanding in it added up to nothing |
| `LedgerConsequences.SettledCacheEqualsDatabaseExactly` | internal/billing/deduct.go:84-94 | where no debit of the pool was uncached at the load, cache equals database in it if and only if no hold, no unposted share and no uncached credit waited in it |
| `LedgerConsequences.RefundsRestore` | internal/billing/lua/refund.lua:15-28 | over any interleaving of holds and refunds of any users, cache plus what is owed stays the same, and once every new hold is refunded every pool is back where it was |
| `LedgerConsequences.RefundStepReturnsHold` | internal/billing/settlement.go:58-96 | in every reachable state a refund raises the user's keys by exactly the hold and nobody else's, and sends one message that bills nothing |
| `HoldRuns.PreDeductIsARun` | internal/billing/deduct.go:34-82 | the steps of one call, whether the keys were complete, were loaded, or were lost again, leave the keys as the call does and a request that holds what it reports, or none |
| `LedgerConsequences.CommitCredits` | internal/api/webhook/processor.go:115-209 | a committed top-up waits for the cache with the pool it names and the sign of its direction |
| `LedgerConsequences.LoadInsideCreditCountsTwice` | internal/api/webhook/processor.go:200-209 | a load between commit and cache credit leaves the pool, in every run that ends settled, too high by exactly the credit on top of what was outstanding before it |
| `LedgerConsequences.RefundOntoDroppedKeys` | internal/billing/lua/refund.lua:16-24 | settling or refunding onto dropped keys leaves the unused part of the hold as their value, complete if and only if the hold is unused in part on every pool |
| `Charging.HoldThenSettleChargesOutright` | internal/middleware/auth.go:172-197 | priced by tokens on sound prices or by request at a positive multiplier, holding the estimate and settling amounts to taking the actual cost greedily from the starting balances, in cache and message alike |
| `Breaker.Breakers.IsCircuitBlocked` | internal/channel/circuit_breaker.go:81-108 | the answer and the one transition a check can cause |
| `Breaker.Breakers.GetOrCreate` | internal/channel/circuit_breaker.go:51-62 | a closed entry for an unknown channel, every other entry untouched |
| `Breaker.Breakers.MarkChannelFailed` | internal/channel/circuit_breaker.go:111-129 | count, time, end of probe, opening |
| `Breaker.Breakers.MarkChannelSucceeded` | internal/channel/circuit_breaker.go:132-150 | closing |
| `Breaker.Breakers.ResetCircuitBreaker` | internal/channel/circuit_breaker.go:153-169 | closing, and nothing for an unknown channel |
| `Breaker.Breakers.ProbeChannel` | internal/channel/circuit_breaker.go:172-183 | half-open with no probe out and no failures |
| `Breaker.RefinesHistory` | internal/channel/circuit_breaker.go:81-183 | over every event sequence the entry is the one its history describes: failures since the last success, reset or manual probe, latest failure, tripped, probe out |
| `Breaker.RegistryRefinesHistories` | internal/channel/circuit_breaker.go:44-62 | in the registry each channel's entry depends on its own events only |
| `Breaker.ReachableEntries` | internal/channel/circuit_breaker.go:81-183 | closed means fewer than five failures, a probe out means half-open, open has a latest failure |
| `Breaker.BlockedExactly` | internal/channel/circuit_breaker.go:85-107 | over every history a check is refused if and only if the breaker tripped and its probe is out or the cooldown since the latest failure is not over |
| `Breaker.FiveFailuresRefuse` | internal/channel/circuit_breaker.go:22-25 | a channel that only failed is refused if and only if it failed five times or more, the last time less than thirty seconds ago |
| `Breaker.OpenStaysTripped` | internal/channel/circuit_breaker.go:90-107 | once open, only a success, reset or manual probe ends the alternation of cooldown and single probe |
| `Breaker.SingleProbe` | internal/channel/circuit_breaker.go:90-104 | of any number of checks on an open breaker exactly one passes, if one comes after the cooldown |
| `Breaker.ProbeOutRefusesAll` | internal/channel/circuit_breaker.go:103-104 | while the probe is out every check is refused, however late |
| `Breaker.ManualProbeUnlimited` | internal/channel/circuit_breaker.go:171-183 | after a manual probe every check passes |
| `RoundRobin.FairWindow` | internal/channel/manager.go:113-145 | as many consecutive picks as the total weight choose each channel exactly its weight times |
| `RoundRobin.FairOverall` | internal/channel/manager.go:113-145 | n picks choose it between floor(n/T) and floor(n/T) + 1 times its weight |
| `RoundRobin.FairAcrossWrapExactly` | internal/channel/manager.go:134 | with two or more channels all windows are fair, the wrap included, if and only if the total divides the counter's width |
| `RoundRobin.CrossingWindowExactly` | internal/channel/manager.go:134 | one window across the wrap is fair to a channel if and only if the last numbers before the wrap meet its range as often as the last residues of a round |
| `RoundRobin.OwnerIsUnique` | internal/channel/manager.go:134-141 | each residue belongs to one channel |
| `RoundRobin.Weight` | internal/channel/manager.go:147-152 | a weight counts as configured if it is positive, else as one |
| `RoundRobin.Owner` | internal/channel/manager.go:134-141 | each residue below the total lies in the range of the channel named |
| `ChannelPool.Manager.PickWeightedChannel` | internal/channel/manager.go:113-145 | the owner of the next counter value's residue, the counter untouched for a single candidate, the fall-through never reached |
| `ChannelPool.Manager.SumWeights` | internal/channel/manager.go:119-125 | the total of the effective weights |
| `ChannelPool.Manager.LoadChannels` | internal/channel/manager.go:32-43 | the list replaced, breakers and counter kept |
| `ChannelPool.Manager.ScanWeights` | internal/channel/manager.go:134-144 | the prefix-sum loop finds the residue's owner |
| `ChannelPool.Manager.Filter` | internal/channel/manager.go:85-104 | the walk keeps exactly the passing channels in order and checks every one not excluded |
| `ChannelPool.Manager.GetNextChannel` | internal/channel/manager.go:71-111 | choice, error, breakers and counter together; the channel given is of the pool, not excluded, suits the request and is let through by its breaker, and none is given only if there is no such channel |
| `ChannelPool.EligibleExactly` | internal/channel/manager.go:85-104 | the candidates are exactly the channels that pass, without repetition |
| `ChannelPool.NextPasses` | internal/channel/manager.go:106-110 | a choice passes, and there is one whenever any channel passes |
| `ChannelPool.ChosenMayServe` | internal/channel/manager.go:85-110 | the same in plain terms of exclusion, needs and breaker state |
| `ChannelPool.WalkChecks` | internal/channel/manager.go:85-92 | a request sends out the probe of every open channel past its cooldown that it does not exclude, and changes no other breaker |
| `ChannelPool.CounterMoves` | internal/channel/manager.go:113-134 | the counter moves, and wraps at 2^64, if and only if two channels may serve the request |
| `ChannelPool.RequestsArePicks` | internal/channel/manager.go:106-135 | consecutive requests that find the same candidates advance the counter and are served as its picks are |
| `ChannelPool.RequestsAreFair` | internal/channel/manager.go:113-145 | as many of them as the total weight give each channel exactly its weight, reports in between notwithstanding |
| `ChannelPool.WalkSpendsProbes` | internal/channel/manager.go:86-92 | the walk sends out the probe of every due channel it does not exclude, suitable or not |
| `ChannelPool.PickedExactly` | internal/channel/manager.go:106-145 | a request picks a channel if and only if it is the only candidate or owns the next counter value's residue |
| `ChannelPool.ProbeOutExactly` | internal/channel/circuit_breaker.go:90-104 | a due channel's probe is out after a request if and only if it was not next in line or its request was not reported |
| `ChannelPool.ProbeLostExactly` | internal/channel/circuit_breaker.go:90-104 | it is refused at every later point, by any number of requests, exactly then and as long as no other report, reset or manual probe reaches it |
| `ChannelPool.LostIsSkipped` | internal/channel/circuit_breaker.go:103-104 | while it is lost no request is given the channel |
| `ChannelPool.FirstOfTwoIsLost` | internal/channel/manager.go:85-110 | a pool of two due channels in which the second is picked and succeeds and the first is lost |
| `Fallback.HttpRequest.Rewrite` | internal/proxy/reverse_proxy.go:164-213 | adapter, base URL and authentication in place, query included, with their three failures |
| `Fallback.PreparedFor` | internal/proxy/reverse_proxy.go:164-213 | what a channel is sent: the adapter's request at the channel's host and path, without the client's credentials, signed with the channel's |
| `Fallback.JoinedPath` | internal/proxy/reverse_proxy.go:191-202 | neither /v1 nor the slash is doubled between base and path |
| `Fallback.HttpRequest.Restore` | internal/proxy/reverse_proxy.go:106-111 | path and header put back, the body if the client sent one, the query left as found |
| `Fallback.FallbackTransport.Choose` | internal/proxy/reverse_proxy.go:138-159 | an untried channel, else any |
| `Fallback.ChoiceServes` | internal/proxy/reverse_proxy.go:138-159 | an untried channel that may serve, else any that may by then, and none only if there is none |
| `Fallback.FallbackTransport.Aim` | internal/proxy/reverse_proxy.go:106-213 | the request, restored but for its query, is rewritten for the channel chosen |
| `Fallback.FallbackTransport.Report` | internal/proxy/reverse_proxy.go:176-247 | what each way an attempt can end does to breaker and reply |
| `Fallback.FallbackTransport.TakeTurn` | internal/proxy/reverse_proxy.go:92-247 | one pass of the loop from the request as found to the report and to the request as left |
| `Fallback.FallbackTransport.RoundTrip` | internal/proxy/reverse_proxy.go:69-250 | the loop performs the whole trip: attempts, pool and reply, with the query carried from each attempt to the next |
| `FallbackProofs.TripIsChained` | internal/proxy/reverse_proxy.go:92-247 | at most MaxRetries + 1 attempts, each starting from the pool its predecessor left plus other traffic and from the request it left as the loop restores it, having tried exactly the earlier channels, all of which reported a failure |
| `FallbackProofs.AttemptsRestored` | internal/proxy/reverse_proxy.go:84-111 | every attempt sends what the client's path and header, and body if there is one, make for its channel, with the query it found |
| `FallbackProofs.TripCarriesRequest` | internal/proxy/reverse_proxy.go:106-111 | the first attempt starts from the client's request and every later one from what the loop restores of the one its predecessor left |
| `FallbackProofs.NextFinds` | internal/proxy/reverse_proxy.go:106-111 | what an attempt finds of one that was sent: the client's path, header and body, and the query as sent |
| `FallbackProofs.AllStartFromClientExactly` | internal/proxy/reverse_proxy.go:82-111 | all attempts start from the client's request if and only if none but the last is on a channel whose adapter changes its query, or gives it a body where the client sent none |
| `FallbackProofs.QueryLeaks` | internal/provider/gemini/adapter.go:65-69 | after a first attempt on the channel that writes the query, an attempt on another sends it, whatever the client's was |
| `FallbackProofs.GeminiThenOpenAI` | internal/provider/gemini/adapter.go:65-69 | a pool of one channel each in which this happens, for every client's request |
| `FallbackProofs.ReuseOnlyWhenExhausted` | internal/proxy/reverse_proxy.go:138-159 | a tried channel is used again only if no untried one passed |
| `FallbackProofs.OneReportPerAttempt` | internal/proxy/reverse_proxy.go:178-249 | every attempt's one report, the last one's included when all retries are exhausted, and nothing else of this trip, is in the pool the trip ends with; no report without an attempt |
| `FallbackProofs.AttemptsDecide` | internal/proxy/reverse_proxy.go:220-247 | in status codes: an attempt that met a transport error, 429 or 500 and above reports a failure and is followed by the next turn, any other reports a success, is the last one and its status is the client's |
| `FallbackProofs.TripReplies` | internal/proxy/reverse_proxy.go:92-250 | what the client gets, however the trip ends |
| `FallbackProofs.SuccessIsTheReply` | internal/proxy/reverse_proxy.go:229-249 | the client gets a good reply if and only if the last attempt reported a success, and then it is that one's |
| `FallbackProofs.AttemptsDiffer` | internal/proxy/reverse_proxy.go:138-159 | with as many steady suitable channels as turns, left alone by failures elsewhere, all attempts use different channels and never run out of them |
| `Pricing.EstimateDominates` | internal/proxy/pricing.go:30-67 | priced by tokens, on sound prices no usage within its estimate is billed more than was held |
| `Pricing.LimitedReplyCovered` | internal/middleware/auth.go:107-110 | a request that names a limit is covered for every reply within it |
| `Pricing.CoveredExactly` | internal/middleware/auth.go:172-185 | every usage within the estimated prompt and completion is covered if and only if the price list is sound |
| `Pricing.AnyUsageCoveredExactly` | internal/billing/settlement.go:104-106 | a hold, whatever its estimate, covers every non-negative usage if and only if all token prices are zero |
| `Pricing.LongReplyUncovered` | internal/middleware/auth.go:107-110 | on a sound price list a reply longer than the default of 4096 tokens costs more than its hold |
| `Pricing.RequestCoveredExactly` | internal/proxy/pricing.go:39-43 | priced by request, whatever the type and usage, every number of units is covered exactly when the multiplier is positive or the price zero |
| `Pricing.ImageOnTokenModelExactly` | internal/proxy/pricing.go:39-43 | an image on a model priced by tokens is covered for every prompt exactly when price times units times the settlement multiplier is below 1.5 and no negative multiplier meets a positive input price |
| `Pricing.RoundBelowCeil` | internal/utils/pricing.go:8-19 | rounding a smaller base never exceeds rounding up a larger one |
| `Pricing.BilledByKind` | internal/proxy/pricing.go:45-63 | which tokens are billed at which price, with and without a cache breakdown |
| `Pricing.ScaledAmounts` | internal/utils/pricing.go:8-19 | the estimate is the least whole amount not below the scaled base, the bill the nearest |
| `Pricing.WholePart` | internal/middleware/auth.go:178 | the division drops the fraction towards zero |
| `RateLimit.LimitKey.Check` | internal/middleware/lua/rate_limit.lua:6-22 | the answer and the key, expiry included |
| `RateLimit.SpanBound` | internal/middleware/lua/rate_limit.lua:11-22 | in any span of one window at most twice the limit less the least increment, for every call sequence |
| `RateLimit.LifetimeBound` | internal/middleware/lua/rate_limit.lua:11-22 | at most the limit in one key lifetime |
| `RateLimit.SpanBoundIsReached` | internal/middleware/lua/rate_limit.lua:11-22 | the bound is reached for every limit and window of at least two |
| `RateLimit.SlidingExactly` | internal/middleware/lua/rate_limit.lua:11-22 | every span of one window stays within the limit, for requests of one up to the limit, if and only if the window is one tick or the limit at most one |
| `RateLimit.OversizedFirstRequestAdmitted` | internal/middleware/lua/rate_limit.lua:11-16 | an increment above the limit passes when it opens a window |
| `Finalisation.TallyReader.Read` | internal/proxy/tally_reader.go:48-59 | the reader has settled exactly what its history of reads and closes calls for |
| `Finalisation.TallyReader.Close` | internal/proxy/tally_reader.go:146-149 | the same for a close |
| `Finalisation.TallyReader.TriggerComplete` | internal/proxy/tally_reader.go:151-159 | the callback runs once |
| `Finalisation.ModifyResponse` | internal/proxy/reverse_proxy.go:285-553 | which exit refunds, settles or wraps the body, by status, kind and readability |
| `Finalisation.Serve` | internal/proxy/reverse_proxy.go:285-624 | a whole exchange settles or refunds exactly as its exit and the events on its body say, a plain reply at its usage |
| `Finalisation.ExitsServe` | internal/proxy/reverse_proxy.go:337-553 | settled if and only if answered with 200 and a readable plain body or a stream read to its end or closed; refunded if and only if something was held and the exchange failed, had another status or an unreadable plain body |
| `Finalisation.CountedExactly` | internal/proxy/tally_reader.go:48-59 | the usage in force is that of the last read that counted anything |
| `Finalisation.StreamSettlesAt` | internal/proxy/tally_reader.go:151-159 | a stream settles at the usage counted last up to the event that first ends it |
| `Finalisation.BodySettlesOnce` | internal/proxy/tally_reader.go:151-159 | a body settles once if it was read to its end or closed, else never, with the usage at that moment, and nothing later changes it |
| `Finalisation.FinalisedOnce` | internal/proxy/reverse_proxy.go:337-350 | over every exit and every order of reads and closes at most one finalisation, and exactly when there is one |
| `AsyncTasks.TaskRow.constructor` | internal/api/gateway/async_tasks.go:33-157 | every outcome of a submission |
| `AsyncTasks.CreatedAsSubmitted` | internal/api/gateway/async_tasks.go:88-157 | a refused submission ends failed and refunded if anything was held, an accepted one with the status it came with, settled or refunded at once if that ends it |
| `AsyncTasks.CallsAsCalled` | internal/api/gateway/async_tasks.go:190-299 | over any run of calls, which status and cost each poll or cancellation leaves and what it settles or refunds |
| `AsyncTasks.TaskRow.FinalizeTerminalTask` | internal/api/gateway/async_tasks.go:310-370 | settle or refund by status and stored cost |
| `AsyncTasks.TaskRow.FailTaskAndRefund` | internal/api/gateway/async_tasks.go:372-396 | failed, and refunded if anything was held |
| `AsyncTasks.TaskRow.GetTask` | internal/api/gateway/async_tasks.go:159-299 | a poll's effect, given the row as the handler read it |
| `AsyncTasks.TaskRow.CancelTask` | internal/api/gateway/async_tasks.go:190-259 | a cancellation's effect, refused or not |
| `AsyncTasks.TaskFinalisedOnce` | internal/api/gateway/async_tasks.go:212-256 | over any create, get and cancel calls taken as atomic a task is settled or refunded once if terminal and never otherwise, and terminal is absorbing |
| `AsyncTasks.OverlapFinalisesAgainExactly` | internal/api/gateway/async_tasks.go:261-299 | a handler that reads a task, lets any calls pass and then writes finalises it exactly when it would have alone, so twice exactly when the others had finalised it |
| `AsyncTasks.SettledAndRefunded` | internal/api/gateway/async_tasks.go:212-256 | the overlap of a poll and a cancellation that settles and refunds one hold |
| `SecondFinalisation.FirstDeliveryCharges` | internal/worker/billing.go:74-85 | of two messages with one id, delivered in any order any number of times, only the first one delivered charges |
| `SecondFinalisation.SecondFinalisationGivesAway` | internal/api/gateway/async_tasks.go:310-352 | a hold finalised twice moves the cache against the database by exactly what the script of the message not posted gave back, nothing if and only if that one charged the whole hold |
| `SecondFinalisation.SettledAndRefundedCosts` | internal/api/gateway/async_tasks.go:210-256 | settled and refunded, a hold costs nothing in the cache, and in the database all of it or nothing, as the settlement is delivered first or not |

## Left out

- Failures beyond those named: script, database and marshalling errors, a failed outbox insert, the queue archiving a task after its retries, `sub` of a task read as zero after an error.
- The non-transactional pipeline of `SyncUserBalanceCache` and the read before a load: a cache load is one step.
- `Ledger`: a request is finalised once; the second finalisation that overlapping task handlers can make is in `SecondFinalisation`, on complete keys.
- `Ledger`: request ids are non-empty and fresh, as `uuid` makes them; the case of an empty id is in `PostingProofs` and `Settlement`.
- int64 overflow, and the rounding errors of float32 and float64 multipliers and webhook amounts: integers are unbounded and multipliers exact reals.
- `Database.Tables.ApplySubscription`: leaves out the remark, source and type texts. A subscription entry's paid and grant parts, carried and forfeited amounts and the reading logged as moved are history fields, as are a billing log's shares: `transactions` and `billing_logs` have no such columns.
- `Database.Tables.SweepExpiredSubscriptions`: nothing else is committed during the sweep.
- `Books.Apply`: the readings of a change in a run of the books or the ledger are any values, those that some earlier state had among them.
- `Database.Tables.HandleRecordBillingLog`: check and commit are one step, taken apart in `WorkerOverlap`; leaves out the API key quota, which is counted outside the transaction.
- `Database.Tables.ProcessTransaction`: takes the text fields as already trimmed and lower-cased, and the amount as scaled; a trimmed-away field is `fieldsPresent == false`.
- The keys of expiry events are the pair of user and day instead of the text composed of them.
- `lastSuccessAt` and the health snapshot, which no decision reads.
- `ChannelPool.Manager.GetNextChannel`: model match, capabilities and asynchronous support are one uninterpreted predicate on channels. The branch for a total weight of zero cannot be reached, since every weight counts at least one, and is not written out.
- `Fallback.FallbackTransport.RoundTrip`: leaves out the backoff's length, the failure log, the request context and the content length, which the loop does not restore either but every adapter that writes a body sets; provider adapters are uninterpreted functions of channel and request, and the channel list is not reloaded during a trip.
- Token counting inside `TallyReader.processChunk`, which depends on how reads split the stream; a read brings a new count or none.
- `RateLimit.LimitKey.Check`: the clock is an argument, a key is gone from its expiry time on, and the limit does not change between calls.
- `AsyncTasks`: output, error and metadata payloads, and failing database writes.
- Model concurrency slots, `AdjustUserBalance`, partition dates, HTTP routing, admin, site and statistics handlers: I/O, or only easy additions.
