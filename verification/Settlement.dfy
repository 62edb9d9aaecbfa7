/** Finalising a request: return or collect the difference in the cache, then hand the billing
    message to the queue, or to the outbox when the queue is down. */
module Settlement {
  import opened Money
  import opened CacheScripts
  import opened Books
  import opened Relay

  /** What Settle's script does to the keys: more held than used is refunded, less is collected. */
  function SettledKeys(keys: Keys, m: Message, policy: Policy): Keys {
    var diff := m.recorded - m.actual;
    if diff > 0 then AfterRefund(keys, diff, m.hold)
    else if diff < 0 then AfterCompensate(keys, -diff, policy)
    else keys
  }

  /** A refund is a settlement at zero cost; one of nothing is dropped without a message. */
  function RefundMessage(m: Message, amount: int): Message {
    m.(recorded := amount, actual := 0)
  }

  datatype Dispatch = Dispatch(queue: multiset<Message>, rows: seq<OutboxRow>)

  function Sent(d: Dispatch, m: Message, queueUp: bool): Dispatch {
    if queueUp then d.(queue := d.queue + multiset{m})
    else if m.id != "" then d.(rows := Inserted(d.rows, m))
    else d
  }

  /** Each key is higher by the hold's part of its pool. */
  predicate HoldReturned(before: Keys, hold: Pools, after: Keys) {
    && before.Complete() && after.Complete()
    && after.sub.value == before.sub.value + hold.sub
    && after.grant.value == before.grant.value + hold.grant
    && after.cash.value == before.cash.value + hold.cash
  }

  /** The message is in the queue once more, or, if the queue is down, in the outbox, unless it has no id or its
      id is there already; nothing else is sent. */
  predicate SentOnce(before: Dispatch, m: Message, queueUp: bool, after: Dispatch) {
    if queueUp then after.queue == before.queue + multiset{m} && after.rows == before.rows
    else
      && after.queue == before.queue
      && after.rows == if m.id == "" || InOutbox(before.rows, m.id) then before.rows
                       else before.rows + [OutboxRow(m.id, m, 0, false)]
  }

  lemma GivesTheHold(recorded: int, hold: Pools)
    requires hold.NonNegative() && (recorded == hold.Total() || hold == ZERO)
    ensures GiveBack(recorded, hold) == hold
  {
    if hold == ZERO {
      NothingHeld(recorded);
    } else {
      GiveBackAll(hold);
    }
  }

  lemma Raised(keys: Keys, hold: Pools, given: Pools)
    requires keys.Complete() && given == hold
    ensures HoldReturned(keys, hold, Shift(keys, given))
  {
  }

  lemma SettledAtNothing(keys: Keys, m: Message, policy: Policy)
    requires keys.Complete() && m.hold.NonNegative() && m.actual == 0 < m.recorded
    requires m.recorded == m.hold.Total() || m.hold == ZERO
    ensures HoldReturned(keys, m.hold, SettledKeys(keys, m, policy))
  {
    var given := GiveBack(m.recorded, m.hold);
    assert SettledKeys(keys, m, policy) == Shift(keys, given);
    GivesTheHold(m.recorded, m.hold);
    Raised(keys, m.hold, given);
  }

  /** A full refund returns the hold, pool by pool, and its message bills nothing. */
  lemma RefundReturnsHold(keys: Keys, m: Message, amount: int)
    requires keys.Complete() && m.hold.NonNegative() && 0 < amount == m.hold.Total()
    ensures HoldReturned(keys, m.hold, SettledKeys(keys, RefundMessage(m, amount), AllPools))
  {
    RefundBillsNothing(m, amount);
    SettledAtNothing(keys, RefundMessage(m, amount), AllPools);
  }

  lemma RefundBillsNothing(m: Message, amount: int)
    ensures RefundMessage(m, amount) == Message(m.id, m.user, amount, m.hold, 0)
    ensures Shares(RefundMessage(m, amount)) == ZERO
  {
  }

  class SettlementService {
    const keys: BalanceKeys
    const relay: SettlementRelay

    constructor (keys: BalanceKeys, relay: SettlementRelay)
      ensures this.keys == keys && this.relay == relay
    {
      this.keys, this.relay := keys, relay;
    }

    function Outgoing(): Dispatch
      reads relay
    {
      Dispatch(relay.queue, relay.rows)
    }

    method Send(m: Message, queueUp: bool) returns (kept: bool)
      modifies relay
      ensures Outgoing() == Sent(old(Outgoing()), m, queueUp)
      ensures SentOnce(old(Outgoing()), m, queueUp, Outgoing())
      ensures kept <==> queueUp || m.id != ""
    {
      var ok := relay.Enqueue(m, queueUp);
      if ok {
        return true;
      }
      if m.id != "" {
        relay.InsertSettlementOutbox(m);
        return true;
      }
      return false;
    }

    /** Settle. The result tells whether the message was kept for delivery. */
    method Settle(m: Message, policy: Policy, queueUp: bool) returns (kept: bool)
      modifies keys, relay
      ensures keys.View() == SettledKeys(old(keys.View()), m, policy)
      ensures Outgoing() == Sent(old(Outgoing()), m, queueUp)
      ensures kept <==> queueUp || m.id != ""
    {
      var diff := m.recorded - m.actual;
      if diff > 0 {
        keys.RefundScript(diff, m.hold);
      } else if diff < 0 {
        var _ := keys.CompensateScript(-diff, policy);
      }
      kept := Send(m, queueUp);
    }

    /** Refund of a whole hold. */
    method Refund(amount: int, m: Message, queueUp: bool)
      modifies keys, relay
      ensures amount <= 0 ==> keys.View() == old(keys.View()) && Outgoing() == old(Outgoing())
      ensures amount > 0 ==>
        && keys.View() == SettledKeys(old(keys.View()), RefundMessage(m, amount), AllPools)
        && Outgoing() == Sent(old(Outgoing()), RefundMessage(m, amount), queueUp)
      ensures m.hold.NonNegative() && 0 < amount == m.hold.Total() && old(keys.View()).Complete() ==>
        HoldReturned(old(keys.View()), m.hold, keys.View())
      ensures amount > 0 ==>
        var sent := Message(m.id, m.user, amount, m.hold, 0);
        Shares(sent) == ZERO && SentOnce(old(Outgoing()), sent, queueUp, Outgoing())
    {
      if amount <= 0 {
        return;
      }
      if keys.View().Complete() && m.hold.NonNegative() && amount == m.hold.Total() {
        RefundReturnsHold(keys.View(), m, amount);
      }
      RefundBillsNothing(m, amount);
      keys.RefundScript(amount, m.hold);
      var _ := Send(m.(recorded := amount, actual := 0), queueUp);
    }
  }

  /** Redis charges what the worker posts: on a hold of the recorded amount that covers the cost, the
      keys end up lower by exactly the shares of the billing message, whatever else moved them. */
  lemma SettledHoldChargesItsShares(keys: Keys, m: Message, policy: Policy, later: Pools)
    requires keys.Complete() && m.hold.NonNegative() && 0 <= m.actual <= m.recorded == m.hold.Total()
    ensures SettledKeys(Shift(Shift(keys, ZERO.Minus(m.hold)), later), m, policy) == Shift(keys, later.Minus(Shares(m)))
  {
    var given := GiveBack(m.recorded - m.actual, m.hold);
    RefundSplitDuality(m.actual, m.hold);
    ShiftKept(keys, m.hold, later, given, Shares(m));
    if m.actual == m.recorded {
      GiveBackNothing(m.hold);
    }
  }

  lemma GiveBackNothing(hold: Pools)
    ensures GiveBack(0, hold) == ZERO
  {
  }

  lemma ShiftKept(keys: Keys, hold: Pools, later: Pools, given: Pools, kept: Pools)
    requires keys.Complete() && hold.Minus(given) == kept
    ensures Shift(Shift(Shift(keys, ZERO.Minus(hold)), later), given) == Shift(keys, later.Minus(kept))
    ensures Shift(Shift(Shift(keys, ZERO.Minus(hold)), later), ZERO) == Shift(Shift(keys, ZERO.Minus(hold)), later)
  {
    ShiftAdds(keys, ZERO.Minus(hold), later);
    ShiftAdds(keys, later.Minus(hold), given);
    assert ZERO.Minus(hold).Plus(later) == later.Minus(hold);
    assert later.Minus(hold).Plus(given) == later.Minus(kept);
  }

  lemma CollectsTheExcess(keys: Keys, m: Message, policy: Policy)
    requires m.recorded < m.actual
    ensures SettledKeys(keys, m, policy) == Shift(keys, ZERO.Minus(UnderCharge(keys, m.actual - m.recorded, policy)))
  {
  }

  /** When the cost exceeds the hold, the excess the script can collect is a charge on the cache alone:
      the posted shares are the whole hold and never more. */
  lemma UnderChargeIsNeverPosted(keys: Keys, m: Message, policy: Policy)
    requires keys.Complete() && m.hold.NonNegative() && m.recorded == m.hold.Total() < m.actual
    ensures SettledKeys(keys, m, policy) == Shift(keys, ZERO.Minus(UnderCharge(keys, m.actual - m.recorded, policy)))
    ensures Shares(m) == m.hold
    ensures UnderCharge(keys, m.actual - m.recorded, policy).NonNegative()
    ensures keys.OrZero().NonNegative() ==>
              keys.OrZero().Minus(UnderCharge(keys, m.actual - m.recorded, policy)).NonNegative()
  {
    CollectsTheExcess(keys, m, policy);
    SplitAll(m.actual, m.hold);
    var excess := m.actual - m.recorded;
    GreedyPours(keys.OrZero(), excess, policy);
    SpendableIsNonNegative(keys.OrZero(), policy);
    PouredWithin(excess, Spendable(keys.OrZero(), policy));
    if keys.OrZero().NonNegative() {
      GreedyWithin(keys.OrZero(), excess, policy);
    }
  }
}
