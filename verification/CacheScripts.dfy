/**
 The Redis side of one user's balance: three keys, each present or absent, and the atomic Lua
 scripts that change them. Every script is a method over the keys, proved against a function
 on their values; the lemmas below speak of those functions and of every interleaving of them.
 */
module CacheScripts {
  import opened Prelude
  import opened Money

  datatype Keys = Keys(sub: Option<int>, grant: Option<int>, cash: Option<int>) {
    predicate Complete() {
      sub.Some? && grant.Some? && cash.Some?
    }

    function Get(pool: Pool): Option<int> {
      match pool
      case Sub => sub
      case Grant => grant
      case Cash => cash
    }

    function Set(pool: Pool, key: Option<int>): Keys {
      match pool
      case Sub => this.(sub := key)
      case Grant => this.(grant := key)
      case Cash => this.(cash := key)
    }

    /** The balances with an absent key read as zero. */
    function OrZero(): Pools {
      Pools(sub.GetOr(0), grant.GetOr(0), cash.GetOr(0))
    }
  }

  const NO_KEYS := Keys(None, None, None)

  function KeysOf(balance: Pools): Keys {
    Keys(Some(balance.sub), Some(balance.grant), Some(balance.cash))
  }

  /** INCRBY or DECRBY, which creates an absent key at zero; not called for a zero amount. */
  function Moved(key: Option<int>, delta: int): Option<int> {
    if delta == 0 then key else Some(key.GetOr(0) + delta)
  }

  function Shift(keys: Keys, delta: Pools): Keys {
    Keys(Moved(keys.sub, delta.sub), Moved(keys.grant, delta.grant), Moved(keys.cash, delta.cash))
  }

  datatype Answer = Missing | Insufficient | Taken(pools: Pools)

  /** What pre_deduct.lua answers: statuses -2, -1 and 1. */
  function PreDeductAnswer(keys: Keys, cost: int, policy: Policy): Answer {
    if !keys.Complete() then Missing
    else if Available(keys.OrZero(), policy) < cost then Insufficient
    else Taken(Greedy(keys.OrZero(), cost, policy))
  }

  function AfterPreDeduct(keys: Keys, cost: int, policy: Policy): Keys {
    match PreDeductAnswer(keys, cost, policy)
    case Taken(taken) => Shift(keys, ZERO.Minus(taken))
    case _ => keys
  }

  function AfterRefund(keys: Keys, amount: int, hold: Pools): Keys {
    Shift(keys, GiveBack(amount, hold))
  }

  /** What compensate.lua takes: the balances are the floor, the rest is written off. */
  function UnderCharge(keys: Keys, amount: int, policy: Policy): Pools {
    Greedy(keys.OrZero(), amount, policy)
  }

  function AfterCompensate(keys: Keys, amount: int, policy: Policy): Keys {
    Shift(keys, ZERO.Minus(UnderCharge(keys, amount, policy)))
  }

  function AfterCredit(keys: Keys, pool: Pool, delta: int): Keys {
    match keys.Get(pool)
    case None => keys
    case Some(value) => keys.Set(pool, Some(value + delta))
  }

  datatype HoldOutcome = Held(pools: Pools) | InsufficientBalance | UserNotFound

  /** What the Go code makes of an answer on its last try: only -1 is turned into an error. */
  function HoldFrom(answer: Answer): HoldOutcome {
    match answer
    case Missing => Held(ZERO)
    case Insufficient => InsufficientBalance
    case Taken(taken) => Held(taken)
  }

  function Without(keys: Keys, evicted: set<Pool>): Keys {
    Keys(if Sub in evicted then None else keys.sub, if Grant in evicted then None else keys.grant,
         if Cash in evicted then None else keys.cash)
  }

  /** The keys a PreDeduct call decides on: the cached ones if complete, else the row loaded
      from the database, less the keys lost again before the retry. */
  function KeysDecidedOn(keys: Keys, row: Option<Pools>, evicted: set<Pool>): Keys {
    if keys.Complete() then keys else Without(KeysOf(row.GetOr(ZERO)), evicted)
  }

  /** A hold takes nothing from the pools that the policy's text leaves out. */
  predicate HeldWithinText(taken: Pools, text: string) {
    (text == "cash_only" ==> taken.sub == taken.grant == 0) && (text == "grant_only" ==> taken.cash == 0)
  }

  /** A hold decided on these balances: made if and only if the pools that the policy's text names hold the cost
      together, then of exactly the cost, and the keys are left with the balances less what is held. */
  predicate HeldOn(balance: Pools, cost: int, text: string, outcome: HoldOutcome, after: Keys) {
    && (outcome.Held? <==> cost <= if text == "cash_only" then balance.cash
                                   else if text == "grant_only" then balance.sub + balance.grant
                                   else balance.sub + balance.grant + balance.cash)
    && (outcome.Held? ==>
          && outcome.pools.sub + outcome.pools.grant + outcome.pools.cash == cost
          && after == Keys(Some(balance.sub - outcome.pools.sub), Some(balance.grant - outcome.pools.grant),
                           Some(balance.cash - outcome.pools.cash)))
    && (!outcome.Held? ==>
          outcome == InsufficientBalance
          && after == Keys(Some(balance.sub), Some(balance.grant), Some(balance.cash)))
  }

  /** The keys of a row that was loaded and lost some of them again. */
  predicate LoadedBut(row: Pools, evicted: set<Pool>, keys: Keys) {
    && keys.sub == (if Sub in evicted then None else Some(row.sub))
    && keys.grant == (if Grant in evicted then None else Some(row.grant))
    && keys.cash == (if Cash in evicted then None else Some(row.cash))
  }

  class BalanceKeys {
    var sub: Option<int>
    var grant: Option<int>
    var cash: Option<int>

    constructor (keys: Keys)
      ensures View() == keys
    {
      sub, grant, cash := keys.sub, keys.grant, keys.cash;
    }

    function View(): Keys
      reads this
    {
      Keys(sub, grant, cash)
    }

    /** Redis INCRBY (DECRBY with the negated amount). */
    method IncrBy(pool: Pool, delta: int)
      modifies this
      ensures View() == old(View()).Set(pool, Some(old(View()).Get(pool).GetOr(0) + delta))
    {
      match pool {
        case Sub => sub := Some(sub.GetOr(0) + delta);
        case Grant => grant := Some(grant.GetOr(0) + delta);
        case Cash => cash := Some(cash.GetOr(0) + delta);
      }
    }

    /** The scripts' local `take`: charge one pool and reduce the remainder. */
    method Take(pool: Pool, bal: int, enabled: bool, before: int) returns (t: int, rem: int)
      modifies this
      ensures t == PortionIf(enabled, bal, before) && rem == before - t
      ensures View() == old(View()).Set(pool, Moved(old(View()).Get(pool), -t))
    {
      rem := before;
      if !enabled || bal <= 0 || rem <= 0 {
        return 0, rem;
      }
      t := bal;
      if t > rem {
        t := rem;
      }
      IncrBy(pool, -t);
      rem := rem - t;
    }

    /** The refund script's local `give`. */
    method Give(pool: Pool, limit: int, before: int) returns (rem: int)
      modifies this
      ensures rem == before - Portion(limit, before)
      ensures View() == old(View()).Set(pool, Moved(old(View()).Get(pool), Portion(limit, before)))
    {
      rem := before;
      if limit <= 0 || rem <= 0 {
        return;
      }
      var t := limit;
      if t > rem {
        t := rem;
      }
      IncrBy(pool, t);
      rem := rem - t;
    }

    /** pre_deduct.lua */
    method PreDeductScript(cost: int, policy: Policy) returns (answer: Answer)
      modifies this
      ensures answer == PreDeductAnswer(old(View()), cost, policy)
      ensures View() == AfterPreDeduct(old(View()), cost, policy)
    {
      if !sub.Some? || !grant.Some? || !cash.Some? {
        return Missing;
      }
      var sp, gr, ca := sub.value, grant.value, cash.value;
      var avail := 0;
      if Uses(policy, Sub) {
        avail := avail + sp;
      }
      if Uses(policy, Grant) {
        avail := avail + gr;
      }
      if Uses(policy, Cash) {
        avail := avail + ca;
      }
      if avail < cost {
        return Insufficient;
      }
      var p, rem := Take(Sub, sp, Uses(policy, Sub), cost);
      var g, c;
      g, rem := Take(Grant, gr, Uses(policy, Grant), rem);
      c, rem := Take(Cash, ca, Uses(policy, Cash), rem);
      return Taken(Pools(p, g, c));
    }

    /** refund.lua */
    method RefundScript(amount: int, hold: Pools)
      modifies this
      ensures View() == AfterRefund(old(View()), amount, hold)
    {
      if amount <= 0 {
        return;
      }
      var rem := amount;
      rem := Give(Cash, hold.cash, rem);
      rem := Give(Grant, hold.grant, rem);
      rem := Give(Sub, hold.sub, rem);
    }

    /** compensate.lua */
    method CompensateScript(amount: int, policy: Policy) returns (taken: Pools)
      modifies this
      ensures taken == UnderCharge(old(View()), amount, policy)
      ensures View() == AfterCompensate(old(View()), amount, policy)
    {
      if amount <= 0 {
        return ZERO;
      }
      var sp, gr, ca := sub.GetOr(0), grant.GetOr(0), cash.GetOr(0);
      var p, rem := Take(Sub, sp, Uses(policy, Sub), amount);
      var g, c;
      g, rem := Take(Grant, gr, Uses(policy, Grant), rem);
      c, rem := Take(Cash, ca, Uses(policy, Cash), rem);
      return Pools(p, g, c);
    }

    /** credit_cache.lua */
    method CreditScript(pool: Pool, delta: int)
      modifies this
      ensures View() == AfterCredit(old(View()), pool, delta)
    {
      if View().Get(pool).Some? {
        IncrBy(pool, delta);
      }
    }

    /** SyncUserBalanceCache: overwrite all three keys. */
    method Sync(balance: Pools)
      modifies this
      ensures View() == KeysOf(balance)
    {
      sub, grant, cash := Some(balance.sub), Some(balance.grant), Some(balance.cash);
    }

    /** DEL of the three keys. */
    method Drop()
      modifies this
      ensures View() == NO_KEYS
    {
      sub, grant, cash := None, None, None;
    }

    /** The loss of single keys, to an eviction or to another client's DEL. */
    method Evict(evicted: set<Pool>)
      modifies this
      ensures View() == Without(old(View()), evicted)
    {
      sub := if Sub in evicted then None else sub;
      grant := if Grant in evicted then None else grant;
      cash := if Cash in evicted then None else cash;
    }

    /** PreDeduct: run the script; on a miss load the row and run it once more. `row` is the
        user's database row at the load, `evicted` the keys lost again between the load and the
        retry. */
    method PreDeduct(row: Option<Pools>, cost: int, policyText: string, evicted: set<Pool>)
      returns (outcome: HoldOutcome)
      modifies this
      ensures !old(View()).Complete() && row.None? ==> outcome == UserNotFound && View() == old(View())
      ensures old(View()).Complete() || row.Some? ==>
        var keys := KeysDecidedOn(old(View()), row, evicted);
        && outcome == HoldFrom(PreDeductAnswer(keys, cost, ParsePolicy(policyText)))
        && View() == AfterPreDeduct(keys, cost, ParsePolicy(policyText))
      ensures outcome.Held? ==> HeldWithinText(outcome.pools, policyText)
      ensures 0 <= cost && old(View()).Complete() ==> HeldOn(old(View()).OrZero(), cost, policyText, outcome, View())
      ensures 0 <= cost && !old(View()).Complete() && row.Some? && evicted == {} ==>
                HeldOn(row.value, cost, policyText, outcome, View())
      ensures !old(View()).Complete() && row.Some? && evicted != {} ==>
                outcome == Held(ZERO) && LoadedBut(row.value, evicted, View())
    {
      if View().Complete() || row.Some? {
        HoldByText(View(), row, cost, policyText, evicted);
      }
      var policy := ParsePolicy(policyText);
      var answer := PreDeductScript(cost, policy);
      if answer == Missing {
        if row.None? {
          return UserNotFound;
        }
        Sync(row.value);
        Evict(evicted);
        answer := PreDeductScript(cost, policy);
      }
      if answer == Insufficient {
        return InsufficientBalance;
      }
      return Held(if answer.Taken? then answer.pools else ZERO);
    }
  }

  lemma AnswerCases(keys: Keys, cost: int, policy: Policy)
    requires keys.Complete()
    ensures PreDeductAnswer(keys, cost, policy).Taken? <==> cost <= Available(keys.OrZero(), policy)
    ensures PreDeductAnswer(keys, cost, policy).Taken? ==>
              && PreDeductAnswer(keys, cost, policy).pools == Greedy(keys.OrZero(), cost, policy)
              && AfterPreDeduct(keys, cost, policy)
                  == Shift(keys, ZERO.Minus(PreDeductAnswer(keys, cost, policy).pools))
    ensures !PreDeductAnswer(keys, cost, policy).Taken? ==> AfterPreDeduct(keys, cost, policy) == keys
  {
  }

  /** The keys lost exactly these pools, which are the cost taken greedily within the policy. */
  predicate HeldExactly(keys: Keys, cost: int, policy: Policy, taken: Pools, after: Keys) {
    && taken.Total() == cost
    && IsGreedyTake(keys.OrZero(), cost, policy, taken)
    && after.Complete() && after.OrZero() == keys.OrZero().Minus(taken)
  }

  lemma ShiftDown(keys: Keys, taken: Pools)
    requires keys.Complete()
    ensures Shift(keys, ZERO.Minus(taken)).Complete()
    ensures Shift(keys, ZERO.Minus(taken)).OrZero() == keys.OrZero().Minus(taken)
  {
  }

  lemma GreedyHoldIsExact(keys: Keys, cost: int, policy: Policy, taken: Pools)
    requires keys.Complete() && 0 <= cost <= Available(keys.OrZero(), policy)
    requires taken == Greedy(keys.OrZero(), cost, policy)
    ensures HeldExactly(keys, cost, policy, taken, Shift(keys, ZERO.Minus(taken)))
  {
    GreedyIsExact(keys.OrZero(), cost, policy);
    GreedyCharacterised(keys.OrZero(), cost, policy, taken);
    ShiftDown(keys, taken);
  }

  /** A hold on complete keys is all or nothing: it succeeds exactly when the policy's pools hold
      the cost together, then takes exactly the cost, greedily, within the policy, and only what
      it reports; otherwise nothing changes. */
  lemma PreDeductExactAndGreedy(keys: Keys, cost: int, policy: Policy)
    requires keys.Complete() && 0 <= cost
    ensures var answer, after := PreDeductAnswer(keys, cost, policy), AfterPreDeduct(keys, cost, policy);
            && (answer.Taken? <==> cost <= Available(keys.OrZero(), policy))
            && (answer.Taken? ==> HeldExactly(keys, cost, policy, answer.pools, after))
            && (!answer.Taken? ==> after == keys)
  {
    AnswerCases(keys, cost, policy);
    if cost <= Available(keys.OrZero(), policy) {
      GreedyHoldIsExact(keys, cost, policy, PreDeductAnswer(keys, cost, policy).pools);
    }
  }

  /** PreDeduct reports a hold of exactly the cost if and only if the keys were complete when it
      last looked; on keys dropped before the retry it reports success with nothing held. */
  lemma HoldExactOnlyOnCompleteKeys(keys: Keys, cost: int, policy: Policy)
    requires 0 < cost
    requires HoldFrom(PreDeductAnswer(keys, cost, policy)).Held?
    ensures HoldFrom(PreDeductAnswer(keys, cost, policy)).pools.Total() == cost <==> keys.Complete()
    ensures !keys.Complete() ==> HoldFrom(PreDeductAnswer(keys, cost, policy)).pools == ZERO
  {
    if keys.Complete() {
      PreDeductExactAndGreedy(keys, cost, policy);
    }
  }

  /** In terms of the call: a reported hold equals the cost if and only if the keys were complete when it
      came or none was lost between the load and the retry. */
  lemma PreDeductExactly(keys: Keys, row: Option<Pools>, evicted: set<Pool>, cost: int, policy: Policy)
    requires 0 < cost && HoldFrom(PreDeductAnswer(KeysDecidedOn(keys, row, evicted), cost, policy)).Held?
    ensures HoldFrom(PreDeductAnswer(KeysDecidedOn(keys, row, evicted), cost, policy)).pools.Total() == cost
       <==> keys.Complete() || evicted == {}
  {
    HoldExactOnlyOnCompleteKeys(KeysDecidedOn(keys, row, evicted), cost, policy);
    NoneLost(evicted);
  }

  lemma NoneLost(evicted: set<Pool>)
    ensures evicted == {} <==> Sub !in evicted && Grant !in evicted && Cash !in evicted
  {
    forall pool | pool in evicted ensures pool == Sub || pool == Grant || pool == Cash {}
  }

  lemma TakenWithinText(balance: Pools, cost: int, text: string)
    ensures HeldWithinText(Greedy(balance, cost, ParsePolicy(text)), text)
  {
    TakenByText(balance, cost, text);
  }

  lemma HeldIs(balance: Pools, cost: int, text: string, taken: Pools, after: Keys)
    requires taken.Total() == cost && after.Complete() && after.OrZero() == balance.Minus(taken)
    requires cost <= if text == "cash_only" then balance.cash
                     else if text == "grant_only" then balance.sub + balance.grant
                     else balance.sub + balance.grant + balance.cash
    ensures HeldOn(balance, cost, text, Held(taken), after)
  {
  }

  lemma HeldOnByText(keys: Keys, balance: Pools, cost: int, text: string, answer: Answer, after: Keys)
    requires keys == Keys(Some(balance.sub), Some(balance.grant), Some(balance.cash)) && 0 <= cost
    requires answer == PreDeductAnswer(keys, cost, ParsePolicy(text))
    requires after == AfterPreDeduct(keys, cost, ParsePolicy(text))
    ensures HeldOn(balance, cost, text, HoldFrom(answer), after)
  {
    assert keys.OrZero() == balance;
    AvailableByText(balance, text);
    AnswerCases(keys, cost, ParsePolicy(text));
    if cost <= Available(balance, ParsePolicy(text)) {
      GreedyIsExact(balance, cost, ParsePolicy(text));
      ShiftDown(keys, answer.pools);
      HeldIs(balance, cost, text, answer.pools, after);
    }
  }

  lemma HeldByText(keys: Keys, balance: Pools, cost: int, text: string)
    requires keys == Keys(Some(balance.sub), Some(balance.grant), Some(balance.cash))
    ensures var answer := PreDeductAnswer(keys, cost, ParsePolicy(text));
      && (HoldFrom(answer).Held? ==> HeldWithinText(HoldFrom(answer).pools, text))
      && (0 <= cost ==> HeldOn(balance, cost, text, HoldFrom(answer), AfterPreDeduct(keys, cost, ParsePolicy(text))))
  {
    var answer := PreDeductAnswer(keys, cost, ParsePolicy(text));
    TakenWithinText(balance, cost, text);
    assert keys.OrZero() == balance && !answer.Missing?;
    if 0 <= cost {
      HeldOnByText(keys, balance, cost, text, answer, AfterPreDeduct(keys, cost, ParsePolicy(text)));
    }
  }

  /** A hold in the texts of the policies, whichever keys it is decided on: the cached ones, a loaded row, or
      a row that lost a key again before the retry. */
  lemma HoldByText(keys: Keys, row: Option<Pools>, cost: int, text: string, evicted: set<Pool>)
    requires keys.Complete() || row.Some?
    ensures var decided := KeysDecidedOn(keys, row, evicted);
      var outcome, after := HoldFrom(PreDeductAnswer(decided, cost, ParsePolicy(text))),
          AfterPreDeduct(decided, cost, ParsePolicy(text));
      && (outcome.Held? ==> HeldWithinText(outcome.pools, text))
      && (keys.Complete() && 0 <= cost ==> HeldOn(keys.OrZero(), cost, text, outcome, after))
      && (!keys.Complete() && evicted == {} && 0 <= cost ==> HeldOn(row.value, cost, text, outcome, after))
      && (!keys.Complete() && evicted != {} ==> outcome == Held(ZERO) && LoadedBut(row.value, evicted, after))
  {
    NoneLost(evicted);
    var decided := KeysDecidedOn(keys, row, evicted);
    if keys.Complete() {
      HeldByText(keys, keys.OrZero(), cost, text);
    } else if evicted == {} {
      HeldByText(decided, row.value, cost, text);
    }
  }

  lemma RefundUndoes(keys: Keys, cost: int, taken: Pools, later: Pools)
    requires keys.Complete() && taken.NonNegative() && taken.Total() == cost
    ensures AfterRefund(Shift(Shift(keys, ZERO.Minus(taken)), later), cost, taken) == Shift(keys, later)
  {
    GiveBackAll(taken);
    ShiftAdds(keys, ZERO.Minus(taken), later);
    ShiftAdds(keys, ZERO.Minus(taken).Plus(later), taken);
    assert ZERO.Minus(taken).Plus(later).Plus(taken) == later;
  }

  /** A full refund undoes a hold, pool by pool, whatever happened to the balances in between. */
  lemma FullRefundRestores(keys: Keys, cost: int, policy: Policy, later: Pools)
    requires keys.Complete() && 0 <= cost && PreDeductAnswer(keys, cost, policy).Taken?
    ensures var taken := PreDeductAnswer(keys, cost, policy).pools;
            AfterRefund(Shift(AfterPreDeduct(keys, cost, policy), later), cost, taken) == Shift(keys, later)
  {
    AnswerCases(keys, cost, policy);
    GreedyIsSound(keys.OrZero(), cost, policy);
    RefundUndoes(keys, cost, PreDeductAnswer(keys, cost, policy).pools, later);
  }

  lemma ShiftAdds(keys: Keys, first: Pools, second: Pools)
    requires keys.Complete()
    ensures Shift(keys, first).Complete()
    ensures Shift(keys, first).OrZero() == keys.OrZero().Plus(first)
    ensures Shift(Shift(keys, first), second) == Shift(keys, first.Plus(second))
  {
  }

  /** One atomic script call on a user's keys. */
  datatype Script =
    | PreDeductCall(cost: int, policy: Policy)
    | RefundCall(amount: int, hold: Pools)
    | CompensateCall(amount: int, policy: Policy)
    | CreditCall(pool: Pool, delta: int)

  function After(keys: Keys, call: Script): Keys {
    match call
    case PreDeductCall(cost, policy) => AfterPreDeduct(keys, cost, policy)
    case RefundCall(amount, hold) => AfterRefund(keys, amount, hold)
    case CompensateCall(amount, policy) => AfterCompensate(keys, amount, policy)
    case CreditCall(pool, delta) => AfterCredit(keys, pool, delta)
  }

  function AfterAll(keys: Keys, calls: seq<Script>): Keys
    decreases |calls|
  {
    if calls == [] then keys else AfterAll(After(keys, calls[0]), calls[1..])
  }

  /** What a call spends from the pools, net of what it gives back; credits spend nothing. */
  function Spends(keys: Keys, call: Script): Pools {
    match call
    case PreDeductCall(cost, policy) =>
      (match PreDeductAnswer(keys, cost, policy)
       case Taken(taken) => taken
       case _ => ZERO)
    case RefundCall(amount, hold) => ZERO.Minus(GiveBack(amount, hold))
    case CompensateCall(amount, policy) => UnderCharge(keys, amount, policy)
    case CreditCall(_, _) => ZERO
  }

  function Spent(keys: Keys, calls: seq<Script>): Pools
    decreases |calls|
  {
    if calls == [] then ZERO
    else Spends(keys, calls[0]).Plus(Spent(After(keys, calls[0]), calls[1..]))
  }

  function CreditOf(call: Script): Pools {
    if call.CreditCall? then Single(call.pool, call.delta) else ZERO
  }

  function Credited(calls: seq<Script>): Pools {
    if calls == [] then ZERO else CreditOf(calls[0]).Plus(Credited(calls[1..]))
  }

  /** On non-negative complete keys, a script leaves them so unless it is a debit larger than the
      cached balance of its pool; and it moves exactly what it spends and credits. */
  lemma ScriptAccounts(keys: Keys, call: Script)
    requires keys.Complete() && keys.OrZero().NonNegative()
    ensures After(keys, call).Complete()
    ensures After(keys, call).OrZero() == keys.OrZero().Minus(Spends(keys, call)).Plus(CreditOf(call))
    ensures After(keys, call).OrZero().NonNegative()
       <==> !(call.CreditCall? && keys.Get(call.pool).value + call.delta < 0)
  {
    var spends := Spends(keys, call);
    if !call.CreditCall? {
      SpendsWithinBalance(keys, call);
      ShiftAdds(keys, ZERO.Minus(spends), ZERO);
      assert After(keys, call) == Shift(keys, ZERO.Minus(spends)) by {
        if call.RefundCall? {
          assert ZERO.Minus(spends) == GiveBack(call.amount, call.hold);
        }
      }
    }
  }

  lemma SpendsWithinBalance(keys: Keys, call: Script)
    requires keys.Complete() && keys.OrZero().NonNegative() && !call.CreditCall?
    ensures keys.OrZero().Minus(Spends(keys, call)).NonNegative()
  {
    match call
    case PreDeductCall(cost, policy) =>
      GreedyWithin(keys.OrZero(), cost, policy);
    case CompensateCall(amount, policy) =>
      GreedyWithin(keys.OrZero(), amount, policy);
    case RefundCall(amount, hold) =>
      var given := GiveBack(amount, hold);
      assert given.cash >= 0 && given.grant >= 0 && given.sub >= 0;
  }

  lemma CreditKeepsNonNegative(keys: Keys, call: Script)
    requires keys.Complete() && keys.OrZero().NonNegative()
    requires call.CreditCall? ==> 0 <= call.delta
    ensures After(keys, call).Complete() && After(keys, call).OrZero().NonNegative()
    ensures After(keys, call).OrZero() == keys.OrZero().Minus(Spends(keys, call)).Plus(CreditOf(call))
  {
    ScriptAccounts(keys, call);
  }

  /** No overspend: for every interleaving of holds, refunds, under-charges and credits from a
      non-negative balance, no pool ever goes negative, so what has been spent net of refunds never
      exceeds, pool by pool, the loaded balance plus the credits. */
  lemma {:induction false} NoOverspend(keys: Keys, calls: seq<Script>)
    requires keys.Complete() && keys.OrZero().NonNegative()
    requires forall i :: 0 <= i < |calls| && calls[i].CreditCall? ==> 0 <= calls[i].delta
    ensures AfterAll(keys, calls).Complete()
    ensures AfterAll(keys, calls).OrZero().NonNegative()
    ensures AfterAll(keys, calls).OrZero() == keys.OrZero().Plus(Credited(calls)).Minus(Spent(keys, calls))
    decreases |calls|, 1
  {
    if calls != [] {
      CreditKeepsNonNegative(keys, calls[0]);
      NoOverspendFrom(keys, After(keys, calls[0]), Spends(keys, calls[0]), CreditOf(calls[0]), calls);
    }
  }

  lemma {:induction false} NoOverspendFrom(keys: Keys, next: Keys, spent: Pools, credited: Pools, calls: seq<Script>)
    requires calls != []
    requires next.Complete() && next.OrZero().NonNegative()
    requires next.OrZero() == keys.OrZero().Minus(spent).Plus(credited)
    requires forall i :: 0 <= i < |calls| && calls[i].CreditCall? ==> 0 <= calls[i].delta
    ensures AfterAll(next, calls[1..]).Complete()
    ensures AfterAll(next, calls[1..]).OrZero().NonNegative()
    ensures AfterAll(next, calls[1..]).OrZero()
         == keys.OrZero().Plus(credited.Plus(Credited(calls[1..]))).Minus(spent.Plus(Spent(next, calls[1..])))
    decreases |calls| - 1, 2
  {
    NoOverspend(next, calls[1..]);
  }
}
