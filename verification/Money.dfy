/**
 The three balance pools of a user and the greedy arithmetic over them: consumption order
 sub, grant, cash; give-back order cash, grant, sub. Amounts are integers scaled by 10^8.
 */
module Money {
  import opened Prelude

  datatype Pool = Sub | Grant | Cash

  datatype Pools = Pools(sub: int, grant: int, cash: int) {
    function Plus(other: Pools): Pools {
      Pools(sub + other.sub, grant + other.grant, cash + other.cash)
    }

    function Minus(other: Pools): Pools {
      Pools(sub - other.sub, grant - other.grant, cash - other.cash)
    }

    function Total(): int {
      sub + grant + cash
    }

    function Get(pool: Pool): int {
      match pool
      case Sub => sub
      case Grant => grant
      case Cash => cash
    }

    predicate NonNegative() {
      0 <= sub && 0 <= grant && 0 <= cash
    }
  }

  const ZERO := Pools(0, 0, 0)

  function Single(pool: Pool, amount: int): Pools {
    match pool
    case Sub => Pools(amount, 0, 0)
    case Grant => Pools(0, amount, 0)
    case Cash => Pools(0, 0, amount)
  }

  datatype Policy = AllPools | CashOnly | GrantOnly

  /** The policy a model's `billing_policy` text selects; every unknown text means all pools. */
  function ParsePolicy(text: string): Policy {
    if text == "cash_only" then CashOnly else if text == "grant_only" then GrantOnly else AllPools
  }

  /** Which pools a billing policy may touch. */
  predicate Uses(policy: Policy, pool: Pool) {
    match pool
    case Sub => !policy.CashOnly?
    case Grant => !policy.CashOnly?
    case Cash => !policy.GrantOnly?
  }

  /** What one `take` or `give` closure moves: nothing unless both sides are positive. */
  function Portion(bal: int, rem: int): int {
    if bal <= 0 || rem <= 0 then 0 else Min(bal, rem)
  }

  function PortionIf(enabled: bool, bal: int, rem: int): int {
    if enabled then Portion(bal, rem) else 0
  }

  /** An amount limited to the range from zero to a non-negative limit. */
  function Clamp(amount: int, limit: int): int {
    Min(Max(amount, 0), limit)
  }

  /** Consumption: sub, then grant, then cash, each floored at zero. */
  function Greedy(balance: Pools, amount: int, policy: Policy): Pools {
    var p := PortionIf(Uses(policy, Sub), balance.sub, amount);
    var g := PortionIf(Uses(policy, Grant), balance.grant, amount - p);
    var c := PortionIf(Uses(policy, Cash), balance.cash, amount - p - g);
    Pools(p, g, c)
  }

  /** The share of a hold that an actual cost keeps: consumption from the head of the hold. */
  function Split(actual: int, hold: Pools): Pools {
    Greedy(hold, actual, AllPools)
  }

  /** Refund: cash, then grant, then sub, each at most what the hold took from it. */
  function GiveBack(amount: int, hold: Pools): Pools {
    var c := Portion(hold.cash, amount);
    var g := Portion(hold.grant, amount - c);
    var p := Portion(hold.sub, amount - c - g);
    Pools(p, g, c)
  }

  /** The sum of the pools a policy counts, negative balances included. */
  function Available(balance: Pools, policy: Policy): int {
    (if Uses(policy, Sub) then balance.sub else 0)
    + (if Uses(policy, Grant) then balance.grant else 0)
    + (if Uses(policy, Cash) then balance.cash else 0)
  }

  /** What a policy could take from each pool if the amount were unlimited. */
  function Spendable(balance: Pools, policy: Policy): Pools {
    Pools(if Uses(policy, Sub) then Max(balance.sub, 0) else 0,
          if Uses(policy, Grant) then Max(balance.grant, 0) else 0,
          if Uses(policy, Cash) then Max(balance.cash, 0) else 0)
  }

  /** Reference definition of a greedy take, by its properties and not by its steps: it stays
      within what is spendable, takes as much of the amount as there is, and touches a pool
      only when every earlier one is exhausted. */
  predicate IsGreedyTake(balance: Pools, amount: int, policy: Policy, taken: Pools) {
    var limit := Spendable(balance, policy);
    && 0 <= taken.sub <= limit.sub
    && 0 <= taken.grant <= limit.grant
    && 0 <= taken.cash <= limit.cash
    && taken.Total() == Min(Max(amount, 0), limit.Total())
    && (taken.grant > 0 ==> taken.sub == limit.sub)
    && (taken.cash > 0 ==> taken.sub == limit.sub && taken.grant == limit.grant)
  }

  /** A greedy take in closed form, from the limits of the three pools. */
  function Poured(amount: int, limit: Pools): Pools {
    var p := Min(amount, limit.sub);
    var g := Min(amount - p, limit.grant);
    Pools(p, g, Min(amount - p - g, limit.cash))
  }

  lemma PortionIsMin(bal: int, rem: int)
    ensures Portion(bal, rem) == Min(Max(bal, 0), Max(rem, 0))
  {
  }

  lemma GreedyPours(balance: Pools, amount: int, policy: Policy)
    ensures Greedy(balance, amount, policy) == Poured(Max(amount, 0), Spendable(balance, policy))
  {
    var taken, limit := Greedy(balance, amount, policy), Spendable(balance, policy);
    var a := Max(amount, 0);
    assert taken.sub == Min(a, limit.sub) by {
      PortionIsMin(balance.sub, amount);
    }
    assert taken.grant == Min(a - taken.sub, limit.grant) by {
      PortionIsMin(balance.grant, amount - taken.sub);
    }
    assert taken.cash == Min(a - taken.sub - taken.grant, limit.cash) by {
      PortionIsMin(balance.cash, amount - taken.sub - taken.grant);
    }
  }

  lemma SpendableIsNonNegative(balance: Pools, policy: Policy)
    ensures Spendable(balance, policy).NonNegative()
  {
  }

  lemma SpendableWhole(hold: Pools)
    requires hold.NonNegative()
    ensures Spendable(hold, AllPools) == hold
  {
  }

  lemma SplitPours(actual: int, hold: Pools)
    requires hold.NonNegative()
    ensures Split(actual, hold) == Poured(Max(actual, 0), hold)
  {
    GreedyPours(hold, actual, AllPools);
    SpendableWhole(hold);
  }

  lemma PouredUnique(amount: int, limit: Pools, taken: Pools)
    requires 0 <= amount && limit.NonNegative()
    ensures taken == Poured(amount, limit)
       <==> && 0 <= taken.sub <= limit.sub && 0 <= taken.grant <= limit.grant && 0 <= taken.cash <= limit.cash
            && taken.Total() == Min(amount, limit.Total())
            && (taken.grant > 0 ==> taken.sub == limit.sub)
            && (taken.cash > 0 ==> taken.sub == limit.sub && taken.grant == limit.grant)
  {
  }

  /** The step-by-step loop computes the one and only greedy take. */
  lemma GreedyCharacterised(balance: Pools, amount: int, policy: Policy, taken: Pools)
    ensures taken == Greedy(balance, amount, policy) <==> IsGreedyTake(balance, amount, policy, taken)
  {
    GreedyPours(balance, amount, policy);
    SpendableIsNonNegative(balance, policy);
    PouredUnique(Max(amount, 0), Spendable(balance, policy), taken);
  }

  lemma PouredWithin(amount: int, limit: Pools)
    requires 0 <= amount && limit.NonNegative()
    ensures Poured(amount, limit).NonNegative() && limit.Minus(Poured(amount, limit)).NonNegative()
    ensures Poured(amount, limit).Total() == Min(amount, limit.Total())
  {
  }

  /** A greedy take never exceeds what a pool holds. */
  lemma GreedyWithin(balance: Pools, amount: int, policy: Policy)
    requires balance.NonNegative()
    ensures Greedy(balance, amount, policy).NonNegative()
    ensures balance.Minus(Greedy(balance, amount, policy)).NonNegative()
  {
    GreedyPours(balance, amount, policy);
    SpendableWithin(balance, policy);
    PouredBelow(balance, Spendable(balance, policy), Max(amount, 0));
  }

  lemma SpendableWithin(balance: Pools, policy: Policy)
    requires balance.NonNegative()
    ensures Spendable(balance, policy).NonNegative() && balance.Minus(Spendable(balance, policy)).NonNegative()
  {
  }

  lemma PouredBelow(balance: Pools, limit: Pools, amount: int)
    requires 0 <= amount && limit.NonNegative() && balance.Minus(limit).NonNegative()
    ensures Poured(amount, limit).NonNegative() && balance.Minus(Poured(amount, limit)).NonNegative()
  {
    PouredWithin(amount, limit);
  }

  lemma AvailableWithinSpendable(balance: Pools, policy: Policy)
    ensures Available(balance, policy) <= Spendable(balance, policy).Total()
  {
  }

  /** What the texts of the policies mean: cash alone, the two subscription pools alone, or all three. Each pool
      gives what is still wanted, as far as it has it, in the order sub, grant, cash. */
  lemma TakenByText(balance: Pools, amount: int, text: string)
    ensures var taken, wanted := Greedy(balance, amount, ParsePolicy(text)), Max(amount, 0);
      if text == "cash_only" then taken == Pools(0, 0, Min(wanted, Max(balance.cash, 0)))
      else
        && taken.sub == Min(wanted, Max(balance.sub, 0))
        && taken.grant == Min(wanted - taken.sub, Max(balance.grant, 0))
        && taken.cash == if text == "grant_only" then 0
                         else Min(wanted - taken.sub - taken.grant, Max(balance.cash, 0))
  {
    GreedyPours(balance, amount, ParsePolicy(text));
  }

  lemma AvailableByText(balance: Pools, text: string)
    ensures Available(balance, ParsePolicy(text))
         == if text == "cash_only" then balance.cash
            else if text == "grant_only" then balance.sub + balance.grant
            else balance.sub + balance.grant + balance.cash
  {
  }

  /** Whenever a policy sees enough balance, the greedy take is exact, negative pools or not. */
  lemma GreedyIsExact(balance: Pools, amount: int, policy: Policy)
    requires 0 <= amount <= Available(balance, policy)
    ensures Greedy(balance, amount, policy).Total() == amount
  {
    GreedyPours(balance, amount, policy);
    SpendableIsNonNegative(balance, policy);
    PouredWithin(amount, Spendable(balance, policy));
    AvailableWithinSpendable(balance, policy);
  }

  /** A hold the pools can cover is non-negative and exact; one of a negative cost takes nothing. */
  lemma GreedyIsSound(balance: Pools, amount: int, policy: Policy)
    requires amount <= Available(balance, policy)
    ensures Greedy(balance, amount, policy).NonNegative()
    ensures amount < 0 ==> Greedy(balance, amount, policy) == ZERO
    ensures 0 <= amount ==> Greedy(balance, amount, policy).Total() == amount
  {
    if 0 <= amount {
      GreedyIsExact(balance, amount, policy);
    }
    GreedyPours(balance, amount, policy);
    SpendableIsNonNegative(balance, policy);
    PouredWithin(Max(amount, 0), Spendable(balance, policy));
  }

  /** Giving back in closed form: the mirror image of pouring. */
  function Drained(amount: int, hold: Pools): Pools {
    var c := Min(amount, hold.cash);
    var g := Min(amount - c, hold.grant);
    Pools(Min(amount - c - g, hold.sub), g, c)
  }

  lemma GiveBackDrains(amount: int, hold: Pools)
    requires hold.NonNegative()
    ensures GiveBack(amount, hold) == Drained(Clamp(amount, hold.Total()), hold)
  {
    var given, a := GiveBack(amount, hold), Max(amount, 0);
    assert given.cash == Min(a, hold.cash) by {
      PortionIsMin(hold.cash, amount);
    }
    assert given.grant == Min(a - given.cash, hold.grant) by {
      PortionIsMin(hold.grant, amount - given.cash);
    }
    assert given.sub == Min(a - given.cash - given.grant, hold.sub) by {
      PortionIsMin(hold.sub, amount - given.cash - given.grant);
    }
    DrainedSaturates(a, hold);
  }

  lemma DrainedSaturates(amount: int, hold: Pools)
    requires 0 <= amount && hold.NonNegative()
    ensures Drained(amount, hold) == Drained(Min(amount, hold.Total()), hold)
  {
  }

  lemma DrainedLeavesPoured(back: int, hold: Pools)
    requires hold.NonNegative() && 0 <= back <= hold.Total()
    ensures Drained(back, hold).Total() == back
    ensures hold.Minus(Drained(back, hold)) == Poured(hold.Total() - back, hold)
  {
  }

  /** Refund/split duality: what stays taken after giving back the unused part of a hold, in
      reverse order, is exactly what the worker's split charges to each pool. */
  lemma RefundSplitDuality(actual: int, hold: Pools)
    requires hold.NonNegative() && 0 <= actual <= hold.Total()
    ensures hold.Minus(GiveBack(hold.Total() - actual, hold)) == Split(actual, hold)
  {
    GiveBackPoured(hold.Total() - actual, actual, hold);
    SplitPoured(actual, actual, hold);
  }

  lemma PouredSaturates(amount: int, limit: Pools)
    requires 0 <= amount && limit.NonNegative()
    ensures Poured(amount, limit) == Poured(Min(amount, limit.Total()), limit)
  {
  }

  lemma NothingHeld(amount: int)
    ensures Split(amount, ZERO) == ZERO && GiveBack(amount, ZERO) == ZERO
  {
  }

  lemma GiveBackAll(hold: Pools)
    requires hold.NonNegative()
    ensures GiveBack(hold.Total(), hold) == hold
  {
    GiveBackDrains(hold.Total(), hold);
    DrainedAll(hold);
  }

  lemma DrainedAll(hold: Pools)
    requires hold.NonNegative()
    ensures Drained(hold.Total(), hold) == hold
  {
  }

  lemma SplitAll(actual: int, hold: Pools)
    requires hold.NonNegative() && hold.Total() <= actual
    ensures Split(actual, hold) == hold
  {
    SplitPours(actual, hold);
    PouredSaturates(actual, hold);
    PouredAll(hold);
  }

  lemma PouredAll(limit: Pools)
    requires limit.NonNegative()
    ensures Poured(limit.Total(), limit) == limit
  {
  }

  /** The exact reach of the duality when the amount on record may differ from the hold. */
  lemma RefundSplitDualityExactly(recorded: int, actual: int, hold: Pools)
    requires hold.NonNegative()
    ensures hold.Minus(GiveBack(recorded - actual, hold)) == Split(actual, hold)
       <==> || hold == ZERO
            || (0 < actual < hold.Total() && recorded == hold.Total())
            || (hold.Total() <= actual && recorded <= actual)
            || (actual <= 0 && hold.Total() <= recorded - actual)
  {
    KeptAgainstCharged(recorded, actual, hold);
    KeptIsCharged(recorded, actual, hold.Total());
    EmptyTotal(hold);
  }

  lemma KeptAgainstCharged(recorded: int, actual: int, hold: Pools)
    requires hold.NonNegative()
    ensures hold.Minus(GiveBack(recorded - actual, hold)) == Split(actual, hold)
       <==> hold.Total() - Clamp(recorded - actual, hold.Total()) == Clamp(actual, hold.Total())
  {
    var kept, charged := hold.Total() - Clamp(recorded - actual, hold.Total()), Clamp(actual, hold.Total());
    GiveBackPoured(recorded - actual, kept, hold);
    SplitPoured(actual, charged, hold);
    PouredInjective(kept, charged, hold);
  }

  lemma GiveBackPoured(amount: int, kept: int, hold: Pools)
    requires hold.NonNegative() && kept == hold.Total() - Clamp(amount, hold.Total())
    ensures hold.Minus(GiveBack(amount, hold)) == Poured(kept, hold)
  {
    GiveBackDrains(amount, hold);
    DrainedLeavesPoured(hold.Total() - kept, hold);
  }

  lemma SplitPoured(actual: int, charged: int, hold: Pools)
    requires hold.NonNegative() && charged == Clamp(actual, hold.Total())
    ensures Split(actual, hold) == Poured(charged, hold)
  {
    SplitPours(actual, hold);
    PouredSaturates(Max(actual, 0), hold);
  }

  lemma PouredInjective(a: int, b: int, hold: Pools)
    requires hold.NonNegative() && 0 <= a <= hold.Total() && 0 <= b <= hold.Total()
    ensures Poured(a, hold) == Poured(b, hold) <==> a == b
  {
    PouredWithin(a, hold);
    PouredWithin(b, hold);
  }

  lemma KeptIsCharged(recorded: int, actual: int, total: int)
    requires 0 <= total
    ensures total - Clamp(recorded - actual, total) == Clamp(actual, total)
       <==> || total == 0
            || (0 < actual < total && recorded == total)
            || (total <= actual && recorded <= actual)
            || (actual <= 0 && total <= recorded - actual)
  {
  }

  lemma EmptyTotal(hold: Pools)
    requires hold.NonNegative()
    ensures hold.Total() == 0 <==> hold == ZERO
  {
  }

  lemma PouredTwice(cost: int, estimate: int, limit: Pools)
    requires 0 <= cost <= estimate && limit.NonNegative()
    ensures Poured(cost, Poured(estimate, limit)) == Poured(cost, limit)
  {
  }

  /** The part of a greedy hold that a smaller cost keeps is the greedy take of that cost. */
  lemma SplitOfGreedy(balance: Pools, estimate: int, cost: int, policy: Policy)
    requires 0 <= cost <= estimate
    ensures Split(cost, Greedy(balance, estimate, policy)) == Greedy(balance, cost, policy)
  {
    var hold, limit := Greedy(balance, estimate, policy), Spendable(balance, policy);
    GreedyPours(balance, estimate, policy);
    GreedyPours(balance, cost, policy);
    SpendableIsNonNegative(balance, policy);
    PouredWithin(estimate, limit);
    SplitPours(cost, hold);
    PouredTwice(cost, estimate, limit);
  }

  /** `splitActual3`: the closure's running remainder, one pool after the other. */
  method SplitActual3(actualCost: int, subDeducted: int, grantDeducted: int, cashDeducted: int)
    returns (sub: int, grant: int, cash: int)
    ensures Pools(sub, grant, cash) == Split(actualCost, Pools(subDeducted, grantDeducted, cashDeducted))
    ensures IsGreedyTake(Pools(subDeducted, grantDeducted, cashDeducted), actualCost, AllPools, Pools(sub, grant, cash))
  {
    var rem := actualCost;
    sub, rem := TakeFrom(rem, subDeducted);
    grant, rem := TakeFrom(rem, grantDeducted);
    cash, rem := TakeFrom(rem, cashDeducted);
    GreedyCharacterised(Pools(subDeducted, grantDeducted, cashDeducted), actualCost, AllPools, Pools(sub, grant, cash));
  }

  method TakeFrom(before: int, deducted: int) returns (t: int, rem: int)
    ensures t == Portion(deducted, before) && rem == before - t
  {
    rem := before;
    if rem <= 0 || deducted <= 0 {
      return 0, rem;
    }
    t := deducted;
    if t > rem {
      t := rem;
    }
    rem := rem - t;
  }
}
