/** A priced request from hold to settlement: holding the estimate and returning the rest amounts to
    charging the actual cost outright. */
module Charging {
  import opened Money
  import opened CacheScripts
  import opened Books
  import opened Settlement
  import opened Pricing

  /** A request whose bill its estimate is known to cover: priced by tokens on sound prices and within the estimated
      prompt and completion, or priced by request at a positive multiplier. */
  predicate Covered(p: Prices, mode: string, requestType: string, prompt: int, maxOutput: int, u: Usage, units: int) {
    && PricesNonNegative(p)
    && if mode == "request" then 1 <= units && 0.0 < p.multiplier
       else requestType != "image_generation" && SoundPrices(p) && Within(u, prompt, maxOutput)
  }

  lemma TokenCostNonNegative(p: Prices, u: Usage, prompt: int, maxOutput: int)
    requires PricesNonNegative(p) && SoundPrices(p) && Within(u, prompt, maxOutput)
    ensures 0 <= TokenCost(p, u)
  {
    SumWithin(p, prompt, maxOutput, u);
    var base := TruncDiv(TokenSum(p, u), MILLION);
    if 0 < base {
      Product(0, base, SettlementMultiplier(p));
    }
  }

  lemma RequestCostNonNegative(p: Prices, units: int)
    requires PricesNonNegative(p) && 1 <= units && 0.0 < p.multiplier
    ensures 0 <= RequestCost(p, units)
  {
    ScaleTo(0, units, p.request);
    Product(0, p.request * units, p.multiplier);
  }

  lemma BillWithinEstimate(p: Prices, mode: string, requestType: string, prompt: int, maxOutput: int, u: Usage,
                           units: int)
    requires Covered(p, mode, requestType, prompt, maxOutput, u, units)
    ensures 0 <= ActualCost(p, mode, requestType, u, units) <= EstimatedCost(p, mode, prompt, maxOutput, units)
  {
    if mode == "request" {
      PricedByRequest(p, requestType, prompt, maxOutput, u, units);
      RequestCostNonNegative(p, units);
      RequestWithin(p, units);
    } else {
      PricedByTokens(p, mode, requestType, prompt, maxOutput, u, units);
      TokenCostNonNegative(p, u, prompt, maxOutput);
      EstimateDominates(p, mode, requestType, prompt, maxOutput, u, units);
    }
  }

  /** A covered request ends, whatever else moved the balances meanwhile, with the cache lower by the greedy
      take of its actual cost from the balances it started on, and with a billing message whose shares are
      that same take. Compensation never runs. */
  lemma HoldThenSettleChargesOutright(keys: Keys, p: Prices, mode: string, requestType: string, prompt: int,
                                      maxOutput: int, u: Usage, units: int, policy: Policy, later: Pools, id: string,
                                      user: int)
    requires keys.Complete() && Covered(p, mode, requestType, prompt, maxOutput, u, units)
    requires PreDeductAnswer(keys, EstimatedCost(p, mode, prompt, maxOutput, units), policy).Taken?
    ensures var estimate, cost := EstimatedCost(p, mode, prompt, maxOutput, units),
          ActualCost(p, mode, requestType, u, units);
      var m := Message(id, user, estimate, PreDeductAnswer(keys, estimate, policy).pools, cost);
      var charge := Greedy(keys.OrZero(), cost, policy);
      && 0 <= cost <= estimate
      && SettledKeys(Shift(AfterPreDeduct(keys, estimate, policy), later), m, policy)
          == Shift(keys, later.Minus(charge))
      && Shares(m) == charge && charge.Total() == cost
  {
    BillWithinEstimate(p, mode, requestType, prompt, maxOutput, u, units);
    HoldThenSettle(keys, EstimatedCost(p, mode, prompt, maxOutput, units), ActualCost(p, mode, requestType, u, units),
                   policy, later, id, user);
  }

  lemma HoldThenSettle(keys: Keys, estimate: int, cost: int, policy: Policy, later: Pools, id: string, user: int)
    requires keys.Complete() && 0 <= cost <= estimate && PreDeductAnswer(keys, estimate, policy).Taken?
    ensures var m := Message(id, user, estimate, PreDeductAnswer(keys, estimate, policy).pools, cost);
      var charge := Greedy(keys.OrZero(), cost, policy);
      && SettledKeys(Shift(AfterPreDeduct(keys, estimate, policy), later), m, policy)
          == Shift(keys, later.Minus(charge))
      && Shares(m) == charge && charge.Total() == cost
  {
    var balance, hold := keys.OrZero(), PreDeductAnswer(keys, estimate, policy).pools;
    AnswerCases(keys, estimate, policy);
    GreedyIsSound(balance, estimate, policy);
    GreedyIsExact(balance, cost, policy);
    SplitOfGreedy(balance, estimate, cost, policy);
    SettledHoldChargesItsShares(keys, Message(id, user, estimate, hold, cost), policy, later);
  }
}
