/**
 What a request is held for and what it finally costs. Amounts are scaled integers, prices are per
 million tokens; exact reals stand for the floating-point multiplier.
 */
module Pricing {
  import opened Prelude

  const MILLION := 1_000_000

  /** Go's integer division. */
  function TruncDiv(a: int, b: int): int
    requires 0 < b
  {
    if a >= 0 then a / b else -(-a / b)
  }

  function Ceil(x: real): int {
    -((-x).Floor)
  }

  /** Rounding half away from zero. */
  function Round(x: real): int {
    if x >= 0.0 then (x + 0.5).Floor else -((-x + 0.5).Floor)
  }

  function ApplyMultiplier(base: int, multiplier: real, roundUp: bool): int {
    if base <= 0 then 0
    else if roundUp then Ceil(base as real * multiplier)
    else Round(base as real * multiplier)
  }

  datatype Prices = Prices(input: int, output: int, cacheHit: int, cacheMiss: int, multiplier: real, request: int)

  datatype Usage = Usage(prompt: int, completion: int, cacheHit: int, cacheMiss: int)

  /** An estimate of zero is raised to one, so that a request always needs some balance. */
  function AtLeastOne(estimate: int): int {
    if estimate == 0 then 1 else estimate
  }

  function TokenEstimate(p: Prices, prompt: int, maxOutput: int): int {
    AtLeastOne(ApplyMultiplier(TruncDiv(prompt * p.input + maxOutput * p.output, MILLION), p.multiplier, true))
  }

  function RequestEstimate(p: Prices, units: int): int {
    AtLeastOne(ApplyMultiplier(p.request * units, p.multiplier, true))
  }

  /** Settlement takes a multiplier of zero or less for one; the estimate does not. */
  function SettlementMultiplier(p: Prices): real {
    if p.multiplier <= 0.0 then 1.0 else p.multiplier
  }

  function MissPrice(p: Prices): int {
    if p.cacheMiss <= 0 then p.input else p.cacheMiss
  }

  function Regular(u: Usage): int {
    if u.cacheHit > 0 || u.cacheMiss > 0 then Max(u.prompt - u.cacheHit - u.cacheMiss, 0) else u.prompt
  }

  function Hit(u: Usage): int {
    if u.cacheHit > 0 || u.cacheMiss > 0 then u.cacheHit else 0
  }

  function Miss(u: Usage): int {
    if u.cacheHit > 0 || u.cacheMiss > 0 then u.cacheMiss else 0
  }

  function TokenSum(p: Prices, u: Usage): int {
    Regular(u) * p.input + Hit(u) * p.cacheHit + Miss(u) * MissPrice(p) + u.completion * p.output
  }

  function TokenCost(p: Prices, u: Usage): int {
    ApplyMultiplier(TruncDiv(TokenSum(p, u), MILLION), SettlementMultiplier(p), false)
  }

  function RequestCost(p: Prices, units: int): int {
    ApplyMultiplier(p.request * (if units <= 0 then 1 else units), SettlementMultiplier(p), false)
  }

  /** computeActualCost */
  function ActualCost(p: Prices, mode: string, requestType: string, u: Usage, units: int): int {
    if mode == "request" || requestType == "image_generation" then RequestCost(p, units) else TokenCost(p, u)
  }

  /** A chat request that names no limit is held for 4096 completion tokens. */
  function MaxOutput(requested: int): int {
    if requested <= 0 then 4096 else requested
  }

  /** The amount pre-deducted by the authentication middleware. */
  function EstimatedCost(p: Prices, mode: string, prompt: int, maxOutput: int, units: int): int {
    if mode == "request" then RequestEstimate(p, units) else TokenEstimate(p, prompt, maxOutput)
  }

  // Arithmetic of rounding.

  lemma RoundBelowCeil(base: int, estimated: int, m: real)
    requires 0 <= base <= estimated && 0.0 < m
    ensures ApplyMultiplier(base, m, false) <= ApplyMultiplier(estimated, m, true)
  {
    if 0 < base {
      Product(base, estimated, m);
      RoundCeil(base as real * m, estimated as real * m);
    } else if 0 < estimated {
      Product(0, estimated, m);
    }
  }

  lemma Product(a: int, b: int, m: real)
    requires 0 <= a <= b && 0.0 < m
    ensures 0.0 <= a as real * m <= b as real * m
  {
    assert (b - a) as real * m >= 0.0;
    assert b as real * m == a as real * m + (b - a) as real * m;
  }

  lemma RoundCeil(x: real, y: real)
    requires 0.0 <= x <= y
    ensures Round(x) <= Ceil(y)
  {
    var c := Ceil(y);
    assert y <= c as real;
    assert Round(x) as real <= x + 0.5;
    assert Round(x) as real < c as real + 1.0;
  }

  lemma DivMono(a: int, b: int)
    requires 0 <= a <= b
    ensures 0 <= TruncDiv(a, MILLION) <= TruncDiv(b, MILLION)
  {
  }

  lemma EstimateAtLeastOne(base: int, m: real)
    requires 0.0 < m
    ensures 1 <= AtLeastOne(ApplyMultiplier(base, m, true))
  {
    if 0 < base {
      Product(0, base, m);
      assert 0.0 < base as real * m;
    }
  }

  /** Without a positive multiplier nothing more than one is ever held. */
  lemma EstimateAtMostOne(base: int, m: real)
    requires m <= 0.0
    ensures AtLeastOne(ApplyMultiplier(base, m, true)) <= 1
  {
    if 0 < base {
      assert base as real * (-m) >= 0.0;
      assert base as real * m == -(base as real * (-m));
    }
  }

  // What the amounts are, apart from how they are computed.

  /** Prompt tokens are billed at the input price, but hits and misses at theirs where the upstream tells them
      apart, a miss without a price of its own at the input price; completion tokens at the output price. */
  lemma BilledByKind(p: Prices, u: Usage)
    ensures u.cacheHit <= 0 && u.cacheMiss <= 0 ==> TokenSum(p, u) == u.prompt * p.input + u.completion * p.output
    ensures 0 < u.cacheHit || 0 < u.cacheMiss ==>
      var cached := u.cacheHit * p.cacheHit + u.cacheMiss * (if p.cacheMiss <= 0 then p.input else p.cacheMiss);
      TokenSum(p, u) == if u.prompt <= u.cacheHit + u.cacheMiss then cached + u.completion * p.output
                        else (u.prompt - u.cacheHit - u.cacheMiss) * p.input + cached + u.completion * p.output
  {
  }

  /** An estimate is the least whole amount not below the scaled base, a bill the nearest one, halves upwards. */
  lemma ScaledAmounts(base: int, m: real)
    requires 0 < base && 0.0 < m
    ensures var x, up, near := base as real * m, ApplyMultiplier(base, m, true), ApplyMultiplier(base, m, false);
      && up as real - 1.0 < x <= up as real
      && near as real - 0.5 <= x < near as real + 0.5
  {
    Product(0, base, m);
  }

  /** Division drops the fraction, towards zero. */
  lemma WholePart(a: int)
    ensures 0 <= a ==> TruncDiv(a, 1_000_000) * 1_000_000 <= a < (TruncDiv(a, 1_000_000) + 1) * 1_000_000
    ensures a < 0 ==> (TruncDiv(a, 1_000_000) - 1) * 1_000_000 < a <= TruncDiv(a, 1_000_000) * 1_000_000
  {
  }

  // The estimate against the bill.

  /** A usage that the estimated prompt and completion cover. */
  predicate Within(u: Usage, prompt: int, maxOutput: int) {
    && 0 <= u.prompt <= prompt && 0 <= u.completion <= maxOutput
    && 0 <= u.cacheHit && 0 <= u.cacheMiss && u.cacheHit + u.cacheMiss <= u.prompt
  }

  predicate PricesNonNegative(p: Prices) {
    0 <= p.input && 0 <= p.output && 0 <= p.cacheHit && 0 <= p.cacheMiss && 0 <= p.request
  }

  /** Priced by tokens, whatever the mode is called, and not an image. */
  predicate ByTokens(mode: string, requestType: string) {
    mode != "request" && requestType != "image_generation"
  }

  /** No usage within its estimate is ever billed more than was held for it. */
  ghost predicate AlwaysCovered(p: Prices) {
    forall mode, requestType, prompt, maxOutput, u, units ::
      mode != "request" && requestType != "image_generation" && Within(u, prompt, maxOutput)
      ==> ActualCost(p, mode, requestType, u, units) <= EstimatedCost(p, mode, prompt, maxOutput, units)
  }

  ghost predicate TokensCovered(p: Prices) {
    forall prompt, maxOutput, u :: Within(u, prompt, maxOutput)
        ==> TokenCost(p, u) <= TokenEstimate(p, prompt, maxOutput)
  }

  lemma PricedByTokens(p: Prices, mode: string, requestType: string, prompt: int, maxOutput: int, u: Usage, units: int)
    requires ByTokens(mode, requestType)
    ensures ActualCost(p, mode, requestType, u, units) == TokenCost(p, u)
    ensures EstimatedCost(p, mode, prompt, maxOutput, units) == TokenEstimate(p, prompt, maxOutput)
  {
  }

  lemma CoveredByTokens(p: Prices)
    ensures AlwaysCovered(p) <==> TokensCovered(p)
  {
    if AlwaysCovered(p) {
      forall prompt, maxOutput, u | Within(u, prompt, maxOutput)
        ensures TokenCost(p, u) <= TokenEstimate(p, prompt, maxOutput)
      {
        PricedByTokens(p, "token", "chat", prompt, maxOutput, u, 1);
      }
    }
    if TokensCovered(p) {
      forall mode, requestType, prompt, maxOutput, u, units
        | ByTokens(mode, requestType) && Within(u, prompt, maxOutput)
        ensures ActualCost(p, mode, requestType, u, units) <= EstimatedCost(p, mode, prompt, maxOutput, units)
      {
        PricedByTokens(p, mode, requestType, prompt, maxOutput, u, units);
      }
    }
  }

  predicate TokensFree(p: Prices) {
    p.input == p.output == p.cacheHit == p.cacheMiss == 0
  }

  /** A condition on the price list alone: either the multiplier is positive and no cached token costs
      more than an input token, or the tokens are free. */
  predicate SoundPrices(p: Prices) {
    if p.multiplier > 0.0 then p.cacheHit <= p.input && p.cacheMiss <= p.input
    else TokensFree(p)
  }

  lemma SumWithin(p: Prices, prompt: int, maxOutput: int, u: Usage)
    requires PricesNonNegative(p) && p.cacheHit <= p.input && p.cacheMiss <= p.input && Within(u, prompt, maxOutput)
    ensures 0 <= TokenSum(p, u) <= prompt * p.input + maxOutput * p.output
  {
    PartsOfPrompt(u);
    CachedWithin(Regular(u), Hit(u), Miss(u), p.input, p.cacheHit, MissPrice(p));
    ScaleTo(u.prompt, prompt, p.input);
    ScaleTo(u.completion, maxOutput, p.output);
  }

  lemma PartsOfPrompt(u: Usage)
    requires 0 <= u.prompt && 0 <= u.cacheHit && 0 <= u.cacheMiss && u.cacheHit + u.cacheMiss <= u.prompt
    ensures 0 <= Regular(u) && 0 <= Hit(u) && 0 <= Miss(u) && Regular(u) + Hit(u) + Miss(u) == u.prompt
  {
  }

  lemma CachedWithin(r: int, h: int, n: int, input: int, hit: int, miss: int)
    requires 0 <= r && 0 <= h && 0 <= n && 0 <= hit <= input && 0 <= miss <= input
    ensures 0 <= r * input + h * hit + n * miss <= (r + h + n) * input
  {
    Scale(h, hit, input);
    Scale(n, miss, input);
    Scale(r, 0, input);
    Scale(h, 0, hit);
    Scale(n, 0, miss);
    assert (r + h + n) * input == r * input + h * input + n * input;
  }

  lemma ScaleTo(a: int, b: int, price: int)
    requires 0 <= a <= b && 0 <= price
    ensures 0 <= a * price <= b * price
  {
  }

  lemma Scale(k: int, a: int, b: int)
    requires 0 <= k && a <= b
    ensures k * a <= k * b
  {
  }

  lemma TokensDominate(p: Prices, prompt: int, maxOutput: int, u: Usage)
    requires PricesNonNegative(p) && SoundPrices(p) && Within(u, prompt, maxOutput)
    ensures TokenCost(p, u) <= TokenEstimate(p, prompt, maxOutput)
  {
    SumWithin(p, prompt, maxOutput, u);
    DivMono(TokenSum(p, u), prompt * p.input + maxOutput * p.output);
    if p.multiplier > 0.0 {
      RoundBelowCeil(TruncDiv(TokenSum(p, u), MILLION), TruncDiv(prompt * p.input + maxOutput * p.output, MILLION),
          p.multiplier);
    }
  }

  /** The estimate dominates the bill, for every price list it can. */
  lemma EstimateDominates(p: Prices, mode: string, requestType: string, prompt: int, maxOutput: int, u: Usage,
                          units: int)
    requires PricesNonNegative(p) && SoundPrices(p) && Within(u, prompt, maxOutput)
    requires mode != "request" && requestType != "image_generation"
    ensures ActualCost(p, mode, requestType, u, units) <= EstimatedCost(p, mode, prompt, maxOutput, units)
  {
    PricedByTokens(p, mode, requestType, prompt, maxOutput, u, units);
    TokensDominate(p, prompt, maxOutput, u);
  }

  /** A request that names a limit is held for it, and so covered for every reply within it. */
  lemma LimitedReplyCovered(p: Prices, mode: string, requestType: string, prompt: int, requested: int, u: Usage,
                            units: int)
    requires PricesNonNegative(p) && SoundPrices(p) && 0 < requested && Within(u, prompt, requested)
    requires mode != "request" && requestType != "image_generation"
    ensures ActualCost(p, mode, requestType, u, units) <= EstimatedCost(p, mode, prompt, MaxOutput(requested), units)
  {
    EstimateDominates(p, mode, requestType, prompt, MaxOutput(requested), u, units);
  }

  /** k million tokens at one price cost k times the price. */
  lemma WholeMillions(k: nat, price: int)
    requires 0 <= price
    ensures TruncDiv(k * MILLION * price, MILLION) == k * price
  {
    assert k * MILLION * price == (k * price) * MILLION;
  }

  /** A price gap wins over rounding once the usage is large enough. */
  lemma GapWins(k: nat, low: int, high: int, m: real)
    requires 0 <= low < high && 0.0 < m && 3.0 <= k as real * m
    ensures AtLeastOne(ApplyMultiplier(k * low, m, true)) < ApplyMultiplier(k * high, m, false)
  {
    var x, y := (k * low) as real * m, (k * high) as real * m;
    ProductsApart(k, low, high, m);
    RoundsApart(x, y);
    Positive(k, high);
  }

  lemma ProductsApart(k: nat, low: int, high: int, m: real)
    requires 0 <= low < high && 0.0 < m && 3.0 <= k as real * m
    ensures 0 < k
    ensures 0.0 <= (k * low) as real * m && (k * low) as real * m + 3.0 <= (k * high) as real * m
  {
    Scale(k, 1, high - low);
    assert k * high == k * low + k * (high - low);
    Scale(k, 0, low);
    Product(k * low + k, k * high, m);
    assert (k * low + k) as real * m == (k * low) as real * m + k as real * m;
    Product(0, k * low, m);
  }

  lemma RoundsApart(x: real, y: real)
    requires 0.0 <= x && x + 3.0 <= y
    ensures Ceil(x) < Round(y) && 1 < Round(y)
  {
    assert y < Round(y) as real + 0.5 + 0.5;
    assert Ceil(x) as real < x + 1.0;
  }

  lemma Positive(k: int, n: int)
    requires 0 < k && 0 < n
    ensures 0 < k * n
  {
  }

  function Enough(target: real, m: real): (k: nat)
    requires 0.0 <= target && 0.0 < m
    ensures target <= k as real * m
  {
    var k := Ceil(target / m);
    assert target / m <= k as real;
    assert target / m * m == target;
    assert (k as real - target / m) * m >= 0.0;
    k
  }

  /** A usage of k million cached prompt tokens, all hits or all misses. */
  lemma CachedUncovered(p: Prices, hits: bool)
    requires PricesNonNegative(p) && 0.0 < p.multiplier
    requires p.input < if hits then p.cacheHit else p.cacheMiss
    ensures !TokensCovered(p)
  {
    var k := Enough(3.0, p.multiplier);
    var n := k * MILLION;
    var price := if hits then p.cacheHit else p.cacheMiss;
    var u := if hits then Usage(n, 0, n, 0) else Usage(n, 0, 0, n);
    GapWins(k, p.input, price, p.multiplier);
    WholeMillions(k, p.input);
    WholeMillions(k, price);
    assert 0 < n;
    assert TokenSum(p, u) == n * price;
    assert TokenCost(p, u) == ApplyMultiplier(k * price, p.multiplier, false);
    assert n * p.input + 0 * p.output == n * p.input;
    assert Within(u, n, 0);
  }

  predicate NonNegative(u: Usage) {
    0 <= u.prompt && 0 <= u.completion && 0 <= u.cacheHit && 0 <= u.cacheMiss
  }

  /** k million tokens of the kind that has this price. */
  function MillionsAt(p: Prices, k: nat): Usage {
    var n := k * MILLION;
    if p.output > 0 then Usage(0, n, 0, 0)
    else if p.input > 0 then Usage(n, 0, 0, 0)
    else if p.cacheHit > 0 then Usage(n, 0, n, 0)
    else Usage(n, 0, 0, n)
  }

  function SomePrice(p: Prices): (price: int)
    requires PricesNonNegative(p) && !TokensFree(p)
    ensures 0 < price
  {
    if p.output > 0 then p.output
    else if p.input > 0 then p.input
    else if p.cacheHit > 0 then p.cacheHit
    else p.cacheMiss
  }

  lemma MillionsCost(p: Prices, k: nat)
    requires PricesNonNegative(p) && !TokensFree(p)
    ensures NonNegative(MillionsAt(p, k))
    ensures TokenCost(p, MillionsAt(p, k)) == ApplyMultiplier(k * SomePrice(p), SettlementMultiplier(p), false)
  {
    assert TokenSum(p, MillionsAt(p, k)) == k * MILLION * SomePrice(p);
    WholeMillions(k, SomePrice(p));
  }

  /** Without a positive multiplier, two million tokens at any price are billed more than was held. */
  lemma UnscaledUncovered(p: Prices)
    requires PricesNonNegative(p) && p.multiplier <= 0.0 && !SoundPrices(p)
    ensures !TokensCovered(p)
  {
    var n, u := 2 * MILLION, MillionsAt(p, 2);
    EstimateAtMostOne(TruncDiv(n * p.input + n * p.output, MILLION), p.multiplier);
    assert Within(u, n, n);
    MillionsCost(p, 2);
    RoundWhole(2 * SomePrice(p));
    assert TokenCost(p, u) == 2 * SomePrice(p);
  }

  lemma RoundWhole(n: int)
    requires 0 <= n
    ensures ApplyMultiplier(n, 1.0, false) == n
  {
  }

  /** Exactly when the estimate dominates every bill. */
  lemma CoveredExactly(p: Prices)
    requires PricesNonNegative(p)
    ensures AlwaysCovered(p) <==> SoundPrices(p)
  {
    CoveredByTokens(p);
    if SoundPrices(p) {
      forall prompt, maxOutput, u | Within(u, prompt, maxOutput)
        ensures TokenCost(p, u) <= TokenEstimate(p, prompt, maxOutput)
      {
        TokensDominate(p, prompt, maxOutput, u);
      }
    } else if p.multiplier <= 0.0 {
      UnscaledUncovered(p);
    } else {
      CachedUncovered(p, p.input < p.cacheHit);
    }
  }

  // Usage beyond the estimate, which nothing at the gateway prevents.

  /** The hold for this estimate covers whatever the upstream reports. */
  ghost predicate CoversAnyUsage(p: Prices, mode: string, requestType: string, prompt: int, maxOutput: int,
                                 units: int) {
    forall u :: NonNegative(u) ==>
      ActualCost(p, mode, requestType, u, units) <= EstimatedCost(p, mode, prompt, maxOutput, units)
  }

  /** A reply longer than the default costs more than its hold, on a sound price list as well. */
  lemma LongReplyUncovered(p: Prices, completion: nat)
    requires p == Prices(0, 1_000_000, 0, 0, 1.0, 0)
    ensures SoundPrices(p) && EstimatedCost(p, "token", 0, MaxOutput(0), 1) == 4096
    ensures ActualCost(p, "token", "chat", Usage(0, completion, 0, 0), 1) == completion
  {
    WholeMillions(1, 4096);
    WholeMillions(1, completion);
    RoundWhole(completion);
  }

  /** Some multiple of any positive price settles above any bound. */
  lemma CostsMore(k: nat, price: int, m: real, bound: int)
    requires 0 < price && 0.0 < m && 0 <= bound && bound as real + 1.0 <= k as real * m
    ensures bound < ApplyMultiplier(k * price, m, false)
  {
    Scale(k, 1, price);
    Product(k, k * price, m);
    var cost := (k * price) as real * m;
    assert bound as real + 1.0 <= cost && cost - 0.5 < Round(cost) as real;
    assert 0 < k;
    Positive(k, price);
  }

  lemma FreeCovers(p: Prices, prompt: int, maxOutput: int, u: Usage)
    requires TokensFree(p)
    ensures TokenCost(p, u) <= TokenEstimate(p, prompt, maxOutput)
  {
    assert prompt * p.input + maxOutput * p.output == 0;
    assert TokenSum(p, u) == 0;
  }

  lemma PriceExceeds(price: int, m: real, bound: nat) returns (k: nat)
    requires 0 < price && 0.0 < m
    ensures bound < ApplyMultiplier(k * price, m, false)
  {
    k := Enough(bound as real + 1.0, m);
    CostsMore(k, price, m, bound);
  }

  lemma UsageExceeds(p: Prices, bound: nat) returns (u: Usage)
    requires PricesNonNegative(p) && !TokensFree(p)
    ensures NonNegative(u) && bound < TokenCost(p, u)
  {
    var k := PriceExceeds(SomePrice(p), SettlementMultiplier(p), bound);
    MillionsCost(p, k);
    u := MillionsAt(p, k);
  }

  /** No hold, however large its estimate, covers every usage, unless the tokens are free. */
  lemma AnyUsageCoveredExactly(p: Prices, mode: string, requestType: string, prompt: int, maxOutput: int, units: int)
    requires PricesNonNegative(p) && mode != "request" && requestType != "image_generation"
    ensures CoversAnyUsage(p, mode, requestType, prompt, maxOutput, units) <==> TokensFree(p)
  {
    if TokensFree(p) {
      forall u ensures ActualCost(p, mode, requestType, u, units) <= EstimatedCost(p, mode, prompt, maxOutput, units) {
        PricedByTokens(p, mode, requestType, prompt, maxOutput, u, units);
        FreeCovers(p, prompt, maxOutput, u);
      }
    } else {
      var u := UsageExceeds(p, Max(TokenEstimate(p, prompt, maxOutput), 0));
      PricedByTokens(p, mode, requestType, prompt, maxOutput, u, units);
      assert !(ActualCost(p, mode, requestType, u, units) <= EstimatedCost(p, mode, prompt, maxOutput, units));
    }
  }

  lemma RequestWithin(p: Prices, units: int)
    requires 0 <= p.request && 1 <= units && (0.0 < p.multiplier || p.request == 0)
    ensures RequestCost(p, units) <= RequestEstimate(p, units)
  {
    ScaleTo(0, units, p.request);
    if 0.0 < p.multiplier {
      RoundBelowCeil(p.request * units, p.request * units, p.multiplier);
    }
  }

  lemma PricedByRequest(p: Prices, requestType: string, prompt: int, maxOutput: int, u: Usage, units: int)
    ensures ActualCost(p, "request", requestType, u, units) == RequestCost(p, units)
    ensures EstimatedCost(p, "request", prompt, maxOutput, units) == RequestEstimate(p, units)
  {
  }

  /** Priced by request, whatever its type and usage, every number of units is covered exactly when the
      multiplier is positive or the request is free. */
  lemma RequestCoveredExactly(p: Prices, requestType: string, prompt: int, maxOutput: int, u: Usage)
    requires 0 <= p.request
    ensures (forall units :: 1 <= units ==>
               ActualCost(p, "request", requestType, u, units) <= EstimatedCost(p, "request", prompt, maxOutput, units))
       <==> 0.0 < p.multiplier || p.request == 0
  {
    if 0.0 < p.multiplier || p.request == 0 {
      forall units | 1 <= units
        ensures ActualCost(p, "request", requestType, u, units)
             <= EstimatedCost(p, "request", prompt, maxOutput, units)
      {
        PricedByRequest(p, requestType, prompt, maxOutput, u, units);
        RequestWithin(p, units);
      }
    } else {
      EstimateAtMostOne(p.request * 2, p.multiplier);
      RoundWhole(p.request * 2);
      PricedByRequest(p, requestType, prompt, maxOutput, u, 2);
      assert ActualCost(p, "request", requestType, u, 2) > EstimatedCost(p, "request", prompt, maxOutput, 2);
    }
  }

  /** Every prompt's hold covers an image of this many units on a model priced by tokens. */
  ghost predicate ImageCovered(p: Prices, units: int, u: Usage) {
    forall prompt :: 0 <= prompt ==>
      ActualCost(p, "token", "image_generation", u, units) <= EstimatedCost(p, "token", prompt, 0, units)
  }

  /** A condition on the price list, for an image whose price times its units is `base`: settled, it
      rounds to at most one, and no prompt makes the estimate negative. */
  predicate CheapImage(p: Prices, base: int) {
    Cheap(base, SettlementMultiplier(p)) && (0.0 <= p.multiplier || p.input == 0)
  }

  predicate Cheap(base: int, m: real) {
    base as real * m < 1.5
  }

  /** The settled cost of an image, from its price times its units. */
  lemma ImageCost(p: Prices, units: int, base: int)
    requires 0 <= p.request && base == p.request * Max(units, 1)
    ensures 0 <= base && RequestCost(p, units) == ApplyMultiplier(base, SettlementMultiplier(p), false)
  {
    ScaleTo(0, Max(units, 1), p.request);
  }

  lemma RoundsToOne(base: int, m: real)
    requires 0 <= base && 0.0 < m
    ensures 0 <= ApplyMultiplier(base, m, false)
    ensures ApplyMultiplier(base, m, false) <= 1 <==> base as real * m < 1.5
  {
    Product(0, base, m);
  }

  /** What every prompt's hold covers. */
  ghost predicate AnyPromptCovers(p: Prices, cost: int) {
    forall prompt :: 0 <= prompt ==> cost <= TokenEstimate(p, prompt, 0)
  }

  lemma EmptyPrompt(p: Prices)
    ensures TokenEstimate(p, 0, 0) == 1
  {
  }

  lemma ScaledPrompts(p: Prices, cost: int)
    requires 0.0 < p.multiplier
    ensures AnyPromptCovers(p, cost) <==> cost <= 1
  {
    EmptyPrompt(p);
    forall prompt | 0 <= prompt ensures 1 <= TokenEstimate(p, prompt, 0) {
      EstimateAtLeastOne(TruncDiv(prompt * p.input + 0 * p.output, MILLION), p.multiplier);
    }
  }

  lemma ConstantEstimate(p: Prices, prompt: int)
    requires p.multiplier == 0.0 || p.input == 0
    ensures TokenEstimate(p, prompt, 0) == 1
  {
    assert p.input == 0 ==> prompt * p.input + 0 * p.output == 0;
  }

  /** A negative multiplier turns the estimate of a long enough prompt negative. */
  lemma NegativePrompt(p: Prices) returns (prompt: int)
    requires p.multiplier < 0.0 && 0 < p.input
    ensures 0 <= prompt && TokenEstimate(p, prompt, 0) < 0
  {
    var k := Enough(3.0, -p.multiplier);
    prompt := k * MILLION;
    WholeMillions(k, p.input);
    NegativeEstimate(k, p.input, p.multiplier);
    assert prompt * p.input + 0 * p.output == k * MILLION * p.input;
  }

  lemma UnscaledPrompts(p: Prices, cost: int)
    requires PricesNonNegative(p) && p.multiplier <= 0.0 && 0 <= cost
    ensures AnyPromptCovers(p, cost) <==> cost <= 1 && (p.multiplier == 0.0 || p.input == 0)
  {
    EmptyPrompt(p);
    if p.multiplier == 0.0 || p.input == 0 {
      forall prompt | 0 <= prompt ensures TokenEstimate(p, prompt, 0) == 1 {
        ConstantEstimate(p, prompt);
      }
    } else {
      var prompt := NegativePrompt(p);
      assert !(cost <= TokenEstimate(p, prompt, 0));
    }
  }

  lemma NegativeEstimate(k: nat, price: int, m: real)
    requires m < 0.0 && 0 < price && 3.0 <= k as real * -m
    ensures AtLeastOne(ApplyMultiplier(k * price, m, true)) < 0
  {
    Scale(k, 1, price);
    Product(k, k * price, -m);
    assert (k * price) as real * m == -((k * price) as real * -m);
  }

  lemma PromptsCover(p: Prices, cost: int, scaled: real)
    requires PricesNonNegative(p) && 0 <= cost && (cost <= 1 <==> scaled < 1.5)
    ensures AnyPromptCovers(p, cost) <==> scaled < 1.5 && (0.0 <= p.multiplier || p.input == 0)
  {
    if 0.0 < p.multiplier {
      ScaledPrompts(p, cost);
    } else {
      UnscaledPrompts(p, cost);
    }
  }

  lemma CoveredAt(p: Prices, base: int, m: real, cost: int)
    requires PricesNonNegative(p) && 0 <= base && 0.0 < m && cost == ApplyMultiplier(base, m, false)
    ensures AnyPromptCovers(p, cost) <==> Cheap(base, m) && (0.0 <= p.multiplier || p.input == 0)
  {
    RoundsToOne(base, m);
    PromptsCover(p, cost, base as real * m);
  }

  lemma ImageByCost(p: Prices, units: int, u: Usage, base: int, cost: int)
    requires 0 <= p.request && base == p.request * Max(units, 1)
    requires cost == ApplyMultiplier(base, SettlementMultiplier(p), false)
    ensures 0 <= base && (ImageCovered(p, units, u) <==> AnyPromptCovers(p, cost))
  {
    ImageCost(p, units, base);
    assert ActualCost(p, "token", "image_generation", u, units) == cost;
    assert forall prompt :: EstimatedCost(p, "token", prompt, 0, units) == TokenEstimate(p, prompt, 0);
  }

  /** An image on a model priced by tokens is held for its prompt but billed by the unit: every prompt
      covers it exactly when its price times its units is as good as nothing. */
  lemma ImageOnTokenModelExactly(p: Prices, units: int, u: Usage, base: int)
    requires PricesNonNegative(p) && base == p.request * Max(units, 1)
    ensures ImageCovered(p, units, u) <==> CheapImage(p, base)
  {
    var m := SettlementMultiplier(p);
    ImageByCost(p, units, u, base, ApplyMultiplier(base, m, false));
    CoveredAt(p, base, m, ApplyMultiplier(base, m, false));
  }
}
