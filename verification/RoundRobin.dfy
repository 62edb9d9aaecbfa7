/**
 Weighted round-robin over a shared 64-bit counter. A pick advances the counter and reduces it modulo
 the total weight; each channel owns a contiguous range of residues as long as its weight.
 */
module RoundRobin {
  import opened Prelude

  const WRAP: nat := 0x1_0000_0000_0000_0000

  /** A counter that returns to zero after `wrap` steps; the source's has WRAP of them. */
  type Width = wrap: nat | 2 <= wrap witness 2

  datatype Url = Url(host: string, path: string)

  /** `baseUrl` is None when it does not parse to a scheme and a host. */
  datatype Channel = Channel(id: int, weight: Option<int>, baseUrl: Option<Url>)

  /** readChannelWeight: a missing or non-positive weight counts as one. */
  function Weight(ch: Channel): (w: nat)
    ensures 1 <= w && (w == 1 || ch.weight == Some(w)) && (ch.weight.Some? ==> ch.weight.value <= w)
  {
    if ch.weight.Some? && ch.weight.value > 0 then ch.weight.value else 1
  }

  function TotalWeight(cs: seq<Channel>): (total: nat)
    ensures |cs| <= total
  {
    if cs == [] then 0 else TotalWeight(cs[..|cs| - 1]) + Weight(cs[|cs| - 1])
  }

  /** Where the residues of channel i begin. */
  function Start(cs: seq<Channel>, i: nat): nat
    requires i <= |cs|
  {
    TotalWeight(cs[..i])
  }

  lemma StartStep(cs: seq<Channel>, i: nat)
    requires i < |cs|
    ensures Start(cs, i + 1) == Start(cs, i) + Weight(cs[i])
  {
    assert cs[..i + 1][..i] == cs[..i];
  }

  lemma {:induction false} StartGrows(cs: seq<Channel>, i: nat, j: nat)
    requires i <= j <= |cs|
    ensures Start(cs, i) + (j - i) <= Start(cs, j)
  {
    if i < j {
      StartGrows(cs, i, j - 1);
      StartStep(cs, j - 1);
    }
  }

  predicate Owns(cs: seq<Channel>, i: nat, target: nat) {
    i < |cs| && Start(cs, i) <= target < Start(cs, i + 1)
  }

  /** The one channel that owns a residue. */
  function Owner(cs: seq<Channel>, target: nat): (i: nat)
    requires target < TotalWeight(cs)
    ensures Owns(cs, i, target)
  {
    var last := |cs| - 1;
    assert cs[..last + 1] == cs;
    if TotalWeight(cs[..last]) <= target then last
    else
      var i := Owner(cs[..last], target);
      assert cs[..last][..i] == cs[..i] && cs[..last][..i + 1] == cs[..i + 1];
      i
  }

  lemma OwnerIsUnique(cs: seq<Channel>, i: nat, j: nat, target: nat)
    requires Owns(cs, i, target) && Owns(cs, j, target)
    ensures i == j
  {
    if i < j {
      StartGrows(cs, i + 1, j);
    } else if j < i {
      StartGrows(cs, j + 1, i);
    }
  }

  lemma OwnerOf(cs: seq<Channel>, i: nat, target: nat)
    requires i < |cs| && target < TotalWeight(cs)
    ensures Owner(cs, target) == i <==> Owns(cs, i, target)
  {
    if Owns(cs, i, target) {
      OwnerIsUnique(cs, i, Owner(cs, target), target);
    }
  }

  // Counting over a run of consecutive turns.

  function Turns(p: nat -> bool, n: nat): set<nat> {
    set k: nat | 1 <= k <= n && p(k)
  }

  /** How many of the turns 1 to n satisfy p. */
  function Count(p: nat -> bool, n: nat): nat {
    |Turns(p, n)|
  }

  lemma CountStep(p: nat -> bool, n: nat)
    ensures Count(p, 0) == 0
    ensures Count(p, n + 1) == Count(p, n) + if p(n + 1) then 1 else 0
  {
    assert Turns(p, 0) == {};
    assert Turns(p, n + 1) == Turns(p, n) + if p(n + 1) then {n + 1} else {};
  }

  lemma CountAgrees(p: nat -> bool, q: nat -> bool, n: nat)
    requires forall k :: 1 <= k <= n ==> (p(k) <==> q(k))
    ensures Count(p, n) == Count(q, n)
  {
    assert Turns(p, n) == Turns(q, n);
  }

  lemma {:induction false} CountSplits(p: nat -> bool, q: nat -> bool, n: nat, m: nat)
    requires forall k :: 1 <= k <= m ==> (q(k) <==> p(n + k))
    ensures Count(p, n + m) == Count(p, n) + Count(q, m)
  {
    CountStep(q, 0);
    if m > 0 {
      CountSplits(p, q, n, m - 1);
      CountStep(p, n + m - 1);
      CountStep(q, m - 1);
      assert q(m) <==> p(n + m);
    }
  }

  // Residues.

  lemma Residue(x: int, q: int, r: int, total: nat)
    requires 0 <= r < total && x == q * total + r
    ensures x / total == q && x % total == r
  {
    assert x == (x / total) * total + x % total;
    SmallMultiple(q - x / total, total, x % total - r);
  }

  lemma SmallMultiple(d: int, total: nat, y: int)
    requires d * total == y && 0 - total < y < total
    ensures d == 0 && y == 0
  {
    assert d >= 1 ==> d * total >= total;
    assert d <= -1 ==> d * total <= 0 - total;
  }

  lemma SameResidue(x: int, y: int, d: int, total: nat)
    requires 0 < total && x == y + d * total
    ensures x % total == y % total
  {
    var q := y / total;
    assert y == q * total + y % total;
    assert (q + d) * total == q * total + d * total;
    Residue(x, q + d, y % total, total);
  }

  /** Whether the k-th number after a has a residue between lo and hi. */
  function InRange(lo: nat, hi: nat, total: nat, a: int): nat -> bool
    requires 0 < total
  {
    (k: nat) => lo <= (a + k) % total < hi
  }

  function Hits(lo: nat, hi: nat, total: nat, a: int, n: nat): nat
    requires 0 < total
  {
    Count(InRange(lo, hi, total, a), n)
  }

  lemma HitsSplit(lo: nat, hi: nat, total: nat, a: int, n: nat, m: nat)
    requires 0 < total
    ensures Hits(lo, hi, total, a, n + m) == Hits(lo, hi, total, a, n) + Hits(lo, hi, total, a + n, m)
  {
    var p, q := InRange(lo, hi, total, a), InRange(lo, hi, total, a + n);
    assert forall k :: 1 <= k <= m ==> a + n + k == a + (n + k) && (q(k) <==> p(n + k));
    CountSplits(p, q, n, m);
  }

  lemma HitsOne(lo: nat, hi: nat, total: nat, a: int)
    requires 0 < total
    ensures Hits(lo, hi, total, a, 1) == if lo <= (a + 1) % total < hi then 1 else 0
  {
    CountStep(InRange(lo, hi, total, a), 0);
  }

  lemma {:induction false} HitsFromZero(lo: nat, hi: nat, total: nat, n: nat)
    requires lo <= hi <= total && n <= total && 0 < total
    ensures Hits(lo, hi, total, -1, n) == Min(Max(n - lo, 0), hi - lo)
  {
    CountStep(InRange(lo, hi, total, -1), 0);
    if n > 0 {
      HitsFromZero(lo, hi, total, n - 1);
      CountStep(InRange(lo, hi, total, -1), n - 1);
      Residue(n - 1, 0, n - 1, total);
      assert InRange(lo, hi, total, -1)(n) <==> lo <= n - 1 < hi;
    }
  }

  /** Any window of one total contains each residue once. */
  lemma {:induction false} OneRound(lo: nat, hi: nat, total: nat, a: int)
    requires lo <= hi <= total && 0 < total && -1 <= a
    ensures Hits(lo, hi, total, a, total) == hi - lo
    decreases a
  {
    if a == -1 {
      HitsFromZero(lo, hi, total, total);
    } else {
      OneRound(lo, hi, total, a - 1);
      HitsSplit(lo, hi, total, a - 1, 1, total - 1);
      HitsSplit(lo, hi, total, a, total - 1, 1);
      HitsOne(lo, hi, total, a - 1);
      HitsOne(lo, hi, total, a + (total - 1));
      SameResidue(a + total, a, 1, total);
      assert a - 1 + 1 == a && a + (total - 1) + 1 == a + total && 1 + (total - 1) == total;
    }
  }

  /** q whole rounds and a part of one. */
  lemma {:induction false} ManyRounds(lo: nat, hi: nat, total: nat, a: nat, q: nat, r: nat, w: nat)
    requires lo <= hi <= total && r < total && w == hi - lo
    ensures q * w <= Hits(lo, hi, total, a, q * total + r) <= (q + 1) * w
    decreases q
  {
    OneRound(lo, hi, total, a);
    if q == 0 {
      HitsSplit(lo, hi, total, a, r, total - r);
    } else {
      ManyRounds(lo, hi, total, a + total, q - 1, r, w);
      OneMore(q, total, r);
      HitsSplit(lo, hi, total, a, total, (q - 1) * total + r);
      OneMore(q, w, 0);
      OneMore(q + 1, w, 0);
    }
  }

  lemma OneMore(q: nat, x: nat, r: nat)
    requires 0 < q
    ensures q * x + r == x + ((q - 1) * x + r)
  {
  }

  // Picks.

  /** The counter after k further picks. */
  function Counter(wrap: Width, start: nat, k: nat): nat {
    (start + k) % wrap
  }

  function Chosen(cs: seq<Channel>, counter: nat): nat
    requires cs != []
  {
    Owner(cs, counter % TotalWeight(cs))
  }

  function ChoosesAt(wrap: Width, cs: seq<Channel>, start: nat, i: nat): nat -> bool
    requires cs != []
  {
    (k: nat) => Chosen(cs, Counter(wrap, start, k)) == i
  }

  /** How often n picks after the counter value `start` choose channel i. */
  function Picks(wrap: Width, cs: seq<Channel>, start: nat, n: nat, i: nat): nat
    requires cs != []
  {
    Count(ChoosesAt(wrap, cs, start, i), n)
  }

  lemma PicksStep(wrap: Width, cs: seq<Channel>, start: nat, n: nat, i: nat)
    requires cs != []
    ensures Picks(wrap, cs, start, 0, i) == 0
    ensures 0 < n ==> Picks(wrap, cs, start, n, i)
                      == Picks(wrap, cs, start, n - 1, i) + if Chosen(cs, Counter(wrap, start, n)) == i then 1 else 0
  {
    CountStep(ChoosesAt(wrap, cs, start, i), if 0 < n then n - 1 else 0);
  }

  /** The counter's residues over the next n picks are those of the numbers after a. */
  predicate Follows(wrap: Width, start: nat, a: int, n: nat, total: nat)
    requires 0 < total
  {
    forall k {:trigger Counter(wrap, start, k)} :: 1 <= k <= n ==> Counter(wrap, start, k) % total == (a + k) % total
  }

  lemma ChosenInRange(cs: seq<Channel>, counter: nat, y: int, i: nat)
    requires i < |cs| && counter % TotalWeight(cs) == y % TotalWeight(cs)
    ensures Chosen(cs, counter) == i <==> Start(cs, i) <= y % TotalWeight(cs) < Start(cs, i + 1)
  {
    OwnerOf(cs, i, counter % TotalWeight(cs));
  }

  lemma ChoosesInRange(wrap: Width, cs: seq<Channel>, start: nat, a: int, i: nat, k: nat)
    requires i < |cs| && Counter(wrap, start, k) % TotalWeight(cs) == (a + k) % TotalWeight(cs)
    ensures ChoosesAt(wrap, cs, start, i)(k) <==> InRange(Start(cs, i), Start(cs, i + 1), TotalWeight(cs), a)(k)
  {
    ChosenInRange(cs, Counter(wrap, start, k), a + k, i);
  }

  /** Picks are hits, as long as the counter's wrap does not break the sequence of residues. */
  lemma PicksAreHits(wrap: Width, cs: seq<Channel>, start: nat, a: int, n: nat, i: nat)
    requires i < |cs| && Follows(wrap, start, a, n, TotalWeight(cs))
    ensures Picks(wrap, cs, start, n, i) == Hits(Start(cs, i), Start(cs, i + 1), TotalWeight(cs), a, n)
  {
    var p, q := ChoosesAt(wrap, cs, start, i), InRange(Start(cs, i), Start(cs, i + 1), TotalWeight(cs), a);
    assert forall k :: 1 <= k <= n ==> (p(k) <==> q(k)) by {
      forall k | 1 <= k <= n ensures p(k) <==> q(k) {
        assert Counter(wrap, start, k) % TotalWeight(cs) == (a + k) % TotalWeight(cs);
        ChoosesInRange(wrap, cs, start, a, i, k);
      }
    }
    CountAgrees(p, q, n);
  }

  /** Away from the counter's wrap, or for a total that divides the counter's width. */
  predicate NoBreak(wrap: Width, start: nat, n: nat, total: nat)
    requires 0 < total
  {
    start + n < wrap || wrap % total == 0
  }

  lemma NoBreakKeepsResidues(wrap: Width, start: nat, n: nat, total: nat)
    requires 0 < total && NoBreak(wrap, start, n, total)
    ensures Follows(wrap, start, start, n, total)
  {
    forall k | 1 <= k <= n ensures Counter(wrap, start, k) % total == (start + k) % total {
      if start + n < wrap {
        Residue(start + k, 0, start + k, wrap);
      } else {
        WrapKeepsResidue(wrap, start + k, total);
      }
    }
  }

  lemma WrapKeepsResidue(wrap: Width, x: nat, total: nat)
    requires 0 < total && wrap % total == 0
    ensures x % wrap % total == x % total
  {
    var q, y := x / wrap, x % wrap;
    var p := wrap / total;
    assert wrap == p * total;
    assert x == q * wrap + y;
    assert q * wrap == (q * p) * total;
    SameResidue(x, y, q * p, total);
  }

  lemma Bounds(cs: seq<Channel>, i: nat)
    requires i < |cs|
    ensures Start(cs, i + 1) - Start(cs, i) == Weight(cs[i])
    ensures Start(cs, i + 1) <= TotalWeight(cs)
  {
    StartStep(cs, i);
    StartGrows(cs, i + 1, |cs|);
    assert cs[..|cs|] == cs;
  }

  lemma HitsWithoutBreak(wrap: Width, cs: seq<Channel>, start: nat, n: nat, i: nat)
    requires i < |cs| && NoBreak(wrap, start, n, TotalWeight(cs))
    ensures Picks(wrap, cs, start, n, i) == Hits(Start(cs, i), Start(cs, i + 1), TotalWeight(cs), start, n)
  {
    NoBreakKeepsResidues(wrap, start, n, TotalWeight(cs));
    PicksAreHits(wrap, cs, start, start, n, i);
  }

  /** Exact fairness: as many consecutive picks as the total weight choose each channel exactly as
      often as its weight, wherever the counter stands. */
  lemma FairWindow(wrap: Width, cs: seq<Channel>, start: nat, i: nat)
    requires i < |cs| && NoBreak(wrap, start, TotalWeight(cs), TotalWeight(cs))
    ensures Picks(wrap, cs, start, TotalWeight(cs), i) == Weight(cs[i])
  {
    HitsWithoutBreak(wrap, cs, start, TotalWeight(cs), i);
    Bounds(cs, i);
    OneRound(Start(cs, i), Start(cs, i + 1), TotalWeight(cs), start);
  }

  lemma FairRounds(wrap: Width, cs: seq<Channel>, start: nat, n: nat, i: nat, total: nat, q: nat, r: nat)
    requires i < |cs| && total == TotalWeight(cs) && n == q * total + r && r < total && NoBreak(wrap, start, n, total)
    ensures q * Weight(cs[i]) <= Picks(wrap, cs, start, n, i) <= (q + 1) * Weight(cs[i])
  {
    HitsWithoutBreak(wrap, cs, start, n, i);
    Bounds(cs, i);
    ManyRounds(Start(cs, i), Start(cs, i + 1), total, start, q, r, Weight(cs[i]));
  }

  /** Any number of picks is fair up to one round. */
  lemma FairOverall(wrap: Width, cs: seq<Channel>, start: nat, n: nat, i: nat, rounds: nat)
    requires i < |cs| && rounds == n / TotalWeight(cs) && NoBreak(wrap, start, n, TotalWeight(cs))
    ensures rounds * Weight(cs[i]) <= Picks(wrap, cs, start, n, i) <= (rounds + 1) * Weight(cs[i])
  {
    var r := Remainder(n, TotalWeight(cs), rounds);
    FairRounds(wrap, cs, start, n, i, TotalWeight(cs), rounds, r);
  }

  lemma Remainder(n: nat, total: nat, q: nat) returns (r: nat)
    requires 0 < total && q == n / total
    ensures n == q * total + r && r < total
  {
    r := n % total;
  }

  // Across the wrap.

  predicate FairFrom(wrap: Width, cs: seq<Channel>, start: nat)
    requires cs != []
  {
    forall i :: 0 <= i < |cs| ==> Picks(wrap, cs, start, TotalWeight(cs), i) == Weight(cs[i])
  }

  lemma CounterAdds(wrap: Width, start: nat, n: nat, m: nat)
    ensures Counter(wrap, Counter(wrap, start, n), m) == Counter(wrap, start, n + m)
  {
    var p, y := (start + n) / wrap, (start + n) % wrap;
    assert start + n == p * wrap + y;
    SameResidue(start + (n + m), y + m, p, wrap);
  }

  lemma NextCounter(wrap: Width, start: nat, n: nat)
    ensures (Counter(wrap, start, n) + 1) % wrap == Counter(wrap, start, n + 1)
  {
    CounterAdds(wrap, start, n, 1);
  }

  lemma PicksSplit(wrap: Width, cs: seq<Channel>, start: nat, n: nat, m: nat, i: nat)
    requires cs != []
    ensures Picks(wrap, cs, start, n + m, i)
        == Picks(wrap, cs, start, n, i) + Picks(wrap, cs, Counter(wrap, start, n), m, i)
  {
    var p, q := ChoosesAt(wrap, cs, start, i), ChoosesAt(wrap, cs, Counter(wrap, start, n), i);
    forall k | 1 <= k <= m ensures q(k) <==> p(n + k) {
      CounterAdds(wrap, start, n, k);
    }
    CountSplits(p, q, n, m);
  }

  lemma FollowsFromZero(wrap: Width, n: nat, total: nat)
    requires 0 < total && n < wrap
    ensures Follows(wrap, wrap - 1, -1, n, total)
  {
    forall k {:trigger Counter(wrap, wrap - 1, k)} | 1 <= k <= n ensures Counter(wrap, wrap - 1, k) == k - 1 {
      Residue(wrap - 1 + k, 1, k - 1, wrap);
    }
  }

  lemma HitsFromWrap(wrap: Width, cs: seq<Channel>, n: nat, i: nat)
    requires i < |cs| && n < wrap
    ensures Picks(wrap, cs, wrap - 1, n, i) == Hits(Start(cs, i), Start(cs, i + 1), TotalWeight(cs), -1, n)
  {
    FollowsFromZero(wrap, n, TotalWeight(cs));
    PicksAreHits(wrap, cs, wrap - 1, -1, n, i);
  }

  lemma PicksSplitAtWrap(wrap: Width, cs: seq<Channel>, start: nat, before: nat, after: nat, i: nat)
    requires cs != [] && start + before == wrap - 1
    ensures Picks(wrap, cs, start, before + after, i)
        == Picks(wrap, cs, start, before, i) + Picks(wrap, cs, wrap - 1, after, i)
  {
    PicksSplit(wrap, cs, start, before, after, i);
    Residue(start + before, 0, wrap - 1, wrap);
  }

  /** The residues of channel i, named. */
  predicate Owned(cs: seq<Channel>, i: nat, lo: nat, hi: nat, total: nat) {
    i < |cs| && lo == Start(cs, i) && hi == Start(cs, i + 1) && total == TotalWeight(cs)
  }

  /** The picks of a window that crosses the wrap, before and after it. */
  lemma PicksAcross(wrap: Width, cs: seq<Channel>, start: nat, before: nat, after: nat, i: nat, lo: nat, hi: nat,
                    total: nat)
    requires Owned(cs, i, lo, hi, total) && start + before == wrap - 1 && after < wrap
    ensures Picks(wrap, cs, start, before + after, i)
        == Hits(lo, hi, total, start, before) + Hits(lo, hi, total, -1, after)
  {
    PicksSplitAtWrap(wrap, cs, start, before, after, i);
    HitsWithoutBreak(wrap, cs, start, before, i);
    HitsFromWrap(wrap, cs, after, i);
  }

  /** A single window that crosses the wrap, with `before` of its picks before it, is fair to a channel
      exactly when the last `before` numbers below the counter's width have as many residues in the
      channel's range as the last `before` residues of a round. */
  lemma CrossingWindowExactly(wrap: Width, cs: seq<Channel>, start: nat, before: nat, i: nat, lo: nat, hi: nat,
                              total: nat)
    requires Owned(cs, i, lo, hi, total) && start + before == wrap - 1 && before <= total < wrap
    ensures Picks(wrap, cs, start, total, i) == Weight(cs[i])
       <==> Hits(lo, hi, total, start, before) == Hits(lo, hi, total, total - before - 1, before)
  {
    var after := total - before;
    PicksAcross(wrap, cs, start, before, after, i, lo, hi, total);
    Bounds(cs, i);
    OneRound(lo, hi, total, -1);
    HitsSplit(lo, hi, total, -1, after, before);
  }

  /** How often the last channel is chosen in the window that starts one pick before the wrap. */
  lemma EarlyWindow(wrap: Width, cs: seq<Channel>, i: nat, lo: nat, total: nat, start: nat, r: nat)
    requires Owned(cs, i, lo, total, total) && lo < total < wrap && start + 2 == wrap && r == (wrap - 1) % total
    ensures Picks(wrap, cs, start, total, i) == total - lo - 1 + if lo <= r then 1 else 0
  {
    PicksAcross(wrap, cs, start, 1, total - 1, i, lo, total, total);
    EarlyHits(lo, total, start, wrap - 1, r);
  }

  lemma EarlyHits(lo: nat, total: nat, a: int, next: int, r: nat)
    requires lo < total && next == a + 1 && r == next % total
    ensures Hits(lo, total, total, a, 1) + Hits(lo, total, total, -1, total - 1)
         == total - lo - 1 + if lo <= r then 1 else 0
  {
    HitsOne(lo, total, total, a);
    HitsFromZero(lo, total, total, total - 1);
  }

  /** And in the window that ends one pick after it. */
  lemma LateWindow(wrap: Width, cs: seq<Channel>, i: nat, lo: nat, total: nat, start: nat, r: nat)
    requires Owned(cs, i, lo, total, total) && 1 <= lo < total < wrap && start + total == wrap && r == wrap % total
    ensures Picks(wrap, cs, start, total, i) == total - lo - if lo <= r then 1 else 0
  {
    PicksAcross(wrap, cs, start, total - 1, 1, i, lo, total, total);
    LateHits(lo, total, start, wrap, r);
  }

  lemma LateHits(lo: nat, total: nat, a: int, wrap: nat, r: nat)
    requires 1 <= lo < total && a + total == wrap && -1 <= a && r == wrap % total
    ensures Hits(lo, total, total, a, total - 1) + Hits(lo, total, total, -1, 1)
         == total - lo - if lo <= r then 1 else 0
  {
    OneRound(lo, total, total, a);
    HitsSplit(lo, total, total, a, total - 1, 1);
    HitsOne(lo, total, total, a + (total - 1));
    HitsFromZero(lo, total, total, 1);
  }

  lemma LastRange(cs: seq<Channel>)
    requires 2 <= |cs|
    ensures 1 <= Start(cs, |cs| - 1) < Start(cs, |cs|) == TotalWeight(cs)
    ensures Start(cs, |cs|) - Start(cs, |cs| - 1) == Weight(cs[|cs| - 1])
  {
    Bounds(cs, |cs| - 1);
    StartGrows(cs, 0, |cs| - 1);
    assert cs[..|cs|] == cs;
  }

  /** With two or more channels every window is fair, the wrap included, if and only if the total
      weight divides the counter's width. */
  lemma FairAcrossWrapExactly(wrap: Width, cs: seq<Channel>)
    requires 2 <= |cs| && TotalWeight(cs) < wrap
    ensures (forall start :: 0 <= start < wrap ==> FairFrom(wrap, cs, start)) <==> wrap % TotalWeight(cs) == 0
  {
    var total := TotalWeight(cs);
    if wrap % total == 0 {
      forall start, i | 0 <= start < wrap && 0 <= i < |cs|
        ensures Picks(wrap, cs, start, total, i) == Weight(cs[i])
      {
        FairWindow(wrap, cs, start, i);
      }
    } else {
      UnfairSomewhere(wrap, cs);
    }
  }

  lemma UnfairSomewhere(wrap: Width, cs: seq<Channel>)
    requires 2 <= |cs| && TotalWeight(cs) < wrap && wrap % TotalWeight(cs) != 0
    ensures !FairFrom(wrap, cs, wrap - 2) || !FairFrom(wrap, cs, wrap - TotalWeight(cs))
  {
    LastRange(cs);
    UnfairForLast(wrap, cs, |cs| - 1, Start(cs, |cs| - 1), TotalWeight(cs));
  }

  lemma UnfairForLast(wrap: Width, cs: seq<Channel>, last: nat, lo: nat, total: nat)
    requires Owned(cs, last, lo, total, total) && Weight(cs[last]) == total - lo
    requires 1 <= lo < total < wrap && wrap % total != 0
    ensures Picks(wrap, cs, wrap - 2, total, last) != Weight(cs[last])
        || Picks(wrap, cs, wrap - total, total, last) != Weight(cs[last])
  {
    var r := wrap % total;
    ResidueBefore(wrap, total);
    EarlyWindow(wrap, cs, last, lo, total, wrap - 2, r - 1);
    LateWindow(wrap, cs, last, lo, total, wrap - total, r);
  }

  lemma ResidueBefore(x: nat, total: nat)
    requires 0 < total && x % total != 0
    ensures (x - 1) % total == x % total - 1
  {
    assert x == (x / total) * total + x % total;
    Residue(x - 1, x / total, x % total - 1, total);
  }
}
