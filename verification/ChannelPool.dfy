/**
 Choosing a channel: walk the pool in order, skip excluded, blocked and unsuitable channels, then pick
 one of the rest by weight. A walk is also a round of breaker checks, and a check can change a breaker.
 */
module ChannelPool {
  import opened Prelude
  import opened Breaker
  import opened RoundRobin

  /** Everything a choice depends on and changes. */
  datatype Pool = Pool(channels: seq<Channel>, table: map<int, Breaker>, index: nat)

  /** Channel ids are a primary key. */
  ghost predicate DistinctIds(cs: seq<Channel>) {
    forall i, j :: 0 <= i < j < |cs| ==> cs[i].id != cs[j].id
  }

  function Ids(cs: seq<Channel>): set<int> {
    set i | 0 <= i < |cs| :: cs[i].id
  }

  /** Whether a request's walk keeps a channel. `suits` stands for its needs: asynchronous tasks,
      capabilities and model; `clock` is the reading when the walk checks the channel of an id. */
  predicate Passes(table: map<int, Breaker>, excluded: set<int>, clock: int -> int, suits: Channel -> bool,
                   ch: Channel) {
    ch.id !in excluded && !Blocked(Lookup(table, ch.id), clock(ch.id)) && suits(ch)
  }

  function Eligible(cs: seq<Channel>, table: map<int, Breaker>, excluded: set<int>, clock: int -> int,
                    suits: Channel -> bool): seq<Channel> {
    if cs == [] then []
    else
      var last := cs[|cs| - 1];
      Eligible(cs[..|cs| - 1], table, excluded, clock, suits)
      + if Passes(table, excluded, clock, suits, last) then [last] else []
  }

  /** The breakers after a walk: every channel not excluded was checked, whether or not it suits. */
  function Walked(cs: seq<Channel>, table: map<int, Breaker>, excluded: set<int>,
                  clock: int -> int): map<int, Breaker> {
    map id | id in table ::
      if id in Ids(cs) && id !in excluded then After(Some(table[id]), Check(clock(id))).value else table[id]
  }

  /** The counter moves only for a choice between two or more. */
  function IndexAfter(index: nat, candidates: seq<Channel>): nat {
    if |candidates| <= 1 then index else (index + 1) % WRAP
  }

  function Picked(index: nat, candidates: seq<Channel>): Channel
    requires candidates != []
  {
    if |candidates| == 1 then candidates[0] else candidates[Chosen(candidates, (index + 1) % WRAP)]
  }

  function Candidates(pool: Pool, excluded: set<int>, clock: int -> int, suits: Channel -> bool): seq<Channel> {
    Eligible(pool.channels, pool.table, excluded, clock, suits)
  }

  function Next(pool: Pool, excluded: set<int>, clock: int -> int, suits: Channel -> bool): Option<Channel> {
    var candidates := Candidates(pool, excluded, clock, suits);
    if candidates == [] then None else Some(Picked(pool.index, candidates))
  }

  function AfterNext(pool: Pool, excluded: set<int>, clock: int -> int, suits: Channel -> bool): Pool {
    Pool(pool.channels,
         Walked(pool.channels, pool.table, excluded, clock),
         IndexAfter(pool.index, Candidates(pool, excluded, clock, suits)))
  }

  /** What other requests do to a shared pool meanwhile: events on any channels, and where they leave the
      counter. */
  datatype Traffic = Traffic(events: seq<ChannelEvent>, index: nat)

  function Meanwhile(pool: Pool, traffic: Traffic): Pool {
    pool.(table := SteppedAll(pool.table, traffic.events), index := traffic.index)
  }

  class Manager {
    var channels: seq<Channel>
    var index: nat
    const breakers: Breakers

    constructor ()
      ensures View() == Pool([], map[], 0) && fresh(breakers)
    {
      channels, index := [], 0;
      breakers := new Breakers();
    }

    function View(): Pool
      reads this, breakers
    {
      Pool(channels, breakers.table, index)
    }

    method LoadChannels(active: seq<Channel>)
      modifies this`channels
      ensures View() == old(View()).(channels := active)
    {
      channels := active;
    }

    /** The work of other requests between two steps of this one. */
    method Interleave(traffic: Traffic)
      modifies this`index, breakers
      ensures View() == Meanwhile(old(View()), traffic)
    {
      ghost var before := breakers.table;
      var i := 0;
      assert traffic.events[..i] == [];
      while i < |traffic.events|
        invariant 0 <= i <= |traffic.events| && breakers.table == SteppedAll(before, traffic.events[..i])
      {
        breakers.Apply(traffic.events[i]);
        assert traffic.events[..i + 1][..i] == traffic.events[..i];
        i := i + 1;
      }
      assert traffic.events[..i] == traffic.events;
      index := traffic.index;
    }

    /** pickWeightedChannel. `fellThrough` tells whether the loop ended without a choice. */
    method PickWeightedChannel(candidates: seq<Channel>) returns (picked: Channel, ghost fellThrough: bool)
      requires candidates != []
      modifies this`index
      ensures picked == Picked(old(index), candidates) && index == IndexAfter(old(index), candidates)
      ensures !fellThrough
    {
      fellThrough := false;
      if |candidates| == 1 {
        return candidates[0], false;
      }
      var total := SumWeights(candidates);
      index := (index + 1) % WRAP;
      picked, fellThrough := ScanWeights(candidates, index % total);
    }

    method SumWeights(candidates: seq<Channel>) returns (total: nat)
      ensures total == TotalWeight(candidates)
    {
      total := 0;
      var i := 0;
      while i < |candidates|
        invariant 0 <= i <= |candidates| && total == Start(candidates, i)
      {
        StartStep(candidates, i);
        total := total + Weight(candidates[i]);
        i := i + 1;
      }
      assert candidates[..i] == candidates;
    }

    /** The loop over prefix sums. */
    method ScanWeights(candidates: seq<Channel>, target: nat) returns (picked: Channel, ghost fellThrough: bool)
      requires candidates != [] && target < TotalWeight(candidates)
      ensures picked == candidates[Owner(candidates, target)] && !fellThrough
    {
      picked, fellThrough := candidates[|candidates| - 1], true;
      var current, i := 0, 0;
      while i < |candidates|
        invariant 0 <= i <= |candidates| && current == Start(candidates, i)
        invariant current <= target
        invariant i == |candidates| ==> current == TotalWeight(candidates)
      {
        StartStep(candidates, i);
        assert candidates[..|candidates|] == candidates;
        current := current + Weight(candidates[i]);
        if target < current {
          OwnerOf(candidates, i, target);
          picked, fellThrough := candidates[i], false;
          break;
        }
        i := i + 1;
      }
    }

    /** getNextChannel; None stands for its two errors. */
    method GetNextChannel(excluded: set<int>, clock: int -> int, suits: Channel -> bool)
      returns (picked: Option<Channel>)
      requires DistinctIds(channels)
      modifies this`index, breakers
      ensures picked == Next(old(View()), excluded, clock, suits)
      ensures Serves(old(View()), excluded, clock, suits, picked)
      ensures View() == AfterNext(old(View()), excluded, clock, suits)
    {
      ChosenMayServe(View(), excluded, clock, suits);
      var available := Filter(excluded, clock, suits);
      if available == [] {
        return None;
      }
      var ch, _ := PickWeightedChannel(available);
      return Some(ch);
    }

    /** The walk over the pool. */
    method Filter(excluded: set<int>, clock: int -> int, suits: Channel -> bool) returns (available: seq<Channel>)
      requires DistinctIds(channels)
      modifies breakers
      ensures available == Eligible(channels, old(breakers.table), excluded, clock, suits)
      ensures breakers.table == Walked(channels, old(breakers.table), excluded, clock)
    {
      ghost var before := breakers.table;
      available := [];
      var i := 0;
      NothingWalked(before, excluded, clock);
      assert channels[..i] == [];
      while i < |channels|
        invariant 0 <= i <= |channels|
        invariant breakers.table == Walked(channels[..i], before, excluded, clock)
        invariant available == Eligible(channels[..i], before, excluded, clock, suits)
      {
        var ch := channels[i];
        WalkStep(channels, i, before, excluded, clock, suits);
        if ch.id !in excluded {
          var blocked := breakers.IsCircuitBlocked(ch.id, clock(ch.id));
          if !blocked && suits(ch) {
            available := available + [ch];
          }
        }
        i := i + 1;
      }
      assert channels[..i] == channels;
    }
  }

  lemma NothingWalked(table: map<int, Breaker>, excluded: set<int>, clock: int -> int)
    ensures Walked([], table, excluded, clock) == table
  {
    var after := Walked([], table, excluded, clock);
    assert forall id :: id in table ==> after[id] == table[id];
  }

  /** One channel of the walk: its own breaker is still untouched when it is checked. */
  lemma WalkStep(cs: seq<Channel>, i: nat, table: map<int, Breaker>, excluded: set<int>, clock: int -> int,
                 suits: Channel -> bool)
    requires i < |cs| && DistinctIds(cs)
    ensures var ch, sofar := cs[i], Walked(cs[..i], table, excluded, clock);
      && Lookup(sofar, ch.id) == Lookup(table, ch.id)
      && Walked(cs[..i + 1], table, excluded, clock)
         == (if ch.id in excluded then sofar else Stepped(sofar, ch.id, Check(clock(ch.id))))
      && Eligible(cs[..i + 1], table, excluded, clock, suits)
         == Eligible(cs[..i], table, excluded, clock, suits)
            + if Passes(table, excluded, clock, suits, ch) then [ch] else []
  {
    assert cs[..i + 1][..i] == cs[..i];
    assert Ids(cs[..i + 1]) == Ids(cs[..i]) + {cs[i].id} by {
      assert forall k :: 0 <= k < i ==> cs[..i + 1][k] == cs[..i][k];
      assert cs[..i + 1][i] == cs[i];
    }
    assert cs[i].id !in Ids(cs[..i]);
  }

  /** Eligible lists exactly the channels that pass, in pool order and without repetition. */
  lemma {:induction false} EligibleExactly(cs: seq<Channel>, table: map<int, Breaker>, excluded: set<int>,
                                           clock: int -> int, suits: Channel -> bool)
    ensures var kept := Eligible(cs, table, excluded, clock, suits);
      && (forall ch :: ch in kept <==> ch in cs && Passes(table, excluded, clock, suits, ch))
      && (DistinctIds(cs) ==> DistinctIds(kept))
  {
    if cs != [] {
      var init, last := cs[..|cs| - 1], cs[|cs| - 1];
      EligibleExactly(init, table, excluded, clock, suits);
      assert forall ch :: ch in cs <==> ch in init || ch == last;
      var kept := Eligible(init, table, excluded, clock, suits);
      if DistinctIds(cs) {
        forall i | 0 <= i < |kept| ensures kept[i].id != last.id {
          assert kept[i] in kept && kept[i] in init;
          var j :| 0 <= j < |init| && init[j] == kept[i];
          assert cs[j] == init[j];
        }
      }
    }
  }

  /** A choice is one of the channels that pass, and there is one whenever any channel passes. */
  lemma NextPasses(pool: Pool, excluded: set<int>, clock: int -> int, suits: Channel -> bool)
    ensures match Next(pool, excluded, clock, suits)
            case Some(ch) => ch in pool.channels && Passes(pool.table, excluded, clock, suits, ch)
            case None => forall ch :: ch in pool.channels ==> !Passes(pool.table, excluded, clock, suits, ch)
  {
    EligibleExactly(pool.channels, pool.table, excluded, clock, suits);
  }

  /** The breaker of a channel lets a check through: it has none, or one that is closed, out of its cooldown of
      thirty seconds, or half-open without a probe. */
  predicate LetsThrough(entry: Option<Breaker>, now: int) {
    || entry.None? || entry.value.state == Closed
    || (entry.value.state == Open
        && (entry.value.lastFailureAt.None? || 30_000_000_000 <= now - entry.value.lastFailureAt.value))
    || (entry.value.state == HalfOpen && !entry.value.probeInFlight)
  }

  /** The channel may serve the request: it is not excluded, meets the request's needs, and its breaker lets it
      through. */
  predicate MayServe(pool: Pool, excluded: set<int>, clock: int -> int, suits: Channel -> bool, ch: Channel) {
    ch.id !in excluded && suits(ch) && LetsThrough(Lookup(pool.table, ch.id), clock(ch.id))
  }

  /** A request is given a channel of the pool that may serve it, and none only if there is no such channel. */
  predicate Serves(pool: Pool, excluded: set<int>, clock: int -> int, suits: Channel -> bool, picked: Option<Channel>) {
    match picked
    case Some(ch) => ch in pool.channels && MayServe(pool, excluded, clock, suits, ch)
    case None => forall ch :: ch in pool.channels ==> !MayServe(pool, excluded, clock, suits, ch)
  }

  lemma ChosenMayServe(pool: Pool, excluded: set<int>, clock: int -> int, suits: Channel -> bool)
    ensures Serves(pool, excluded, clock, suits, Next(pool, excluded, clock, suits))
  {
    NextPasses(pool, excluded, clock, suits);
    assert forall ch :: MayServe(pool, excluded, clock, suits, ch) == Passes(pool.table, excluded, clock, suits, ch);
  }

  /** The walk sends out the probe of every channel that is open, past its cooldown and not excluded, and changes
      no other breaker. */
  lemma WalkChecks(pool: Pool, excluded: set<int>, clock: int -> int, suits: Channel -> bool, id: int)
    ensures var after := AfterNext(pool, excluded, clock, suits);
      && after.channels == pool.channels && after.table.Keys == pool.table.Keys
      && (id in pool.table ==>
            var cb := pool.table[id];
            after.table[id]
              == if (exists ch :: ch in pool.channels && ch.id == id) && id !in excluded && cb.state == Open
                    && LetsThrough(Some(cb), clock(id)) then cb.(state := HalfOpen, probeInFlight := true) else cb)
  {
    var cs := pool.channels;
    assert id in Ids(cs) <==> exists ch :: ch in cs && ch.id == id by {
      if id in Ids(cs) {
        var i :| 0 <= i < |cs| && cs[i].id == id;
        assert cs[i] in cs;
      }
    }
  }

  /** The counter moves, and wraps at 2^64, if and only if two channels may serve the request. */
  lemma CounterMoves(pool: Pool, excluded: set<int>, clock: int -> int, suits: Channel -> bool)
    requires DistinctIds(pool.channels)
    ensures AfterNext(pool, excluded, clock, suits).index
         == if exists a, b :: a in pool.channels && b in pool.channels && a != b
                && MayServe(pool, excluded, clock, suits, a) && MayServe(pool, excluded, clock, suits, b)
            then (pool.index + 1) % 18_446_744_073_709_551_616 else pool.index
  {
    var kept := Candidates(pool, excluded, clock, suits);
    EligibleExactly(pool.channels, pool.table, excluded, clock, suits);
    assert forall ch :: MayServe(pool, excluded, clock, suits, ch) == Passes(pool.table, excluded, clock, suits, ch);
    if 2 <= |kept| {
      assert kept[0] in kept && kept[1] in kept && kept[0] != kept[1];
    }
  }

  /** What the breaker hears of the request a channel was picked for. Not every caller reports: the task
      handler never does, nor do the retry loop's adapter and authentication exits. */
  datatype Verdict = Unreported | FailedAt(at: int) | Succeeded

  /** One request's use of the pool: a choice, then the verdict on the chosen channel. */
  datatype Round = Round(excluded: set<int>, clock: int -> int, suits: Channel -> bool, verdict: Verdict) {
    function Contenders(pool: Pool): seq<Channel> {
      Candidates(pool, excluded, clock, suits)
    }

    function Picks(pool: Pool): Option<Channel> {
      Next(pool, excluded, clock, suits)
    }

    predicate Skips(pool: Pool, id: int) {
      Picks(pool).Some? ==> Picks(pool).value.id != id
    }

    /** The channel's place in the pool when the request comes: it is the only candidate, or it owns the
        residue of the next counter value. */
    predicate IsNextInLine(pool: Pool, id: int) {
      var cs := Contenders(pool);
      exists i :: 0 <= i < |cs| && cs[i].id == id
                  && (|cs| == 1 || Owns(cs, i, ((pool.index + 1) % WRAP) % TotalWeight(cs)))
    }
  }

  function Judged(table: map<int, Breaker>, id: int, verdict: Verdict): map<int, Breaker> {
    match verdict
    case Unreported => table
    case FailedAt(at) => Stepped(table, id, Failure(at))
    case Succeeded => Stepped(table, id, Success)
  }

  function AfterRound(pool: Pool, r: Round): Pool {
    var after := AfterNext(pool, r.excluded, r.clock, r.suits);
    match r.Picks(pool)
    case None => after
    case Some(ch) => after.(table := Judged(after.table, ch.id, r.verdict))
  }

  // Fairness over requests.

  function AfterRounds(pool: Pool, rounds: seq<Round>): Pool {
    if |rounds| == 0 then pool else AfterRound(AfterRounds(pool, rounds[..|rounds| - 1]), rounds[|rounds| - 1])
  }

  /** How many of the requests are given the channel. */
  function TimesPicked(pool: Pool, rounds: seq<Round>, id: int): nat {
    if |rounds| == 0 then 0
    else
      var init := rounds[..|rounds| - 1];
      TimesPicked(pool, init, id)
      + if rounds[|rounds| - 1].Skips(AfterRounds(pool, init), id) then 0 else 1
  }

  /** Every request finds the same candidates. */
  ghost predicate SameContenders(pool: Pool, rounds: seq<Round>, cs: seq<Channel>) {
    |rounds| == 0
    || (SameContenders(pool, rounds[..|rounds| - 1], cs)
        && rounds[|rounds| - 1].Contenders(AfterRounds(pool, rounds[..|rounds| - 1])) == cs)
  }

  lemma OnePick(pool: Pool, r: Round, cs: seq<Channel>, i: nat, next: nat)
    requires DistinctIds(cs) && 2 <= |cs| && i < |cs| && r.Contenders(pool) == cs
    requires next == (pool.index + 1) % WRAP
    ensures r.Skips(pool, cs[i].id) <==> Chosen(cs, next) != i
    ensures AfterRound(pool, r).index == next
  {
    var j := Chosen(cs, next);
    assert r.Picks(pool) == Some(cs[j]);
    if i < j {
      assert cs[i].id != cs[j].id;
    } else if j < i {
      assert cs[j].id != cs[i].id;
    }
  }

  /** Requests that all find the same candidates are served as the shared counter's picks are. */
  lemma {:induction false} RequestsArePicks(pool: Pool, rounds: seq<Round>, cs: seq<Channel>, i: nat)
    requires DistinctIds(cs) && 2 <= |cs| && i < |cs| && pool.index < WRAP
    requires SameContenders(pool, rounds, cs)
    ensures AfterRounds(pool, rounds).index == Counter(WRAP, pool.index, |rounds|)
    ensures TimesPicked(pool, rounds, cs[i].id) == Picks(WRAP, cs, pool.index, |rounds|, i)
  {
    PicksStep(WRAP, cs, pool.index, |rounds|, i);
    if |rounds| > 0 {
      var init, last := rounds[..|rounds| - 1], rounds[|rounds| - 1];
      RequestsArePicks(pool, init, cs, i);
      NextCounter(WRAP, pool.index, |init|);
      OnePick(AfterRounds(pool, init), last, cs, i, Counter(WRAP, pool.index, |rounds|));
    }
  }

  /** Any T consecutive requests with the same candidates, of total weight T, give each channel exactly
      its weight in requests, away from the counter's wrap or if T divides its width. */
  lemma RequestsAreFair(pool: Pool, rounds: seq<Round>, cs: seq<Channel>, i: nat)
    requires DistinctIds(cs) && 2 <= |cs| && i < |cs| && pool.index < WRAP
    requires SameContenders(pool, rounds, cs) && |rounds| == TotalWeight(cs)
    requires NoBreak(WRAP, pool.index, |rounds|, TotalWeight(cs))
    ensures TimesPicked(pool, rounds, cs[i].id) == Weight(cs[i])
  {
    RequestsArePicks(pool, rounds, cs, i);
    FairWindow(WRAP, cs, pool.index, i);
  }

  // A check that costs a channel its only probe.

  /** Open and past its cooldown: the next check sends its one probe out. */
  predicate Due(table: map<int, Breaker>, id: int, now: int) {
    id in table && table[id].state == Open && Cooled(table[id].lastFailureAt, now)
  }

  predicate ProbeOut(table: map<int, Breaker>, id: int) {
    id in table && table[id].state == HalfOpen && table[id].probeInFlight
  }

  /** Anything that happens to the pool: a request, or a report or manual intervention from elsewhere, as
      of a request that was given its channel earlier. */
  datatype Happening = Request(round: Round) | Told(id: int, event: Event)

  function AfterHappening(pool: Pool, h: Happening): Pool {
    match h
    case Request(round) => AfterRound(pool, round)
    case Told(id, event) => pool.(table := Stepped(pool.table, id, event))
  }

  function AfterAllOf(pool: Pool, hs: seq<Happening>): Pool {
    if |hs| == 0 then pool else AfterHappening(AfterAllOf(pool, hs[..|hs| - 1]), hs[|hs| - 1])
  }

  /** A failure, success, reset or manual probe of the channel that does not come from a later request. */
  predicate Addresses(h: Happening, id: int) {
    h.Told? && h.id == id && !h.event.Check?
  }

  /** The walk sends out the probe of every channel that is due, not only of the one it picks. */
  lemma WalkSpendsProbes(pool: Pool, excluded: set<int>, clock: int -> int, suits: Channel -> bool, id: int)
    requires id in Ids(pool.channels) && id !in excluded && Due(pool.table, id, clock(id))
    ensures ProbeOut(AfterNext(pool, excluded, clock, suits).table, id)
  {
  }

  /** A request picks a channel exactly when it is next in line. */
  lemma PickedExactly(pool: Pool, r: Round, id: int)
    ensures !r.Skips(pool, id) <==> r.IsNextInLine(pool, id)
  {
    var cs, target := r.Contenders(pool), (pool.index + 1) % WRAP;
    if 1 < |cs| {
      OwnedByOne(cs, target % TotalWeight(cs), id);
    }
  }

  lemma OwnedByOne(cs: seq<Channel>, target: nat, id: int)
    requires target < TotalWeight(cs)
    ensures cs[Owner(cs, target)].id == id <==> exists i :: 0 <= i < |cs| && cs[i].id == id && Owns(cs, i, target)
  {
    forall i | 0 <= i < |cs| && Owns(cs, i, target) ensures i == Owner(cs, target) {
      OwnerIsUnique(cs, i, Owner(cs, target), target);
    }
  }

  /** A due channel's probe is out after a request if and only if the channel was not next in line, or the
      request it was picked for ended without a report. */
  lemma ProbeOutExactly(pool: Pool, r: Round, id: int)
    requires id in Ids(pool.channels) && id !in r.excluded && Due(pool.table, id, r.clock(id))
    ensures ProbeOut(AfterRound(pool, r).table, id) <==> !r.IsNextInLine(pool, id) || r.verdict == Unreported
  {
    WalkSpendsProbes(pool, r.excluded, r.clock, r.suits, id);
    PickedExactly(pool, r, id);
  }

  lemma RoundSkips(pool: Pool, r: Round, id: int)
    requires ProbeOut(pool.table, id)
    ensures r.Skips(pool, id) && ProbeOut(AfterRound(pool, r).table, id)
  {
    NextPasses(pool, r.excluded, r.clock, r.suits);
  }

  lemma HappeningKeepsProbeOut(pool: Pool, h: Happening, id: int)
    requires ProbeOut(pool.table, id)
    ensures ProbeOut(AfterHappening(pool, h).table, id) <==> !Addresses(h, id)
  {
    if h.Request? {
      RoundSkips(pool, h.round, id);
    }
  }

  /** The channel's probe is out, so that no request is given it, at every point of what follows. */
  predicate LostThroughout(pool: Pool, hs: seq<Happening>, id: int) {
    ProbeOut(AfterAllOf(pool, hs).table, id) && (|hs| == 0 || LostThroughout(pool, hs[..|hs| - 1], id))
  }

  lemma {:induction false} LostFromStart(pool: Pool, hs: seq<Happening>, id: int)
    requires LostThroughout(pool, hs, id)
    ensures ProbeOut(pool.table, id)
  {
    if |hs| > 0 {
      LostFromStart(pool, hs[..|hs| - 1], id);
    }
  }

  lemma {:induction false} LostUntilAddressed(pool: Pool, hs: seq<Happening>, id: int)
    requires ProbeOut(pool.table, id)
    ensures LostThroughout(pool, hs, id) <==> forall k :: 0 <= k < |hs| ==> !Addresses(hs[k], id)
  {
    if |hs| > 0 {
      var init, last := hs[..|hs| - 1], hs[|hs| - 1];
      LostUntilAddressed(pool, init, id);
      assert forall k :: 0 <= k < |init| ==> Addresses(init[k], id) == Addresses(hs[k], id);
      if ProbeOut(AfterAllOf(pool, init).table, id) {
        HappeningKeepsProbeOut(AfterAllOf(pool, init), last, id);
      }
    }
  }

  /** Exactly when a due channel is lost to the pool: it was not next in line for a request whose walk
      checked it, or that request ended without a report, and since then nothing but requests came, which
      are never given it, however many and however late. */
  lemma ProbeLostExactly(pool: Pool, first: Round, hs: seq<Happening>, id: int)
    requires id in Ids(pool.channels) && id !in first.excluded && Due(pool.table, id, first.clock(id))
    ensures LostThroughout(AfterRound(pool, first), hs, id)
       <==> && (!first.IsNextInLine(pool, id) || first.verdict == Unreported)
            && forall k :: 0 <= k < |hs| ==> !Addresses(hs[k], id)
  {
    var after := AfterRound(pool, first);
    ProbeOutExactly(pool, first, id);
    if ProbeOut(after.table, id) {
      LostUntilAddressed(after, hs, id);
    } else if LostThroughout(after, hs, id) {
      LostFromStart(after, hs, id);
    }
  }

  /** While its probe is out no request is given the channel. */
  lemma LostIsSkipped(pool: Pool, hs: seq<Happening>, later: Round, id: int)
    requires LostThroughout(pool, hs, id)
    ensures later.Skips(AfterAllOf(pool, hs), id)
  {
    RoundSkips(AfterAllOf(pool, hs), later, id);
  }

  /** Two channels of equal weight whose breakers opened at time zero. */
  function BothOpen(): Pool {
    var cb := Breaker(Open, FAILURE_THRESHOLD, Some(0), false);
    Pool([Channel(1, None, None), Channel(2, None, None)], map[1 := cb, 2 := cb], 0)
  }

  lemma TwoEqualWeights(cs: seq<Channel>)
    requires |cs| == 2 && cs[0].weight.None? && cs[1].weight.None?
    ensures TotalWeight(cs) == 2 && Owner(cs, 1) == 1
  {
    assert cs[..1] == [cs[0]] && cs[..1][..0] == [];
    assert TotalWeight(cs[..1]) == 1;
  }

  lemma BothPass(cs: seq<Channel>, table: map<int, Breaker>, excluded: set<int>, clock: int -> int,
                 suits: Channel -> bool)
    requires |cs| == 2 && forall ch :: ch in cs ==> Passes(table, excluded, clock, suits, ch)
    ensures Eligible(cs, table, excluded, clock, suits) == cs
  {
    assert cs[..1] == [cs[0]] && cs[..1][..0] == [];
    assert cs[0] in cs && cs[1] in cs;
    assert Eligible(cs[..1], table, excluded, clock, suits) == [] + [cs[0]];
  }

  /** Both are due after the cooldown; the second is picked and succeeds, the first is lost. */
  lemma FirstOfTwoIsLost(hs: seq<Happening>)
    requires forall k :: 0 <= k < |hs| ==> !Addresses(hs[k], 1)
    ensures var r := Round({}, (_: int) => COOLDOWN, (_: Channel) => true, Succeeded);
      && Due(BothOpen().table, 1, r.clock(1)) && Due(BothOpen().table, 2, r.clock(2))
      && !r.Skips(BothOpen(), 2)
      && LostThroughout(AfterRound(BothOpen(), r), hs, 1)
  {
    SecondIsPicked(BothOpen(), Round({}, (_: int) => COOLDOWN, (_: Channel) => true, Succeeded), hs);
  }

  lemma SecondIsPicked(pool: Pool, r: Round, hs: seq<Happening>)
    requires pool == BothOpen() && r.excluded == {} && r.verdict == Succeeded
    requires (forall id :: r.clock(id) == COOLDOWN) && forall ch :: r.suits(ch)
    requires forall k :: 0 <= k < |hs| ==> !Addresses(hs[k], 1)
    ensures Due(pool.table, 1, r.clock(1)) && Due(pool.table, 2, r.clock(2)) && !r.Skips(pool, 2)
    ensures LostThroughout(AfterRound(pool, r), hs, 1)
  {
    var cs := pool.channels;
    BothPass(cs, pool.table, r.excluded, r.clock, r.suits);
    TwoEqualWeights(cs);
    assert r.Picks(pool) == Some(cs[1]);
    assert cs[0].id in Ids(cs);
    PickedExactly(pool, r, 1);
    ProbeLostExactly(pool, r, hs, 1);
  }
}
