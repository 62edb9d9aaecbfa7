/** Properties of every round trip of the retrying transport. */
module FallbackProofs {
  import opened Prelude
  import opened Breaker
  import opened RoundRobin
  import opened ChannelPool
  import opened Fallback

  /** What an attempt tells the breaker: nothing if the request could not be prepared, a failure if the channel's
      URL is bad or the upstream could not be reached, limited the rate or failed, and else a success. */
  function ReportOf(a: Attempt): Option<Event> {
    match a.shot
    case RewriteFailed => None
    case AuthFailed => None
    case BadBaseUrl(_) => Some(Failure(a.turn.endedAt))
    case Ready(_, _) =>
      match a.turn.outcome
      case TransportError => Some(Failure(a.turn.endedAt))
      case Status(code) => Some(if code == 429 || 500 <= code then Failure(a.turn.endedAt) else Success)
  }

  predicate Failed(a: Attempt) {
    ReportOf(a).Some? && ReportOf(a).value.Failure?
  }

  /** A reply that is neither an error nor to be retried. */
  predicate GoodReply(reply: Reply) {
    reply.error.None? && reply.status.Some? && reply.status.value != 429 && reply.status.value < 500
  }

  /** What the client gets if this attempt is the last thing that happens; after a bad URL the status is still the
      one from before. */
  predicate RepliesAfter(a: Attempt, before: Option<int>, reply: Reply) {
    match a.shot
    case RewriteFailed => reply == Reply(None, Some(NotRewritten))
    case AuthFailed => reply == Reply(None, Some(NotAuthorised))
    case BadBaseUrl(_) => reply == Reply(before, Some(InvalidBaseUrl))
    case Ready(_, _) =>
      match a.turn.outcome
      case TransportError => reply == Reply(None, Some(UpstreamError))
      case Status(code) => reply == Reply(Some(code), None)
  }

  lemma GoodAfter(a: Attempt, before: Option<int>, reply: Reply)
    requires RepliesAfter(a, before, reply)
    ensures GoodReply(reply) <==> ReportOf(a) == Some(Success)
  {
  }

  /** The pool after an attempt: its choices, then its one report on top of whatever others did. */
  function PoolAfter(order: Order, a: Attempt): Pool {
    var after := AfterChoice(a.before, a.tried, a.turn, order.suits);
    match ReportOf(a)
    case None => after
    case Some(e) => Reported(Meanwhile(after, a.turn.during), a.channel.id, e)
  }

  /** The pool after a turn without an attempt: the client gave up, or no channel was found. */
  function PoolStuck(order: Order, pool: Pool, tried: set<int>, turn: Turn, retry: bool): Pool {
    var before := Meanwhile(pool, turn.earlier);
    if retry && turn.cancelled then before else AfterChoice(before, tried, turn, order.suits)
  }

  /** An attempt on the chosen channel with what the client's path and header, and body if there is one, make for
      it, together with what it found of the rest. */
  predicate WellMade(order: Order, a: Attempt) {
    && Choice(a.before, a.tried, a.turn, order.suits) == Some(a.channel)
    && a.start == Restored(order.client, a.start)
    && a.shot == Prepare(order.adapters, a.channel, a.start)
  }

  /** The loop's pass with what it leaves behind, so that the proofs over runs need not look inside. */
  datatype Machine = Machine(pass: (Pool, set<int>, Reply, Draft, Turn, bool) -> Pass, left: Attempt -> Pool,
                             stuck: (Pool, set<int>, Turn, bool) -> Pool, start: Draft -> Draft,
                             wellMade: Attempt -> bool)

  function MachineOf(order: Order): Machine {
    Machine(PassOf(order), a => PoolAfter(order, a),
            (pool, tried, turn, retry) => PoolStuck(order, pool, tried, turn, retry),
            found => Restored(order.client, found), a => WellMade(order, a))
  }

  ghost predicate Begins(m: Machine, a: Attempt, pool: Pool, tried: set<int>, found: Draft, turn: Turn) {
    && a.before == Meanwhile(pool, turn.earlier) && a.tried == tried && a.start == m.start(found) && a.turn == turn
    && m.wellMade(a)
  }

  ghost predicate PassFits(m: Machine, pool: Pool, tried: set<int>, reply: Reply, found: Draft, turn: Turn,
                           retry: bool, p: Pass) {
    match p
    case Again(a, after, soFar) => Begins(m, a, pool, tried, found, turn) && Failed(a) && after == m.left(a)
        && RepliesAfter(a, reply.status, soFar)
    case Stop(log) =>
      if log.attempts == [] then log.pool == m.stuck(pool, tried, turn, retry) && log.reply == ReplyStuck(turn, retry)
      else
        var a := log.attempts[0];
        && |log.attempts| == 1 && Begins(m, a, pool, tried, found, turn) && !Failed(a) && log.pool == m.left(a)
        && RepliesAfter(a, reply.status, log.reply)
  }

  /** The reply of a turn without an attempt. */
  function ReplyStuck(turn: Turn, retry: bool): Reply {
    Reply(None, Some(if retry && turn.cancelled then Cancelled else NoChannel))
  }

  ghost predicate Fits(m: Machine) {
    forall pool, tried, reply, found, turn, retry ::
        PassFits(m, pool, tried, reply, found, turn, retry, m.pass(pool, tried, reply, found, turn, retry))
  }

  lemma OutcomesFit(order: Order, a: Attempt, after: Pool, reply: Reply)
    requires after == AfterChoice(a.before, a.tried, a.turn, order.suits)
    ensures match Outcomes(a, after, reply)
            case Again(b, left, soFar) => b == a && Failed(a) && left == PoolAfter(order, a)
                && RepliesAfter(a, reply.status, soFar)
            case Stop(log) =>
              && log.attempts == [a] && !Failed(a) && log.pool == PoolAfter(order, a)
              && RepliesAfter(a, reply.status, log.reply)
  {
  }

  lemma OnePassFits(order: Order, pool: Pool, tried: set<int>, reply: Reply, found: Draft, turn: Turn, retry: bool)
    ensures PassFits(MachineOf(order), pool, tried, reply, found, turn, retry,
                     OnePass(order, pool, tried, reply, found, turn, retry))
  {
    var before := Meanwhile(pool, turn.earlier);
    var ch := Choice(before, tried, turn, order.suits);
    if !(retry && turn.cancelled) && ch.Some? {
      var start := Restored(order.client, found);
      var a := Attempt(before, tried, turn, ch.value, start, Prepare(order.adapters, ch.value, start));
      OutcomesFit(order, a, AfterChoice(before, tried, turn, order.suits), reply);
    }
  }

  lemma MachineFits(order: Order)
    ensures Fits(MachineOf(order))
  {
    forall pool, tried, reply, found, turn, retry
      ensures PassFits(MachineOf(order), pool, tried, reply, found, turn, retry,
                       MachineOf(order).pass(pool, tried, reply, found, turn, retry))
    {
      OnePassFits(order, pool, tried, reply, found, turn, retry);
    }
  }

  // Chains of attempts.

  /** The k-th attempt follows a failed one: it begins with the pool and the request that one left. */
  ghost predicate Linked(m: Machine, turns: seq<Turn>, attempts: seq<Attempt>, k: nat)
    requires 0 < k < |attempts| <= |turns|
  {
    var prior, id := attempts[k - 1], attempts[k - 1].channel.id;
    && Failed(prior)
    && Begins(m, attempts[k], m.left(prior), prior.tried + {id}, LeftBy(prior.shot, prior.start), turns[k])
  }

  /** At most one attempt a turn; every attempt but the last has reported a failure; and each begins with
      the pool and the request its predecessor left, having tried exactly the predecessors' channels. */
  ghost predicate Chained(m: Machine, pool: Pool, tried: set<int>, found: Draft, turns: seq<Turn>,
                          attempts: seq<Attempt>) {
    && |attempts| <= |turns|
    && (attempts != [] ==> Begins(m, attempts[0], pool, tried, found, turns[0]))
    && (forall k :: 0 < k < |attempts| ==> Linked(m, turns, attempts, k))
  }

  lemma ChainCons(m: Machine, pool: Pool, tried: set<int>, found: Draft, turns: seq<Turn>, a: Attempt,
                  rest: seq<Attempt>)
    requires turns != [] && Begins(m, a, pool, tried, found, turns[0]) && Failed(a)
    requires Chained(m, m.left(a), tried + {a.channel.id}, LeftBy(a.shot, a.start), turns[1..], rest)
    ensures Chained(m, pool, tried, found, turns, [a] + rest)
  {
    var all := [a] + rest;
    forall k | 0 < k < |all| ensures Linked(m, turns, all, k) {
      assert all[k] == rest[k - 1] && turns[k] == turns[1..][k - 1];
      if 1 < k {
        assert all[k - 1] == rest[k - 2] && Linked(m, turns[1..], rest, k - 1);
      }
    }
  }

  lemma {:induction false} LoopIsChained(m: Machine, pool: Pool, tried: set<int>, reply: Reply, found: Draft,
                                         turns: seq<Turn>, retry: bool)
    requires Fits(m)
    ensures Chained(m, pool, tried, found, turns, Loop(m.pass, pool, tried, reply, found, turns, retry).attempts)
    decreases |turns|
  {
    if turns != [] {
      var p := m.pass(pool, tried, reply, found, turns[0], retry);
      assert PassFits(m, pool, tried, reply, found, turns[0], retry, p);
      if p.Again? {
        var id, left := p.attempt.channel.id, LeftBy(p.attempt.shot, found);
        LoopIsChained(m, p.pool, tried + {id}, p.reply, left, turns[1..], true);
        var rest := Loop(m.pass, p.pool, tried + {id}, p.reply, left, turns[1..], true);
        ChainCons(m, pool, tried, found, turns, p.attempt, rest.attempts);
      }
    }
  }

  /** The pool a trip ends with. Without any attempt: no report at all. After the attempt that was its n-th
      and last: that attempt's report and nothing else, unless it failed and a further turn came to nothing. */
  function PoolAtEnd(m: Machine, pool: Pool, tried: set<int>, turns: seq<Turn>, retry: bool,
                     attempts: seq<Attempt>): Pool {
    var n := |attempts|;
    if n == 0 then (if |turns| == 0 then pool else m.stuck(pool, tried, turns[0], retry))
    else
      var last := attempts[n - 1];
      if !Failed(last) || |turns| <= n then m.left(last)
      else m.stuck(m.left(last), last.tried + {last.channel.id}, turns[n], true)
  }

  lemma EndCons(m: Machine, pool: Pool, tried: set<int>, turns: seq<Turn>, retry: bool, a: Attempt, rest: seq<Attempt>)
    requires turns != [] && Failed(a) && a.tried == tried
    ensures PoolAtEnd(m, pool, tried, turns, retry, [a] + rest)
         == PoolAtEnd(m, m.left(a), tried + {a.channel.id}, turns[1..], true, rest)
  {
  }

  lemma {:induction false} LoopEnds(m: Machine, pool: Pool, tried: set<int>, reply: Reply, found: Draft,
                                    turns: seq<Turn>, retry: bool)
    requires Fits(m)
    ensures var log := Loop(m.pass, pool, tried, reply, found, turns, retry);
            log.pool == PoolAtEnd(m, pool, tried, turns, retry, log.attempts)
    decreases |turns|
  {
    if turns != [] {
      var p := m.pass(pool, tried, reply, found, turns[0], retry);
      assert PassFits(m, pool, tried, reply, found, turns[0], retry, p);
      if p.Again? {
        var id, left := p.attempt.channel.id, LeftBy(p.attempt.shot, found);
        LoopEnds(m, p.pool, tried + {id}, p.reply, left, turns[1..], true);
        var rest := Loop(m.pass, p.pool, tried + {id}, p.reply, left, turns[1..], true);
        EndCons(m, pool, tried, turns, retry, p.attempt, rest.attempts);
      }
    }
  }

  /** At most MaxRetries + 1 attempts, each from the pool and the request its predecessor left. */
  lemma TripIsChained(order: Order, pool: Pool, turns: seq<Turn>)
    ensures Chained(MachineOf(order), pool, {}, order.client, turns, Trip(order, pool, turns).attempts)
    ensures |Trip(order, pool, turns).attempts| <= |turns|
  {
    MachineFits(order);
    LoopIsChained(MachineOf(order), pool, {}, Reply(None, None), order.client, turns, false);
  }

  /** Every attempt is made on a channel chosen for it and sends what the client's path and header, and the
      client's body if there is one, make for that channel: of these, nothing an earlier attempt wrote is left. */
  lemma AttemptsRestored(order: Order, pool: Pool, turns: seq<Turn>, k: nat)
    requires k < |Trip(order, pool, turns).attempts|
    ensures WellMade(order, Trip(order, pool, turns).attempts[k])
  {
    TripIsChained(order, pool, turns);
    WellMadeInChain(MachineOf(order), pool, {}, order.client, turns, Trip(order, pool, turns).attempts, k);
  }

  lemma WellMadeInChain(m: Machine, pool: Pool, tried: set<int>, found: Draft, turns: seq<Turn>,
                        attempts: seq<Attempt>, k: nat)
    requires Chained(m, pool, tried, found, turns, attempts) && k < |attempts|
    ensures m.wellMade(attempts[k])
  {
    if 0 < k {
      assert Linked(m, turns, attempts, k);
    }
  }

  // What the loop does not restore.

  /** On this request the adapter of the channel would change the query, or give it a body the client did not. */
  predicate ChangesUnrestored(order: Order, ch: Channel) {
    var left := LeftBy(Prepare(order.adapters, ch, order.client), order.client);
    left.query != order.client.query || (order.client.body.None? && left.body.Some?)
  }

  /** The first attempt starts from the client's request, and any other from what is restored of the one its
      predecessor left. */
  ghost predicate RequestCarried(order: Order, attempts: seq<Attempt>) {
    && (attempts != [] ==> attempts[0].start == order.client)
    && (forall k :: 0 < k < |attempts| ==> Follows(order, attempts[k - 1], attempts[k]))
    && (forall k :: 0 <= k < |attempts| ==> WellMade(order, attempts[k]))
  }

  predicate Follows(order: Order, prior: Attempt, a: Attempt) {
    Failed(prior) && a.start == Restored(order.client, LeftBy(prior.shot, prior.start))
  }

  lemma TripCarriesRequest(order: Order, pool: Pool, turns: seq<Turn>)
    ensures RequestCarried(order, Trip(order, pool, turns).attempts)
  {
    var attempts := Trip(order, pool, turns).attempts;
    TripIsChained(order, pool, turns);
    forall k | 0 <= k < |attempts| ensures WellMade(order, attempts[k]) {
      AttemptsRestored(order, pool, turns, k);
    }
    forall k | 0 < k < |attempts| ensures Follows(order, attempts[k - 1], attempts[k]) {
      assert Linked(MachineOf(order), turns, attempts, k);
    }
  }

  ghost predicate AllStartFromClient(order: Order, attempts: seq<Attempt>) {
    forall k :: 0 <= k < |attempts| ==> attempts[k].start == order.client
  }

  lemma NextStart(order: Order, prior: Attempt, a: Attempt)
    requires WellMade(order, prior) && prior.start == order.client && Follows(order, prior, a)
    ensures a.start == order.client <==> !ChangesUnrestored(order, prior.channel)
  {
  }

  /** What an attempt finds of one that was sent: the client's path and header, the query as sent, and the client's
      body, or where there was none, what is left of the body sent, which has been read to its end. */
  lemma NextFinds(order: Order, prior: Attempt, a: Attempt)
    requires Follows(order, prior, a) && prior.shot.Ready?
    ensures a.start.path == order.client.path && a.start.header == order.client.header
    ensures a.start.query == prior.shot.draft.query
    ensures a.start.body == if order.client.body.Some? then order.client.body
                            else if prior.shot.draft.body.Some? then Some("") else None
  {
  }

  lemma {:induction false} StartsExactly(order: Order, attempts: seq<Attempt>)
    requires RequestCarried(order, attempts)
    ensures AllStartFromClient(order, attempts)
       <==> forall k :: 0 <= k < |attempts| - 1 ==> !ChangesUnrestored(order, attempts[k].channel)
  {
    if 1 < |attempts| {
      var n := |attempts| - 1;
      var init := attempts[..n];
      StartsExactly(order, init);
      assert forall k :: 0 <= k < n ==> attempts[k] == init[k];
      if AllStartFromClient(order, init) {
        assert init[n - 1] == attempts[n - 1] && Follows(order, attempts[n - 1], attempts[n]);
        NextStart(order, attempts[n - 1], attempts[n]);
      }
    }
  }

  /** All attempts of a trip start from the client's own request if and only if none but the last is on a
      channel whose adapter writes what the loop does not restore: another query, or a body where the client
      sent none. */
  lemma AllStartFromClientExactly(order: Order, pool: Pool, turns: seq<Turn>)
    ensures var attempts := Trip(order, pool, turns).attempts;
      AllStartFromClient(order, attempts)
      <==> forall k :: 0 <= k < |attempts| - 1 ==> !ChangesUnrestored(order, attempts[k].channel)
  {
    TripCarriesRequest(order, pool, turns);
    StartsExactly(order, Trip(order, pool, turns).attempts);
  }

  /** Adapters of which one, for a streaming chat request, writes the query, and the other leaves it. */
  function GeminiAndOpenAI(gemini: int): Adapters {
    Adapters((ch: Channel, d: Draft) =>
               if ch.id == gemini
               then Some(d.(path := "/v1beta/models/m:streamGenerateContent", query := "alt=sse"))
               else Some(d),
             (ch: Channel, d: Draft) => Some(d))
  }

  /** The failing case: after a first attempt on the channel that writes the query, an attempt on any other
      sends that query as well, whatever the client's was. */
  lemma QueryLeaks(order: Order, pool: Pool, turns: seq<Turn>, gemini: int)
    requires order.adapters == GeminiAndOpenAI(gemini)
    requires var attempts := Trip(order, pool, turns).attempts;
      1 < |attempts| && attempts[0].channel.id == gemini && attempts[1].channel.id != gemini
      && attempts[1].channel.baseUrl.Some?
    ensures var shot := Trip(order, pool, turns).attempts[1].shot;
      shot.Ready? && shot.draft.query == "alt=sse"
  {
    var attempts := Trip(order, pool, turns).attempts;
    TripCarriesRequest(order, pool, turns);
    assert WellMade(order, attempts[0]) && WellMade(order, attempts[1]) && Follows(order, attempts[0], attempts[1]);
  }

  /** A channel of each kind, the one that writes the query being the next in line. */
  function TwoProviders(): Pool {
    Pool([Channel(1, None, Some(Url("openai", ""))), Channel(2, None, Some(Url("gemini", "")))], map[], 0)
  }

  /** A turn without other requests in which the upstream fails. */
  predicate FailsQuietly(turn: Turn) {
    !turn.cancelled && turn.outcome == Status(500)
    && turn.earlier == Traffic([], 0) && turn.between == Traffic([], 0) && turn.during == Traffic([], 0)
  }

  lemma GeminiIsNextInLine(order: Order, pool: Pool, found: Draft, turn: Turn)
    requires order.adapters == GeminiAndOpenAI(2) && (forall ch :: order.suits(ch))
    requires pool == TwoProviders() && FailsQuietly(turn)
    ensures var p := OnePass(order, pool, {}, Reply(None, None), found, turn, false);
            p.Again? && p.attempt.channel.id == 2 && p.pool.channels == pool.channels && 1 !in p.pool.table
  {
    BothPass(pool.channels, pool.table, {}, turn.clock, order.suits);
    TwoEqualWeights(pool.channels);
    assert Choice(pool, {}, turn, order.suits) == Some(pool.channels[1]);
  }

  lemma OpenAIIsLeft(order: Order, pool: Pool, reply: Reply, found: Draft, turn: Turn)
    requires order.adapters == GeminiAndOpenAI(2) && (forall ch :: order.suits(ch))
    requires pool.channels == TwoProviders().channels && 1 !in pool.table && FailsQuietly(turn)
    ensures var p := OnePass(order, pool, {2}, reply, found, turn, true);
            p.Again? && p.attempt.channel == pool.channels[0]
  {
    var before := Meanwhile(pool, turn.earlier);
    NextPasses(before, {2}, turn.clock, order.suits);
    assert pool.channels[0] in before.channels;
    assert Passes(before.table, {2}, turn.clock, order.suits, pool.channels[0]);
  }

  lemma TwoPasses(pass: (Pool, set<int>, Reply, Draft, Turn, bool) -> Pass, pool: Pool, reply: Reply, found: Draft,
                  turns: seq<Turn>)
    requires |turns| == 2
    requires pass(pool, {}, reply, found, turns[0], false).Again?
    requires var p := pass(pool, {}, reply, found, turns[0], false); var a := p.attempt;
      pass(p.pool, {a.channel.id}, p.reply, LeftBy(a.shot, found), turns[1], true).Again?
    ensures var p := pass(pool, {}, reply, found, turns[0], false); var a := p.attempt;
      var q := pass(p.pool, {a.channel.id}, p.reply, LeftBy(a.shot, found), turns[1], true);
      Loop(pass, pool, {}, reply, found, turns, false).attempts == [a, q.attempt]
  {
    var p := pass(pool, {}, reply, found, turns[0], false);
    var a := p.attempt;
    assert {} + {a.channel.id} == {a.channel.id} && turns[1..] == [turns[1]];
    var q := pass(p.pool, {a.channel.id}, p.reply, LeftBy(a.shot, found), turns[1], true);
    assert Loop(pass, p.pool, {a.channel.id}, p.reply, LeftBy(a.shot, found), turns[1..], true).attempts
        == [q.attempt] + [];
  }

  /** Such a trip, for every client's request: the second attempt, on the channel that leaves the query, sends
      what the first one wrote. */
  lemma GeminiThenOpenAI(order: Order, turns: seq<Turn>)
    requires order.adapters == GeminiAndOpenAI(2) && forall ch :: order.suits(ch)
    requires |turns| == 2 && FailsQuietly(turns[0]) && FailsQuietly(turns[1])
    ensures var attempts := Trip(order, TwoProviders(), turns).attempts;
      && |attempts| == 2 && attempts[0].channel.id == 2 && attempts[1].channel.id == 1
      && attempts[1].shot.Ready? && attempts[1].shot.draft.query == "alt=sse"
  {
    var pass, pool, none := PassOf(order), TwoProviders(), Reply(None, None);
    GeminiIsNextInLine(order, pool, order.client, turns[0]);
    var p := pass(pool, {}, none, order.client, turns[0], false);
    OpenAIIsLeft(order, p.pool, p.reply, LeftBy(p.attempt.shot, order.client), turns[1]);
    TwoPasses(pass, pool, none, order.client, turns);
    QueryLeaks(order, pool, turns, 2);
  }

  /** A channel already tried is used again only if no untried channel passed the walk. */
  lemma ReuseOnlyWhenExhausted(order: Order, pool: Pool, turns: seq<Turn>, k: nat)
    requires k < |Trip(order, pool, turns).attempts|
    ensures var a := Trip(order, pool, turns).attempts[k];
            a.channel.id in a.tried ==>
              forall ch :: ch in a.before.channels ==> !Passes(a.before.table, a.tried, a.turn.clock, order.suits, ch)
  {
    AttemptsRestored(order, pool, turns, k);
    var a := Trip(order, pool, turns).attempts[k];
    if a.channel.id in a.tried {
      UsedAgain(order, a);
    }
  }

  lemma UsedAgain(order: Order, a: Attempt)
    requires WellMade(order, a) && a.channel.id in a.tried
    ensures forall ch :: ch in a.before.channels ==> !Passes(a.before.table, a.tried, a.turn.clock, order.suits, ch)
  {
    NextPasses(a.before, a.tried, a.turn.clock, order.suits);
  }

  /** The reports of a trip, all of them: from any attempt to the next, and from the last to the end of the
      trip, the pool changes by that attempt's one report and by choices and other requests only. An attempt
      reports exactly when it reached the upstream or found a bad base URL. */
  lemma OneReportPerAttempt(order: Order, pool: Pool, turns: seq<Turn>)
    ensures var log := Trip(order, pool, turns);
      && Chained(MachineOf(order), pool, {}, order.client, turns, log.attempts)
      && log.pool == PoolAtEnd(MachineOf(order), pool, {}, turns, false, log.attempts)
  {
    TripIsChained(order, pool, turns);
    MachineFits(order);
    LoopEnds(MachineOf(order), pool, {}, Reply(None, None), order.client, turns, false);
  }

  /** The status in hand after some attempts, given the one before them. */
  function StatusAfter(before: Option<int>, attempts: seq<Attempt>): Option<int> {
    if attempts == [] then before
    else
      var init, last := attempts[..|attempts| - 1], attempts[|attempts| - 1];
      match last.shot
      case Ready(_, _) => if last.turn.outcome.Status? then Some(last.turn.outcome.code) else None
      case _ => StatusAfter(before, init)
  }

  /** The reply a trip ends with: that of its last attempt, unless this failed and a further turn came to nothing,
      or there was no attempt at all. */
  ghost predicate EndsInReply(turns: seq<Turn>, retry: bool, before: Option<int>, attempts: seq<Attempt>,
                              reply: Reply) {
    var n := |attempts|;
    if |turns| == 0 then true
    else if n == 0 then reply == ReplyStuck(turns[0], retry)
    else if Failed(attempts[n - 1]) && n < |turns| then reply == ReplyStuck(turns[n], true)
    else RepliesAfter(attempts[n - 1], StatusAfter(before, attempts[..n - 1]), reply)
  }

  lemma {:induction false} StatusCons(before: Option<int>, a: Attempt, soFar: Reply, rest: seq<Attempt>)
    requires Failed(a) && RepliesAfter(a, before, soFar)
    ensures StatusAfter(before, [a] + rest) == StatusAfter(soFar.status, rest)
  {
    var all := [a] + rest;
    if rest == [] {
      assert all[..0] == [] && StatusAfter(before, all[..0]) == before;
    } else {
      assert all[..|all| - 1] == [a] + rest[..|rest| - 1] && all[|all| - 1] == rest[|rest| - 1];
      StatusCons(before, a, soFar, rest[..|rest| - 1]);
    }
  }

  lemma ReplyCons(turns: seq<Turn>, retry: bool, before: Option<int>, a: Attempt, rest: seq<Attempt>, soFar: Reply,
                  reply: Reply)
    requires turns != [] && Failed(a) && RepliesAfter(a, before, soFar)
    requires |turns| == 1 ==> rest == [] && reply == soFar
    requires EndsInReply(turns[1..], true, soFar.status, rest, reply)
    ensures EndsInReply(turns, retry, before, [a] + rest, reply)
  {
    var all := [a] + rest;
    if rest == [] {
      assert all[..0] == [];
    } else {
      assert all[..|all| - 1] == [a] + rest[..|rest| - 1];
      StatusCons(before, a, soFar, rest[..|rest| - 1]);
    }
  }

  lemma {:induction false} LoopReplies(m: Machine, pool: Pool, tried: set<int>, reply: Reply, found: Draft,
                                       turns: seq<Turn>, retry: bool)
    requires Fits(m)
    ensures var log := Loop(m.pass, pool, tried, reply, found, turns, retry);
            EndsInReply(turns, retry, reply.status, log.attempts, log.reply)
    decreases |turns|
  {
    if turns != [] {
      var p := m.pass(pool, tried, reply, found, turns[0], retry);
      assert PassFits(m, pool, tried, reply, found, turns[0], retry, p);
      if p.Again? {
        var id, left := p.attempt.channel.id, LeftBy(p.attempt.shot, found);
        LoopReplies(m, p.pool, tried + {id}, p.reply, left, turns[1..], true);
        var rest := Loop(m.pass, p.pool, tried + {id}, p.reply, left, turns[1..], true);
        ReplyCons(turns, retry, reply.status, p.attempt, rest.attempts, p.reply, rest.reply);
      } else if p.log.attempts != [] {
        assert p.log.attempts[..0] == [];
      }
    }
  }

  lemma TripReplies(order: Order, pool: Pool, turns: seq<Turn>)
    ensures var log := Trip(order, pool, turns); EndsInReply(turns, false, None, log.attempts, log.reply)
  {
    MachineFits(order);
    LoopReplies(MachineOf(order), pool, {}, Reply(None, None), order.client, turns, false);
  }

  /** The upstream did not serve the attempt: it could not be reached, limited the rate or failed. */
  predicate NotServed(outcome: Outcome) {
    outcome == TransportError || outcome == Status(429) || (outcome.Status? && 500 <= outcome.code)
  }

  /** What becomes of an attempt that reached for the upstream, in status codes. If it was not served, a failure is
      reported at the time it ended, and the next turn is taken, if there is one: by another attempt, or in vain
      because the client gave up or no channel was found. If it was served, a success is reported, it is the last
      attempt, and its status is the client's. */
  predicate Decided(turns: seq<Turn>, log: Log, k: nat)
    requires k < |log.attempts|
  {
    var a := log.attempts[k];
    if NotServed(a.turn.outcome) then
      && ReportOf(a) == Some(Failure(a.turn.endedAt))
      && (k + 1 < |turns| ==> k + 1 < |log.attempts| || log.reply == ReplyStuck(turns[k + 1], true))
      && (k + 1 == |turns| ==> log.reply == if a.turn.outcome == TransportError then Reply(None, Some(UpstreamError))
                                            else Reply(Some(a.turn.outcome.code), None))
    else
      && ReportOf(a) == Some(Success)
      && k + 1 == |log.attempts| && log.reply == Reply(Some(a.turn.outcome.code), None)
  }

  lemma ReportInCodes(a: Attempt)
    requires a.shot.Ready?
    ensures ReportOf(a) == Some(if NotServed(a.turn.outcome) then Failure(a.turn.endedAt) else Success)
    ensures Failed(a) <==> NotServed(a.turn.outcome)
  {
  }

  lemma LastDecides(turns: seq<Turn>, log: Log, k: nat)
    requires k < |log.attempts| <= |turns| && log.attempts[k].shot.Ready?
    requires k + 1 < |log.attempts| ==> Failed(log.attempts[k])
    requires EndsInReply(turns, false, None, log.attempts, log.reply)
    ensures Decided(turns, log, k)
  {
    ReportInCodes(log.attempts[k]);
  }

  lemma AttemptsDecide(order: Order, pool: Pool, turns: seq<Turn>, k: nat)
    requires k < |Trip(order, pool, turns).attempts|
    requires Trip(order, pool, turns).attempts[k].shot.Ready?
    ensures Decided(turns, Trip(order, pool, turns), k)
  {
    var log := Trip(order, pool, turns);
    TripReplies(order, pool, turns);
    TripIsChained(order, pool, turns);
    if k + 1 < |log.attempts| {
      assert Linked(MachineOf(order), turns, log.attempts, k + 1);
    }
    LastDecides(turns, log, k);
  }

  /** The client gets a good reply if and only if the last attempt reported a success, and then it is that
      attempt's. */
  lemma SuccessIsTheReply(order: Order, pool: Pool, turns: seq<Turn>)
    ensures var log := Trip(order, pool, turns);
      && (GoodReply(log.reply) <==>
            log.attempts != [] && ReportOf(log.attempts[|log.attempts| - 1]) == Some(Success))
      && (GoodReply(log.reply) ==> log.reply == ReplyOf(log.attempts[|log.attempts| - 1].turn.outcome))
  {
    var log := Trip(order, pool, turns);
    TripReplies(order, pool, turns);
    TripIsChained(order, pool, turns);
    if log.attempts != [] {
      var last, before := log.attempts[|log.attempts| - 1], StatusAfter(None, log.attempts[..|log.attempts| - 1]);
      if RepliesAfter(last, before, log.reply) {
        GoodAfter(last, before, log.reply);
      }
    }
  }

  // Enough channels for every attempt.

  /** A breaker that no check can turn: closed, or half-open by a manual probe. */
  predicate Steady(entry: Option<Breaker>) {
    entry.None? || entry.value.state == Closed || (entry.value.state == HalfOpen && !entry.value.probeInFlight)
  }

  /** A suitable channel that stays available until it is reported on. */
  ghost predicate Available(order: Order, pool: Pool, id: int) {
    Steady(Lookup(pool.table, id)) && exists ch :: ch in pool.channels && ch.id == id && order.suits(ch)
  }

  lemma AvailableStays(order: Order, pool: Pool, excluded: set<int>, clock: int -> int, id: int)
    requires Available(order, pool, id)
    ensures Available(order, AfterNext(pool, excluded, clock, order.suits), id)
  {
  }

  /** Other requests that report no failure on these channels meanwhile. */
  predicate Harmless(traffic: Traffic, free: set<int>) {
    forall k :: 0 <= k < |traffic.events| && traffic.events[k].id in free ==> !traffic.events[k].event.Failure?
  }

  predicate HarmlessTurn(turn: Turn, free: set<int>) {
    Harmless(turn.earlier, free) && Harmless(turn.between, free) && Harmless(turn.during, free)
  }

  lemma {:induction false} SteadyStays(table: map<int, Breaker>, es: seq<ChannelEvent>, id: int)
    requires Steady(Lookup(table, id))
    requires forall k :: 0 <= k < |es| && es[k].id == id ==> !es[k].event.Failure?
    ensures Steady(Lookup(SteppedAll(table, es), id))
  {
    if es != [] {
      SteadyStays(table, es[..|es| - 1], id);
    }
  }

  lemma AvailableMeanwhile(order: Order, pool: Pool, traffic: Traffic, id: int, free: set<int>)
    requires Available(order, pool, id) && id in free && Harmless(traffic, free)
    ensures Available(order, Meanwhile(pool, traffic), id)
  {
    SteadyStays(pool.table, traffic.events, id);
  }

  lemma UntriedIsChosen(order: Order, pool: Pool, tried: set<int>, turn: Turn, id: int)
    requires Available(order, pool, id) && id !in tried
    ensures var ch := Choice(pool, tried, turn, order.suits); ch.Some? && ch.value.id !in tried
  {
    NextPasses(pool, tried, turn.clock, order.suits);
    var ch :| ch in pool.channels && ch.id == id && order.suits(ch);
    assert Passes(pool.table, tried, turn.clock, order.suits, ch);
  }

  lemma AvailableAfterChoice(order: Order, pool: Pool, tried: set<int>, turn: Turn, id: int, free: set<int>)
    requires Available(order, pool, id) && id in free && HarmlessTurn(turn, free)
    ensures Available(order, AfterChoice(pool, tried, turn, order.suits), id)
  {
    AvailableStays(order, pool, tried, turn.clock, id);
    AvailableMeanwhile(order, AfterNext(pool, tried, turn.clock, order.suits), turn.between, id, free);
    AvailableStays(order, Retried(pool, tried, turn, order.suits), {}, turn.again, id);
  }

  lemma AvailableAfterAttempt(order: Order, a: Attempt, id: int, free: set<int>)
    requires Available(order, a.before, id) && id != a.channel.id && id in free && HarmlessTurn(a.turn, free)
    ensures Available(order, PoolAfter(order, a), id)
  {
    AvailableAfterChoice(order, a.before, a.tried, a.turn, id, free);
    AvailableMeanwhile(order, AfterChoice(a.before, a.tried, a.turn, order.suits), a.turn.during, id, free);
  }

  ghost predicate AllDiffer(tried: set<int>, attempts: seq<Attempt>) {
    && (forall k :: 0 <= k < |attempts| ==> attempts[k].channel.id !in tried)
    && (forall j, k :: 0 <= j < k < |attempts| ==> attempts[j].channel.id != attempts[k].channel.id)
  }

  lemma AllDifferCons(tried: set<int>, a: Attempt, rest: seq<Attempt>)
    requires a.channel.id !in tried && AllDiffer(tried + {a.channel.id}, rest)
    ensures AllDiffer(tried, [a] + rest)
  {
    forall k | 0 <= k < |rest| ensures rest[k].channel.id !in tried && rest[k].channel.id != a.channel.id {
      assert rest[k].channel.id !in tried + {a.channel.id};
    }
  }

  /** At least as many suitable channels as turns, untried and left alone by failures elsewhere. */
  ghost predicate EnoughFree(order: Order, pool: Pool, tried: set<int>, turns: seq<Turn>, free: set<int>) {
    && |turns| <= |free| && free !! tried
    && (forall id :: id in free ==> Available(order, pool, id))
    && (forall k :: 0 <= k < |turns| ==> HarmlessTurn(turns[k], free))
  }

  lemma EnoughForFirst(order: Order, pool: Pool, tried: set<int>, turns: seq<Turn>, free: set<int>)
    requires EnoughFree(order, pool, tried, turns, free) && turns != []
    ensures var ch := Choice(Meanwhile(pool, turns[0].earlier), tried, turns[0], order.suits);
            ch.Some? && ch.value.id !in tried
  {
    var spare := SomeOf(free);
    assert HarmlessTurn(turns[0], free);
    AvailableMeanwhile(order, pool, turns[0].earlier, spare, free);
    UntriedIsChosen(order, Meanwhile(pool, turns[0].earlier), tried, turns[0], spare);
  }

  lemma EnoughAfterFirst(order: Order, pool: Pool, tried: set<int>, turns: seq<Turn>, free: set<int>, a: Attempt)
    requires EnoughFree(order, pool, tried, turns, free) && turns != []
    requires a.before == Meanwhile(pool, turns[0].earlier) && a.turn == turns[0]
    ensures EnoughFree(order, PoolAfter(order, a), tried + {a.channel.id}, turns[1..], free - {a.channel.id})
  {
    assert HarmlessTurn(turns[0], free);
    forall id | id in free - {a.channel.id} ensures Available(order, PoolAfter(order, a), id) {
      AvailableMeanwhile(order, pool, turns[0].earlier, id, free);
      AvailableAfterAttempt(order, a, id, free);
    }
    forall k | 0 <= k < |turns[1..]| ensures HarmlessTurn(turns[1..][k], free - {a.channel.id}) {
      assert HarmlessTurn(turns[k + 1], free);
    }
    FewerLeft(free, a.channel.id);
  }

  /** The first channel of a pass is free, and enough are left if the pass goes on. */
  ghost predicate StaysEnough(order: Order, tried: set<int>, turns: seq<Turn>, free: set<int>, p: Pass)
    requires turns != []
  {
    match p
    case Again(a, after, soFar) =>
      && a.channel.id !in tried && soFar.error != Some(NoChannel)
      && EnoughFree(order, after, tried + {a.channel.id}, turns[1..], free - {a.channel.id})
    case Stop(log) =>
      && (forall k :: 0 <= k < |log.attempts| ==> log.attempts[k].channel.id !in tried)
      && |log.attempts| <= 1 && log.reply.error != Some(NoChannel)
  }

  lemma PassStaysEnough(order: Order, pool: Pool, tried: set<int>, reply: Reply, found: Draft, turns: seq<Turn>,
                        retry: bool, free: set<int>)
    requires EnoughFree(order, pool, tried, turns, free) && turns != [] && reply.error != Some(NoChannel)
    ensures StaysEnough(order, tried, turns, free, OnePass(order, pool, tried, reply, found, turns[0], retry))
  {
    EnoughForFirst(order, pool, tried, turns, free);
    var turn, before := turns[0], Meanwhile(pool, turns[0].earlier);
    var ch := Choice(before, tried, turn, order.suits).value;
    var start := Restored(order.client, found);
    var a := Attempt(before, tried, turn, ch, start, Prepare(order.adapters, ch, start));
    OutcomesFit(order, a, AfterChoice(before, tried, turn, order.suits), reply);
    EnoughAfterFirst(order, pool, tried, turns, free, a);
  }

  /** The same for any pass, so that the induction need not look inside. */
  ghost predicate KeepsEnough(order: Order, pass: (Pool, set<int>, Reply, Draft, Turn, bool) -> Pass) {
    forall pool, tried, reply: Reply, found, turns, retry, free
        {:trigger pass(pool, tried, reply, found, turns[0], retry), EnoughFree(order, pool, tried, turns, free)} ::
      EnoughFree(order, pool, tried, turns, free) && turns != [] && reply.error != Some(NoChannel)
      ==> StaysEnough(order, tried, turns, free, pass(pool, tried, reply, found, turns[0], retry))
  }

  lemma {:induction false} LoopDiffers(order: Order, pass: (Pool, set<int>, Reply, Draft, Turn, bool) -> Pass,
                                       pool: Pool, tried: set<int>, reply: Reply, found: Draft, turns: seq<Turn>,
                                       retry: bool, free: set<int>)
    requires KeepsEnough(order, pass)
    requires EnoughFree(order, pool, tried, turns, free) && reply.error != Some(NoChannel)
    ensures AllDiffer(tried, Loop(pass, pool, tried, reply, found, turns, retry).attempts)
    ensures Loop(pass, pool, tried, reply, found, turns, retry).reply.error != Some(NoChannel)
    decreases |turns|
  {
    if turns != [] {
      var p := pass(pool, tried, reply, found, turns[0], retry);
      assert StaysEnough(order, tried, turns, free, p);
      if p.Again? {
        var id, left := p.attempt.channel.id, LeftBy(p.attempt.shot, found);
        LoopDiffers(order, pass, p.pool, tried + {id}, p.reply, left, turns[1..], true, free - {id});
        AllDifferCons(tried, p.attempt, Loop(pass, p.pool, tried + {id}, p.reply, left, turns[1..], true).attempts);
      }
    }
  }

  /** With at least as many suitable channels as turns, all attempts use different channels and the trip
      never runs out of them, as long as other requests report no failure on these channels. */
  lemma AttemptsDiffer(order: Order, pool: Pool, turns: seq<Turn>, free: set<int>)
    requires EnoughFree(order, pool, {}, turns, free)
    ensures AllDiffer({}, Trip(order, pool, turns).attempts)
    ensures Trip(order, pool, turns).reply.error != Some(NoChannel)
  {
    var pass := PassOf(order);
    forall pool, tried, reply: Reply, found, turns, retry, free
      | EnoughFree(order, pool, tried, turns, free) && turns != [] && reply.error != Some(NoChannel)
      ensures StaysEnough(order, tried, turns, free, pass(pool, tried, reply, found, turns[0], retry))
    {
      PassStaysEnough(order, pool, tried, reply, found, turns, retry, free);
    }
    LoopDiffers(order, pass, pool, {}, Reply(None, None), order.client, turns, false, free);
  }

  lemma SomeOf<T>(s: set<T>) returns (x: T)
    requires 0 < |s|
    ensures x in s
  {
    x :| x in s;
  }

  lemma FewerLeft<T>(s: set<T>, x: T)
    ensures |s| - 1 <= |s - {x}|
  {
    if x in s {
      assert s == (s - {x}) + {x};
    } else {
      assert s - {x} == s;
    }
  }
}
