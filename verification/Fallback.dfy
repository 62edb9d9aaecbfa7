/**
 The retrying transport: up to MaxRetries + 1 attempts, each on a channel not tried before if there is
 one, each built from the client's original path, header and body and from the query its predecessor left.
 Trip says what a whole round trip does; RoundTrip is the loop that does it.
 */
module Fallback {
  import opened Prelude
  import opened Breaker
  import opened RoundRobin
  import opened ChannelPool

  /** The parts of a request that attempts rewrite, besides the host, which each sets anew. */
  datatype Draft = Draft(path: string, header: map<string, string>, body: Option<string>, query: string)

  datatype Outcome = TransportError | Status(code: int)

  predicate Failing(outcome: Outcome) {
    outcome.TransportError? || outcome.code == 429 || outcome.code >= 500
  }

  /** What the world contributes to one attempt: what other requests do to the pool before it, between its
      two choices if it needs both, and before its report; whether the client gave up during the backoff; the
      clock at the choices and at the report; and the upstream's reply. */
  datatype Turn = Turn(earlier: Traffic, cancelled: bool, clock: int -> int, between: Traffic, again: int -> int,
                       during: Traffic, outcome: Outcome, endedAt: int)

  /** The parts of a request that only the provider adapters know: how to rewrite it for the route and
      how to authenticate it. Either can fail. */
  datatype Adapters = Adapters(rewrite: (Channel, Draft) -> Option<Draft>, authorise: (Channel, Draft) -> Option<Draft>)

  /** What becomes of the preparation of a request. A bad base URL is found after the adapter has written. */
  datatype Shot = RewriteFailed | BadBaseUrl(rewritten: Draft) | AuthFailed | Ready(host: string, draft: Draft)

  predicate EndsWith(s: string, suffix: string) {
    |suffix| <= |s| && s[|s| - |suffix|..] == suffix
  }

  /** The base path and the client's path, without doubling /v1 or the slash. */
  function Joined(base: string, path: string): string {
    if EndsWith(base, "/v1") && "/v1" <= path then base + path[3..]
    else (if EndsWith(base, "/") then base[..|base| - 1] else base) + path
  }

  function Readdressed(draft: Draft, url: Url): Draft {
    draft.(path := Joined(url.path, draft.path), header := draft.header - {"Authorization"})
  }

  /** The request sent to a channel, as a function of the request an attempt starts from. */
  function Prepare(adapters: Adapters, ch: Channel, start: Draft): Shot {
    match adapters.rewrite(ch, start)
    case None => RewriteFailed
    case Some(draft) =>
      if ch.baseUrl.None? then BadBaseUrl(draft)
      else
        match adapters.authorise(ch, Readdressed(draft, ch.baseUrl.value))
        case None => AuthFailed
        case Some(signed) => Ready(ch.baseUrl.value.host, signed)
  }

  /** The path sent upstream: /v1 is not doubled where both the base and the client's path have it, nor the slash
      between them; all else is appended. */
  lemma JoinedPath(base: string, path: string)
    ensures Joined(base + "/v1", "/v1" + path) == base + "/v1" + path
    ensures Joined(base + "/", path) == base + path
    ensures (base == "" || base[|base| - 1] != '/') && (!EndsWith(base, "/v1") || !("/v1" <= path)) ==>
              Joined(base, path) == base + path
  {
    var whole := base + "/v1";
    assert whole[|whole| - 3..] == "/v1" && ("/v1" + path)[3..] == path;
    var slashed := base + "/";
    assert slashed[|slashed| - 1..] == "/" && slashed[..|slashed| - 1] == base;
    assert slashed[|slashed| - 1] == '/' && "/v1"[2] == '1';
    assert |slashed| >= 3 ==> slashed[|slashed| - 3..][2] == '/';
    assert base != "" ==> base[|base| - 1..][0] == base[|base| - 1];
  }

  /** What a channel is sent: what its adapter made of the request, at the channel's host and path, without the
      client's credentials and signed with the channel's. */
  lemma PreparedFor(adapters: Adapters, ch: Channel, start: Draft)
    requires adapters.rewrite(ch, start).Some? && ch.baseUrl.Some?
    ensures var draft, url := adapters.rewrite(ch, start).value, ch.baseUrl.value;
      var bare := Draft(Joined(url.path, draft.path),
                        map name | name in draft.header && name != "Authorization" :: draft.header[name],
                        draft.body, draft.query);
      var signed := adapters.authorise(ch, bare);
      Prepare(adapters, ch, start) == if signed.None? then AuthFailed else Ready(url.host, signed.value)
  {
    var draft, url := adapters.rewrite(ch, start).value, ch.baseUrl.value;
    assert Readdressed(draft, url).header
        == map name | name in draft.header && name != "Authorization" :: draft.header[name];
  }

  /** The request after it was sent, its body read to the end. */
  function Consumed(draft: Draft): Draft {
    draft.(body := if draft.body.Some? then Some("") else None)
  }

  /** What an attempt leaves of the request for the next one to find; after the other two outcomes there is
      no next one. */
  function LeftBy(shot: Shot, found: Draft): Draft {
    match shot
    case BadBaseUrl(rewritten) => rewritten
    case Ready(_, draft) => Consumed(draft)
    case _ => found
  }

  /** What the loop makes of that: it puts back path and header, and the body if the client sent one, but not
      the query. */
  function Restored(client: Draft, found: Draft): Draft {
    Draft(client.path, client.header, if client.body.Some? then client.body else found.body, found.query)
  }

  datatype TripError = Cancelled | NoChannel | NotRewritten | InvalidBaseUrl | NotAuthorised | UpstreamError

  /** Go's result pair: a status and an error, either of which may be absent. */
  datatype Reply = Reply(status: Option<int>, error: Option<TripError>)

  function ReplyOf(outcome: Outcome): Reply {
    match outcome
    case TransportError => Reply(None, Some(UpstreamError))
    case Status(code) => Reply(Some(code), None)
  }

  // One choice, with the fallback to channels already tried.

  function Retried(pool: Pool, tried: set<int>, turn: Turn, suits: Channel -> bool): Pool {
    Meanwhile(AfterNext(pool, tried, turn.clock, suits), turn.between)
  }

  function Choice(pool: Pool, tried: set<int>, turn: Turn, suits: Channel -> bool): Option<Channel> {
    var untried := Next(pool, tried, turn.clock, suits);
    if untried.Some? then untried else Next(Retried(pool, tried, turn, suits), {}, turn.again, suits)
  }

  /** An untried channel that may serve the request, or if there is none, any that may serve it by then, and none
      only if there is none either. */
  predicate ChosenFor(pool: Pool, tried: set<int>, turn: Turn, suits: Channel -> bool, picked: Option<Channel>) {
    || (picked.Some? && Serves(pool, tried, turn.clock, suits, picked))
    || (Serves(pool, tried, turn.clock, suits, None)
        && Serves(Retried(pool, tried, turn, suits), {}, turn.again, suits, picked))
  }

  lemma ChoiceServes(pool: Pool, tried: set<int>, turn: Turn, suits: Channel -> bool)
    ensures ChosenFor(pool, tried, turn, suits, Choice(pool, tried, turn, suits))
  {
    ChosenMayServe(pool, tried, turn.clock, suits);
    ChosenMayServe(Retried(pool, tried, turn, suits), {}, turn.again, suits);
  }

  function AfterChoice(pool: Pool, tried: set<int>, turn: Turn, suits: Channel -> bool): Pool {
    if Next(pool, tried, turn.clock, suits).Some? then AfterNext(pool, tried, turn.clock, suits)
    else AfterNext(Retried(pool, tried, turn, suits), {}, turn.again, suits)
  }

  function Reported(pool: Pool, id: int, e: Event): Pool {
    pool.(table := Stepped(pool.table, id, e))
  }

  /** One attempt: the pool and the tried channels before it, its turn, its channel, the request it starts
      from and what becomes of it. */
  datatype Attempt = Attempt(before: Pool, tried: set<int>, turn: Turn, channel: Channel, start: Draft, shot: Shot)

  datatype Log = Log(attempts: seq<Attempt>, pool: Pool, reply: Reply)

  /** Everything a round trip needs that does not change during it. */
  datatype Order = Order(client: Draft, suits: Channel -> bool, adapters: Adapters)

  /** The end of one pass of the retry loop: it returns, or goes on to the next turn. */
  datatype Pass = Stop(log: Log) | Again(attempt: Attempt, pool: Pool, reply: Reply)

  function OnePass(order: Order, pool: Pool, tried: set<int>, reply: Reply, found: Draft, turn: Turn,
                   retry: bool): Pass {
    var before := Meanwhile(pool, turn.earlier);
    if retry && turn.cancelled then Stop(Log([], before, Reply(None, Some(Cancelled))))
    else
      var after := AfterChoice(before, tried, turn, order.suits);
      match Choice(before, tried, turn, order.suits)
      case None => Stop(Log([], after, Reply(None, Some(NoChannel))))
      case Some(ch) =>
        var start := Restored(order.client, found);
        var shot := Prepare(order.adapters, ch, start);
        Outcomes(Attempt(before, tried, turn, ch, start, shot), after, reply)
  }

  function Outcomes(attempt: Attempt, after: Pool, reply: Reply): Pass {
    var id, turn := attempt.channel.id, attempt.turn;
    var reportable := Meanwhile(after, turn.during);
    match attempt.shot
    case RewriteFailed => Stop(Log([attempt], after, Reply(None, Some(NotRewritten))))
    case AuthFailed => Stop(Log([attempt], after, Reply(None, Some(NotAuthorised))))
    case BadBaseUrl(_) => Again(attempt, Reported(reportable, id, Failure(turn.endedAt)),
        reply.(error := Some(InvalidBaseUrl)))
    case Ready(_, _) =>
      if Failing(turn.outcome) then Again(attempt, Reported(reportable, id, Failure(turn.endedAt)),
          ReplyOf(turn.outcome))
      else Stop(Log([attempt], Reported(reportable, id, Success), ReplyOf(turn.outcome)))
  }

  /** The retry loop over any pass: the pool, the channels tried, the reply so far, the request as found, and whether
      this is a retry, go from one pass to the next. */
  function Loop(pass: (Pool, set<int>, Reply, Draft, Turn, bool) -> Pass, pool: Pool, tried: set<int>, reply: Reply,
                found: Draft, turns: seq<Turn>, retry: bool): Log
    decreases |turns|
  {
    if |turns| == 0 then Log([], pool, reply)
    else
      match pass(pool, tried, reply, found, turns[0], retry)
      case Stop(log) => log
      case Again(attempt, after, soFar) =>
        var left := LeftBy(attempt.shot, found);
        var rest := Loop(pass, after, tried + {attempt.channel.id}, soFar, left, turns[1..], true);
        rest.(attempts := [attempt] + rest.attempts)
  }

  function PassOf(order: Order): (Pool, set<int>, Reply, Draft, Turn, bool) -> Pass {
    (pool, tried, reply, found, turn, retry) => OnePass(order, pool, tried, reply, found, turn, retry)
  }

  /** A whole round trip, from its first attempt. */
  function Trip(order: Order, pool: Pool, turns: seq<Turn>): Log {
    Loop(PassOf(order), pool, {}, Reply(None, None), order.client, turns, false)
  }

  class HttpRequest {
    var host: string
    var path: string
    var header: map<string, string>
    var body: Option<string>
    var query: string

    constructor (draft: Draft)
      ensures View() == draft
    {
      host, path, header, body, query := "", draft.path, draft.header, draft.body, draft.query;
    }

    function View(): Draft
      reads this
    {
      Draft(path, header, body, query)
    }

    method Become(draft: Draft)
      modifies this
      ensures View() == draft && host == old(host)
    {
      path, header, body, query := draft.path, draft.header, draft.body, draft.query;
    }

    /** What the loop puts back before an attempt. */
    method Restore(client: Draft)
      modifies this
      ensures View() == Restored(client, old(View())) && host == old(host)
    {
      if client.body.Some? {
        body := client.body;
      }
      path := client.path;
      header := client.header;
    }

    /** Sending reads the body to its end. */
    method Consume()
      modifies this
      ensures View() == Consumed(old(View()))
    {
      if body.Some? {
        body := Some("");
      }
    }

    /** Adapter, base URL, authentication: the rewriting of one attempt, in place. */
    method Rewrite(adapters: Adapters, ch: Channel) returns (shot: Shot)
      modifies this
      ensures shot == Prepare(adapters, ch, old(View()))
      ensures shot.Ready? ==> host == shot.host && View() == shot.draft
      ensures shot.BadBaseUrl? ==> View() == shot.rewritten
    {
      var rewritten := adapters.rewrite(ch, View());
      if rewritten.None? {
        return RewriteFailed;
      }
      Become(rewritten.value);
      if ch.baseUrl.None? {
        return BadBaseUrl(rewritten.value);
      }
      var url := ch.baseUrl.value;
      host := url.host;
      if EndsWith(url.path, "/v1") && "/v1" <= path {
        path := url.path + path[3..];
      } else {
        path := (if EndsWith(url.path, "/") then url.path[..|url.path| - 1] else url.path) + path;
      }
      header := header - {"Authorization"};
      var signed := adapters.authorise(ch, View());
      if signed.None? {
        return AuthFailed;
      }
      Become(signed.value);
      return Ready(host, signed.value);
    }
  }

  class FallbackTransport {
    const manager: Manager
    const maxRetries: nat

    constructor (manager: Manager, maxRetries: nat)
      ensures this.manager == manager && this.maxRetries == maxRetries
    {
      this.manager, this.maxRetries := manager, maxRetries;
    }

    method Choose(tried: set<int>, turn: Turn, suits: Channel -> bool) returns (ch: Option<Channel>)
      requires DistinctIds(manager.channels)
      modifies manager`index, manager.breakers
      ensures ch == Choice(old(manager.View()), tried, turn, suits)
      ensures ChosenFor(old(manager.View()), tried, turn, suits, ch)
      ensures manager.View() == AfterChoice(old(manager.View()), tried, turn, suits)
    {
      ChoiceServes(manager.View(), tried, turn, suits);
      ch := manager.GetNextChannel(tried, turn.clock, suits);
      if ch.None? {
        manager.Interleave(turn.between);
        ch := manager.GetNextChannel({}, turn.again, suits);
      }
    }

    /** The first half of an attempt: restore the request, choose a channel, rewrite for it. */
    method Aim(req: HttpRequest, client: Draft, tried: set<int>, turn: Turn, suits: Channel -> bool, adapters: Adapters)
      returns (ch: Option<Channel>, shot: Shot)
      requires DistinctIds(manager.channels)
      modifies req, manager`index, manager.breakers
      ensures ch == Choice(old(manager.View()), tried, turn, suits)
      ensures manager.View() == AfterChoice(old(manager.View()), tried, turn, suits)
      ensures ch.Some? ==> shot == Prepare(adapters, ch.value, Restored(client, old(req.View())))
      ensures ch.Some? && shot.Ready? ==> req.host == shot.host && req.View() == shot.draft
      ensures ch.Some? && shot.BadBaseUrl? ==> req.View() == shot.rewritten
    {
      req.Restore(client);
      ch := Choose(tried, turn, suits);
      shot := RewriteFailed;
      if ch.Some? {
        shot := req.Rewrite(adapters, ch.value);
      }
    }

    /** The second half: report to the breaker and decide whether to go on. */
    method Report(ghost attempt: Attempt, id: int, turn: Turn, shot: Shot, reply: Reply)
      returns (ghost pass: Pass, done: bool, soFar: Reply)
      requires attempt.channel.id == id && attempt.turn == turn && attempt.shot == shot
      modifies manager`index, manager.breakers
      ensures pass == Outcomes(attempt, old(manager.View()), reply)
      ensures done == pass.Stop? && soFar == (if done then pass.log.reply else pass.reply)
      ensures manager.View() == if done then pass.log.pool else pass.pool
    {
      pass := Outcomes(attempt, manager.View(), reply);
      match shot {
        case RewriteFailed =>
          return pass, true, Reply(None, Some(NotRewritten));
        case AuthFailed =>
          return pass, true, Reply(None, Some(NotAuthorised));
        case BadBaseUrl(_) =>
          manager.Interleave(turn.during);
          manager.breakers.MarkChannelFailed(id, turn.endedAt);
          return pass, false, reply.(error := Some(InvalidBaseUrl));
        case Ready(_, _) =>
          manager.Interleave(turn.during);
          if Failing(turn.outcome) {
            manager.breakers.MarkChannelFailed(id, turn.endedAt);
            return pass, false, ReplyOf(turn.outcome);
          }
          manager.breakers.MarkChannelSucceeded(id);
          return pass, true, ReplyOf(turn.outcome);
      }
    }

    /** One pass of the retry loop. */
    method TakeTurn(req: HttpRequest, order: Order, tried: set<int>, reply: Reply, turn: Turn, retry: bool)
      returns (ghost pass: Pass, done: bool, soFar: Reply, used: int)
      requires DistinctIds(manager.channels)
      modifies req, manager`index, manager.breakers
      ensures pass == OnePass(order, old(manager.View()), tried, reply, old(req.View()), turn, retry)
      ensures done == pass.Stop? && soFar == (if done then pass.log.reply else pass.reply)
      ensures !done ==> used == pass.attempt.channel.id
      ensures !done ==> req.View() == LeftBy(pass.attempt.shot, old(req.View()))
      ensures manager.View() == if done then pass.log.pool else pass.pool
    {
      pass := OnePass(order, manager.View(), tried, reply, req.View(), turn, retry);
      ghost var start := Restored(order.client, req.View());
      manager.Interleave(turn.earlier);
      ghost var before := manager.View();
      if retry && turn.cancelled {
        return pass, true, Reply(None, Some(Cancelled)), 0;
      }
      var ch, shot := Aim(req, order.client, tried, turn, order.suits, order.adapters);
      if ch.None? {
        return pass, true, Reply(None, Some(NoChannel)), 0;
      }
      used := ch.value.id;
      if shot.Ready? {
        req.Consume();
      }
      pass, done, soFar := Report(Attempt(before, tried, turn, ch.value, start, shot), used, turn, shot, reply);
    }

    /** RoundTrip. `turns` holds what happens at each of the MaxRetries + 1 possible attempts. */
    method RoundTrip(req: HttpRequest, suits: Channel -> bool, adapters: Adapters, turns: seq<Turn>)
      returns (reply: Reply, ghost attempts: seq<Attempt>)
      requires DistinctIds(manager.channels) && |turns| == maxRetries + 1
      modifies req, manager`index, manager.breakers
      ensures Log(attempts, manager.View(), reply)
           == Trip(Order(old(req.View()), suits, adapters), old(manager.View()), turns)
    {
      var order := Order(req.View(), suits, adapters);
      ghost var run := PassOf(order);
      ghost var whole := Trip(order, manager.View(), turns);
      reply, attempts := Reply(None, None), [];
      var tried: set<int> := {};
      var i := 0;
      assert turns[i..] == turns;
      while i <= maxRetries
        invariant 0 <= i <= maxRetries + 1
        invariant manager.channels == old(manager.channels)
        invariant whole == Joining(attempts, Loop(run, manager.View(), tried, reply, req.View(), turns[i..], 0 < i))
      {
        ghost var before, earlier, found := manager.View(), reply, req.View();
        var pass, done, soFar, used := TakeTurn(req, order, tried, reply, turns[i], 0 < i);
        LoopStep(run, before, tried, earlier, found, turns, i, pass, attempts);
        reply := soFar;
        if done {
          attempts := attempts + pass.log.attempts;
          return;
        }
        attempts := attempts + [pass.attempt];
        tried := tried + {used};
        i := i + 1;
      }
    }
  }

  /** A log with earlier attempts put in front. */
  function Joining(attempts: seq<Attempt>, rest: Log): Log {
    Log(attempts + rest.attempts, rest.pool, rest.reply)
  }

  lemma LoopStep(run: (Pool, set<int>, Reply, Draft, Turn, bool) -> Pass, pool: Pool, tried: set<int>, reply: Reply,
                 found: Draft, turns: seq<Turn>, i: nat, pass: Pass, attempts: seq<Attempt>)
    requires i < |turns| && pass == run(pool, tried, reply, found, turns[i], 0 < i)
    ensures var rest := Loop(run, pool, tried, reply, found, turns[i..], 0 < i);
      match pass
      case Stop(log) => rest == log
      case Again(attempt, after, soFar) =>
        var left := LeftBy(attempt.shot, found);
        Joining(attempts, rest)
          == Joining(attempts + [attempt],
                     Loop(run, after, tried + {attempt.channel.id}, soFar, left, turns[i + 1..], true))
  {
    assert turns[i..][0] == turns[i] && turns[i..][1..] == turns[i + 1..];
    if pass.Again? {
      var a, left := pass.attempt, LeftBy(pass.attempt.shot, found);
      var later := Loop(run, pass.pool, tried + {a.channel.id}, pass.reply, left, turns[i + 1..], true);
      assert attempts + ([a] + later.attempts) == attempts + [a] + later.attempts;
    }
  }
}
