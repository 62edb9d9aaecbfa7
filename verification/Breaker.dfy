/**
 The circuit breaker of an upstream channel. The step functions are what the methods of Breakers do to
 one entry; the history functions say, without stepping, what any sequence of events must lead to.
 */
module Breaker {
  import opened Prelude

  const FAILURE_THRESHOLD := 5
  const COOLDOWN := 30_000_000_000 // nanoseconds

  datatype CircuitState = Closed | HalfOpen | Open

  /** `lastFailureAt` is None while it is Go's zero time, which lies before any cooldown. */
  datatype Breaker = Breaker(state: CircuitState, failureCount: nat, lastFailureAt: Option<int>, probeInFlight: bool)

  const FRESH := Breaker(Closed, 0, None, false)

  datatype Event = Check(now: int) | Failure(at: int) | Success | Reset | Probe

  predicate Cooled(lastFailureAt: Option<int>, now: int) {
    lastFailureAt.Some? ==> COOLDOWN <= now - lastFailureAt.value
  }

  /** The answer of a check; a channel without an entry is never blocked. */
  predicate Blocked(entry: Option<Breaker>, now: int) {
    entry.Some?
    && match entry.value.state
       case Closed => false
       case Open => !Cooled(entry.value.lastFailureAt, now)
       case HalfOpen => entry.value.probeInFlight
  }

  function Failed(cb: Breaker, at: int): Breaker {
    Breaker(if cb.state == HalfOpen || FAILURE_THRESHOLD <= cb.failureCount + 1 then Open else cb.state,
            cb.failureCount + 1, Some(at), false)
  }

  function Recovered(cb: Breaker): Breaker {
    cb.(state := Closed, failureCount := 0, probeInFlight := false)
  }

  function After(entry: Option<Breaker>, e: Event): Option<Breaker> {
    match e
    case Check(now) =>
      if entry.Some? && entry.value.state == Open && Cooled(entry.value.lastFailureAt, now)
      then Some(entry.value.(state := HalfOpen, probeInFlight := true))
      else entry
    case Failure(at) => Some(Failed(entry.GetOr(FRESH), at))
    case Success => Some(Recovered(entry.GetOr(FRESH)))
    case Reset => if entry.None? then None else Some(Recovered(entry.value))
    case Probe => Some(entry.GetOr(FRESH).(state := HalfOpen, failureCount := 0, probeInFlight := false))
  }

  function AfterAll(entry: Option<Breaker>, es: seq<Event>): Option<Breaker> {
    if es == [] then entry else After(AfterAll(entry, es[..|es| - 1]), es[|es| - 1])
  }

  // What a history says, read backwards from its end.

  /** Failures since the last success, reset or manual probe. */
  function Failures(es: seq<Event>): nat {
    if es == [] then 0
    else
      match es[|es| - 1]
      case Failure(_) => Failures(es[..|es| - 1]) + 1
      case Check(_) => Failures(es[..|es| - 1])
      case _ => 0
  }

  function LastFailure(es: seq<Event>): Option<int> {
    if es == [] then None
    else if es[|es| - 1].Failure? then Some(es[|es| - 1].at)
    else LastFailure(es[..|es| - 1])
  }

  /** The latest of success, reset and manual probe was a manual probe. */
  predicate OnTrial(es: seq<Event>) {
    es != []
    && match es[|es| - 1]
       case Probe => true
       case Success => false
       case Reset => false
       case _ => OnTrial(es[..|es| - 1])
  }

  /** Enough failures to stop traffic: five, or a single one after a manual probe. */
  predicate Tripped(es: seq<Event>) {
    FAILURE_THRESHOLD <= Failures(es) || (OnTrial(es) && 0 < Failures(es))
  }

  /** Some check since the latest failure, success, reset or probe came a cooldown after that failure. */
  predicate CooledSince(es: seq<Event>) {
    es != [] && es[|es| - 1].Check?
    && (Cooled(LastFailure(es), es[|es| - 1].now) || CooledSince(es[..|es| - 1]))
  }

  /** The channel has an entry: something other than checks and resets happened to it. */
  predicate Seen(es: seq<Event>) {
    exists i :: 0 <= i < |es| && !es[i].Check? && !es[i].Reset?
  }

  function StateOf(es: seq<Event>): CircuitState {
    if Tripped(es) then (if CooledSince(es) then HalfOpen else Open)
    else if OnTrial(es) then HalfOpen
    else Closed
  }

  function EntryOf(es: seq<Event>): Option<Breaker> {
    if !Seen(es) then None
    else Some(Breaker(StateOf(es), Failures(es), LastFailure(es), Tripped(es) && CooledSince(es)))
  }

  lemma UnseenIsBlank(es: seq<Event>)
    ensures !Seen(es) ==> Failures(es) == 0 && LastFailure(es) == None && !OnTrial(es)
  {
    if es != [] {
      var init, last := es[..|es| - 1], es[|es| - 1];
      UnseenIsBlank(init);
      assert forall i :: 0 <= i < |init| ==> init[i] == es[i];
      if !Seen(es) {
        assert !Seen(init) && (last.Check? || last.Reset?);
      }
    }
  }

  lemma SeenGrows(es: seq<Event>)
    requires es != []
    ensures Seen(es) <==> Seen(es[..|es| - 1]) || (!es[|es| - 1].Check? && !es[|es| - 1].Reset?)
  {
    var init := es[..|es| - 1];
    if Seen(init) {
      var i :| 0 <= i < |init| && !init[i].Check? && !init[i].Reset?;
      assert es[i] == init[i];
    }
    assert forall i :: 0 <= i < |init| ==> es[i] == init[i];
  }

  /** The breaker refines its history: stepping through any events from nothing reaches exactly the
      entry that the history describes. */
  lemma {:induction false} RefinesHistory(es: seq<Event>)
    ensures AfterAll(None, es) == EntryOf(es)
  {
    if es != [] {
      var init := es[..|es| - 1];
      RefinesHistory(init);
      SeenGrows(es);
      UnseenIsBlank(init);
    }
  }

  /** Closed means fewer than five failures; a probe is in flight only in half-open; an open breaker
      has a latest failure to wait for. */
  lemma ReachableEntries(es: seq<Event>)
    requires AfterAll(None, es).Some?
    ensures var cb := AfterAll(None, es).value;
      && (cb.state == Closed ==> cb.failureCount < FAILURE_THRESHOLD)
      && (cb.probeInFlight ==> cb.state == HalfOpen)
      && (cb.state == Open ==> cb.lastFailureAt.Some?)
  {
    RefinesHistory(es);
    FailureHasTime(es);
  }

  lemma {:induction false} FailureHasTime(es: seq<Event>)
    ensures 0 < Failures(es) ==> LastFailure(es).Some?
  {
    if es != [] {
      FailureHasTime(es[..|es| - 1]);
    }
  }

  /** Exactly when a check is refused, over every history: the breaker has tripped and either its one
      probe is already out or the cooldown since the latest failure is not over. */
  lemma BlockedExactly(es: seq<Event>, now: int)
    ensures Blocked(AfterAll(None, es), now)
       <==> Tripped(es) && (CooledSince(es) || !Cooled(LastFailure(es), now))
  {
    RefinesHistory(es);
    UnseenIsBlank(es);
  }

  /** In numbers: a channel that only ever failed is refused if and only if it failed five times or more and the
      latest failure is less than thirty seconds ago. */
  lemma FiveFailuresRefuse(es: seq<Event>, now: int)
    requires es != [] && forall i :: 0 <= i < |es| ==> es[i].Failure?
    ensures Blocked(AfterAll(None, es), now) <==> 5 <= |es| && now - es[|es| - 1].at < 30_000_000_000
  {
    OnlyFailures(es);
    BlockedExactly(es, now);
  }

  lemma {:induction false} OnlyFailures(es: seq<Event>)
    requires forall i :: 0 <= i < |es| ==> es[i].Failure?
    ensures Failures(es) == |es| && !OnTrial(es)
  {
    if es != [] {
      OnlyFailures(es[..|es| - 1]);
    }
  }

  predicate NothingClears(es: seq<Event>) {
    forall i :: 0 <= i < |es| ==> es[i].Check? || es[i].Failure?
  }

  /** Once open, a channel stays tripped through any further checks and failures: it is refused until a
      cooldown has passed since its latest failure, let through at the next check, and refused again. */
  lemma {:induction false} OpenStaysTripped(es: seq<Event>, more: seq<Event>, now: int)
    requires StateOf(es) == Open && NothingClears(more)
    ensures Tripped(es + more)
    ensures Blocked(AfterAll(None, es + more), now) <==> CooledSince(es + more) || !Cooled(LastFailure(es + more), now)
    decreases |more|
  {
    BlockedExactly(es + more, now);
    if more == [] {
      assert es + more == es;
    } else {
      var init, last := more[..|more| - 1], more[|more| - 1];
      OpenStaysTripped(es, init, now);
      assert (es + more)[..|es + more| - 1] == es + init && (es + more)[|es + more| - 1] == last;
    }
  }

  // Sequences of checks.

  predicate OnlyChecks(es: seq<Event>) {
    forall i :: 0 <= i < |es| ==> es[i].Check?
  }

  /** How many of a run's checks let traffic through. */
  function Admitted(entry: Option<Breaker>, es: seq<Event>): nat {
    if es == [] then 0
    else
      var init, last := es[..|es| - 1], es[|es| - 1];
      Admitted(entry, init) + if last.Check? && !Blocked(AfterAll(entry, init), last.now) then 1 else 0
  }

  predicate SomeCooled(lastFailureAt: Option<int>, es: seq<Event>) {
    exists i :: 0 <= i < |es| && es[i].Check? && Cooled(lastFailureAt, es[i].now)
  }

  lemma SomeCooledGrows(lastFailureAt: Option<int>, es: seq<Event>)
    requires es != []
    ensures SomeCooled(lastFailureAt, es)
       <==> || SomeCooled(lastFailureAt, es[..|es| - 1])
            || (es[|es| - 1].Check? && Cooled(lastFailureAt, es[|es| - 1].now))
  {
    var init := es[..|es| - 1];
    if SomeCooled(lastFailureAt, init) {
      var i :| 0 <= i < |init| && init[i].Check? && Cooled(lastFailureAt, init[i].now);
      assert es[i] == init[i];
    }
    assert forall i :: 0 <= i < |init| ==> es[i] == init[i];
  }

  /** Single automatic probe: an open breaker lets exactly one of any number of checks through, the
      first that comes after the cooldown, and none if there is no such check. */
  lemma {:induction false} SingleProbe(cb: Breaker, checks: seq<Event>)
    requires cb.state == Open && OnlyChecks(checks)
    ensures Admitted(Some(cb), checks) == if SomeCooled(cb.lastFailureAt, checks) then 1 else 0
    ensures AfterAll(Some(cb), checks)
         == Some(if SomeCooled(cb.lastFailureAt, checks) then cb.(state := HalfOpen, probeInFlight := true) else cb)
  {
    if checks != [] {
      SingleProbe(cb, checks[..|checks| - 1]);
      SomeCooledGrows(cb.lastFailureAt, checks);
    }
  }

  /** The half-open state of a manual probe has no such limit: every check is let through. */
  lemma {:induction false} ManualProbeUnlimited(entry: Option<Breaker>, checks: seq<Event>)
    requires OnlyChecks(checks)
    ensures Admitted(After(entry, Probe), checks) == |checks|
    ensures AfterAll(After(entry, Probe), checks) == After(entry, Probe)
  {
    if checks != [] {
      ManualProbeUnlimited(entry, checks[..|checks| - 1]);
    }
  }

  /** While its probe is out, a channel refuses every check, however late. */
  lemma {:induction false} ProbeOutRefusesAll(cb: Breaker, checks: seq<Event>)
    requires cb.state == HalfOpen && cb.probeInFlight && OnlyChecks(checks)
    ensures Admitted(Some(cb), checks) == 0 && AfterAll(Some(cb), checks) == Some(cb)
  {
    if checks != [] {
      ProbeOutRefusesAll(cb, checks[..|checks| - 1]);
    }
  }

  // The registry of breakers.

  function Lookup(table: map<int, Breaker>, id: int): Option<Breaker> {
    if id in table then Some(table[id]) else None
  }

  function Stepped(table: map<int, Breaker>, id: int, e: Event): map<int, Breaker> {
    match After(Lookup(table, id), e)
    case None => table
    case Some(cb) => table[id := cb]
  }

  datatype ChannelEvent = ChannelEvent(id: int, event: Event)

  function SteppedAll(table: map<int, Breaker>, es: seq<ChannelEvent>): map<int, Breaker> {
    if es == [] then table
    else Stepped(SteppedAll(table, es[..|es| - 1]), es[|es| - 1].id, es[|es| - 1].event)
  }

  function EventsOf(es: seq<ChannelEvent>, id: int): seq<Event> {
    if es == [] then []
    else EventsOf(es[..|es| - 1], id) + if es[|es| - 1].id == id then [es[|es| - 1].event] else []
  }

  /** Each channel's entry depends on that channel's own events only, and is what they describe. */
  lemma {:induction false} RegistryRefinesHistories(es: seq<ChannelEvent>, id: int)
    ensures Lookup(SteppedAll(map[], es), id) == EntryOf(EventsOf(es, id))
  {
    if es != [] {
      var init, last := es[..|es| - 1], es[|es| - 1];
      RegistryRefinesHistories(init, id);
      if last.id == id {
        var own := EventsOf(init, id);
        assert EventsOf(es, id) == own + [last.event];
        assert (own + [last.event])[..|own|] == own;
        RefinesHistory(own);
        RefinesHistory(own + [last.event]);
        assert AfterAll(None, own + [last.event]) == After(AfterAll(None, own), last.event);
      } else {
        assert EventsOf(es, id) == EventsOf(init, id);
      }
    }
  }

  class Breakers {
    var table: map<int, Breaker>

    constructor ()
      ensures table == map[]
    {
      table := map[];
    }

    method GetOrCreate(id: int)
      modifies this
      ensures table == old(table)[id := Lookup(old(table), id).GetOr(FRESH)]
    {
      if id !in table {
        table := table[id := FRESH];
      }
    }

    method IsCircuitBlocked(id: int, now: int) returns (blocked: bool)
      modifies this
      ensures blocked == Blocked(Lookup(old(table), id), now)
      ensures table == Stepped(old(table), id, Check(now))
    {
      if id !in table {
        return false;
      }
      var cb := table[id];
      match cb.state {
        case Closed =>
          return false;
        case Open =>
          if cb.lastFailureAt.Some? && now - cb.lastFailureAt.value < COOLDOWN {
            return true;
          }
          table := table[id := cb.(state := HalfOpen, probeInFlight := true)];
          return false;
        case HalfOpen =>
          return cb.probeInFlight;
      }
    }

    method MarkChannelFailed(id: int, now: int)
      modifies this
      ensures table == Stepped(old(table), id, Failure(now))
    {
      GetOrCreate(id);
      var cb := table[id];
      cb := cb.(failureCount := cb.failureCount + 1, lastFailureAt := Some(now), probeInFlight := false);
      if cb.state == HalfOpen || cb.failureCount >= FAILURE_THRESHOLD {
        cb := cb.(state := Open);
      }
      table := table[id := cb];
    }

    method MarkChannelSucceeded(id: int)
      modifies this
      ensures table == Stepped(old(table), id, Success)
    {
      GetOrCreate(id);
      table := table[id := table[id].(failureCount := 0, probeInFlight := false, state := Closed)];
    }

    method ResetCircuitBreaker(id: int)
      modifies this
      ensures table == Stepped(old(table), id, Reset)
    {
      if id !in table {
        return;
      }
      table := table[id := table[id].(state := Closed, failureCount := 0, probeInFlight := false)];
    }

    method ProbeChannel(id: int)
      modifies this
      ensures table == Stepped(old(table), id, Probe)
    {
      GetOrCreate(id);
      table := table[id := table[id].(state := HalfOpen, failureCount := 0, probeInFlight := false)];
    }

    /** Any event on one channel, as another request brings it about. */
    method Apply(e: ChannelEvent)
      modifies this
      ensures table == Stepped(old(table), e.id, e.event)
    {
      match e.event {
        case Check(now) => var _ := IsCircuitBlocked(e.id, now);
        case Failure(at) => MarkChannelFailed(e.id, at);
        case Success => MarkChannelSucceeded(e.id);
        case Reset => ResetCircuitBreaker(e.id);
        case Probe => ProbeChannel(e.id);
      }
    }
  }
}
