/**
 The fixed-window limiter: one Redis counter per key, which expires a window after it is created. A
 window opens with the first request after the last one expired, so a span of time can meet two.
 */
module RateLimit {
  import opened Prelude

  datatype Counter = Counter(count: int, expiresAt: int)

  function Live(key: Option<Counter>, now: int): Option<Counter> {
    if key.Some? && key.value.expiresAt <= now then None else key
  }

  /** The first request of a window is admitted whatever its size. */
  predicate Allows(key: Option<Counter>, now: int, limit: int, increment: int) {
    Live(key, now).None? || Live(key, now).value.count + increment <= limit
  }

  function After(key: Option<Counter>, now: int, window: int, limit: int, increment: int): Option<Counter> {
    match Live(key, now)
    case None => Some(Counter(increment, now + window))
    case Some(counter) =>
      if counter.count + increment <= limit then Some(counter.(count := counter.count + increment)) else Some(counter)
  }

  class LimitKey {
    var key: Option<Counter>

    constructor ()
      ensures key == None
    {
      key := None;
    }

    /** rate_limit.lua */
    method Check(now: int, window: int, limit: int, increment: int) returns (allowed: bool)
      modifies this
      ensures allowed == Allows(old(key), now, limit, increment)
      ensures key == After(old(key), now, window, limit, increment)
    {
      if key.Some? && key.value.expiresAt <= now {
        key := None;
      }
      var current := key;
      if current.Some? && current.value.count + increment > limit {
        return false;
      }
      if key.None? {
        key := Some(Counter(increment, now + window));
      } else {
        key := Some(key.value.(count := key.value.count + increment));
      }
      return true;
    }
  }

  datatype Call = Call(now: int, increment: int)

  datatype Limits = Limits(window: int, limit: int)

  function AfterAll(limits: Limits, calls: seq<Call>): Option<Counter> {
    if calls == [] then None
    else
      var last := calls[|calls| - 1];
      After(AfterAll(limits, calls[..|calls| - 1]), last.now, limits.window, limits.limit, last.increment)
  }

  /** What the limiter admits in the span from `s` up to but not including `e`. */
  function AdmittedBetween(limits: Limits, calls: seq<Call>, s: int, e: int): int {
    if calls == [] then 0
    else
      var init, last := calls[..|calls| - 1], calls[|calls| - 1];
      AdmittedBetween(limits, init, s, e)
      + if s <= last.now < e && Allows(AfterAll(limits, init), last.now, limits.limit, last.increment)
          then last.increment else 0
  }

  /** Calls in the order of their times, with increments between two bounds, the upper one at least
      the limit. */
  predicate Orderly(limits: Limits, calls: seq<Call>, least: int, most: int) {
    && 0 < limits.window && limits.limit <= most && 0 <= least
    && (forall i :: 0 <= i < |calls| ==> least <= calls[i].increment <= most)
    && (forall i, j :: 0 <= i < j < |calls| ==> calls[i].now <= calls[j].now)
  }

  /** What holds of a counter and of the amount admitted so far in the span of one window from s. */
  predicate Bounded(counter: Counter, window: int, admitted: int, s: int, least: int, most: int) {
    var start := counter.expiresAt - window;
    && least <= counter.count <= most
    && (counter.expiresAt <= s ==> admitted == 0)
    && (start < s ==> admitted <= counter.count - least)
    && (start == s ==> admitted <= counter.count)
    && (s < start < s + window ==> admitted <= most - least + counter.count)
    && (s + window <= start ==> admitted <= most - least + most)
  }

  lemma OneCall(limits: Limits, key: Option<Counter>, call: Call, admitted: int, s: int, least: int, most: int)
    requires 0 < limits.window && limits.limit <= most && 0 <= least <= call.increment <= most
    requires key.None? ==> admitted == 0
    requires key.Some? ==> Bounded(key.value, limits.window, admitted, s, least, most)
                           && key.value.expiresAt - limits.window <= call.now
    ensures var counter := After(key, call.now, limits.window, limits.limit, call.increment);
            var counted := s <= call.now < s + limits.window && Allows(key, call.now, limits.limit, call.increment);
      && counter.Some? && counter.value.expiresAt - limits.window <= call.now
      && Bounded(counter.value, limits.window, admitted + (if counted then call.increment else 0), s, least, most)
  {
  }

  lemma {:induction false} RunBounded(limits: Limits, calls: seq<Call>, s: int, least: int, most: int)
    requires Orderly(limits, calls, least, most)
    ensures var admitted := AdmittedBetween(limits, calls, s, s + limits.window);
      match AfterAll(limits, calls)
      case None => calls == [] && admitted == 0
      case Some(counter) =>
        && calls != [] && counter.expiresAt - limits.window <= calls[|calls| - 1].now
        && Bounded(counter, limits.window, admitted, s, least, most)
  {
    if calls != [] {
      var init, last := calls[..|calls| - 1], calls[|calls| - 1];
      RunBounded(limits, init, s, least, most);
      assert init != [] ==> init[|init| - 1].now <= last.now;
      OneCall(limits, AfterAll(limits, init), last, AdmittedBetween(limits, init, s, s + limits.window), s, least,
          most);
    }
  }

  /** In any span of one window's length the limiter admits at most twice the limit less one smallest
      increment, for every sequence of calls. `most` is the limit if no single call exceeds it. */
  lemma SpanBound(limits: Limits, calls: seq<Call>, s: int, least: int, most: int)
    requires Orderly(limits, calls, least, most) && least <= most
    ensures AdmittedBetween(limits, calls, s, s + limits.window) <= 2 * most - least
  {
    RunBounded(limits, calls, s, least, most);
  }

  /** Within the lifetime of one counter it admits at most the limit. */
  lemma LifetimeBound(limits: Limits, calls: seq<Call>, least: int, most: int)
    requires Orderly(limits, calls, least, most) && AfterAll(limits, calls).Some?
    ensures var counter := AfterAll(limits, calls).value;
      && AdmittedBetween(limits, calls, counter.expiresAt - limits.window, counter.expiresAt) <= counter.count <= most
  {
    var counter := AfterAll(limits, calls).value;
    RunBounded(limits, calls, counter.expiresAt - limits.window, least, most);
  }

  /** The bound is reached: a request early in a window, the rest of its limit at the end, and a whole
      limit at the start of the next. So a span of one window can see almost twice the limit. */
  lemma SpanBoundIsReached(limits: Limits)
    requires 2 <= limits.window && 2 <= limits.limit
    ensures var calls := [Call(0, 1), Call(limits.window - 1, limits.limit - 1), Call(limits.window, limits.limit)];
      && Orderly(limits, calls, 1, limits.limit)
      && AdmittedBetween(limits, calls, limits.window - 1, limits.window - 1 + limits.window) == 2 * limits.limit - 1
  {
    var w, m := limits.window, limits.limit;
    var c1, c2, c3 := Call(0, 1), Call(w - 1, m - 1), Call(w, m);
    assert [c1, c2, c3][..2] == [c1, c2] && [c1, c2][..1] == [c1] && [c1][..0] == [];
    assert AfterAll(limits, [c1]) == Some(Counter(1, w));
    assert AfterAll(limits, [c1, c2]) == Some(Counter(m, w));
    assert AdmittedBetween(limits, [c1], w - 1, 2 * w - 1) == 0;
    assert AdmittedBetween(limits, [c1, c2], w - 1, 2 * w - 1) == m - 1;
  }

  /** What holds when a window is one tick: a span of a window is a single instant, which meets one
      counter only. */
  predicate BoundedAtInstant(counter: Counter, admitted: int, s: int, most: int) {
    var start := counter.expiresAt - 1;
    && 0 <= counter.count <= most
    && (start < s ==> admitted == 0)
    && (start == s ==> admitted <= counter.count)
    && (s < start ==> admitted <= most)
  }

  lemma {:induction false} InstantBounded(limits: Limits, calls: seq<Call>, s: int, least: int, most: int)
    requires Orderly(limits, calls, least, most) && limits.window == 1 && 0 <= most
    ensures var admitted := AdmittedBetween(limits, calls, s, s + 1);
      match AfterAll(limits, calls)
      case None => calls == [] && admitted == 0
      case Some(counter) =>
        && calls != [] && counter.expiresAt - 1 <= calls[|calls| - 1].now
        && BoundedAtInstant(counter, admitted, s, most)
  {
    if calls != [] {
      var init, last := calls[..|calls| - 1], calls[|calls| - 1];
      InstantBounded(limits, init, s, least, most);
      assert init != [] ==> init[|init| - 1].now <= last.now;
    }
  }

  function AdmittedInSpan(limits: Limits, calls: seq<Call>, s: int): int {
    AdmittedBetween(limits, calls, s, s + limits.window)
  }

  /** No span of one window admits more than the limit, for requests of one up to the limit. */
  ghost predicate SlidingBound(limits: Limits) {
    forall calls, s :: Orderly(limits, calls, 1, limits.limit) ==> AdmittedInSpan(limits, calls, s) <= limits.limit
  }

  /** The limiter keeps the promise of a sliding window exactly when its window is a single tick or its
      limit a single request. */
  lemma SlidingExactly(limits: Limits)
    requires 0 < limits.window && 0 <= limits.limit
    ensures SlidingBound(limits) <==> limits.window == 1 || limits.limit <= 1
  {
    if limits.window == 1 || limits.limit <= 1 {
      forall calls, s | Orderly(limits, calls, 1, limits.limit)
        ensures AdmittedInSpan(limits, calls, s) <= limits.limit
      {
        SlidesAtOne(limits, calls, s);
      }
    } else {
      SpanBoundIsReached(limits);
      var calls := [Call(0, 1), Call(limits.window - 1, limits.limit - 1), Call(limits.window, limits.limit)];
      assert AdmittedInSpan(limits, calls, limits.window - 1) == 2 * limits.limit - 1;
    }
  }

  lemma SlidesAtOne(limits: Limits, calls: seq<Call>, s: int)
    requires 0 <= limits.limit && (limits.window == 1 || limits.limit <= 1)
    requires Orderly(limits, calls, 1, limits.limit)
    ensures AdmittedInSpan(limits, calls, s) <= limits.limit
  {
    if limits.window == 1 {
      InstantBounded(limits, calls, s, 1, limits.limit);
    } else if calls != [] {
      assert 1 <= calls[0].increment <= limits.limit;
      SpanBound(limits, calls, s, 1, limits.limit);
    }
  }

  /** A single increment above the limit is still admitted when it opens a window. */
  lemma OversizedFirstRequestAdmitted(limits: Limits, call: Call)
    requires 0 < limits.window && limits.limit < call.increment
    ensures AdmittedBetween(limits, [call], call.now, call.now + limits.window) == call.increment > limits.limit
  {
    assert [call][..0] == [];
    assert AfterAll(limits, []) == None;
  }
}
