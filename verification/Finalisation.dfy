/**
 Who settles or refunds a proxied request, and how often. A streamed response settles from its reader,
 on the end of the stream or on close, whichever comes first; every other exit acts at once.
 */
module Finalisation {
  import opened Prelude
  import opened Pricing

  datatype Action = Settled(usage: Usage) | Refunded

  /** What happens to a response body. A read that parses chunks may change the usage counted so far;
      `eof` tells whether the upstream ended. */
  datatype BodyEvent = Read(counted: Option<Usage>, eof: bool) | Close

  predicate Completes(e: BodyEvent) {
    e.Close? || e.eof
  }

  /** The usage counted after a sequence of events. */
  function Counted(start: Usage, es: seq<BodyEvent>): Usage {
    if es == [] then start
    else
      match es[|es| - 1]
      case Read(Some(usage), _) => usage
      case _ => Counted(start, es[..|es| - 1])
  }

  /** The first completing event of a sequence, or its length. */
  function FirstCompletion(es: seq<BodyEvent>): (i: nat)
    ensures i <= |es| && (i < |es| ==> Completes(es[i])) && forall k :: 0 <= k < i ==> !Completes(es[k])
  {
    if es == [] then 0
    else
      var i := FirstCompletion(es[..|es| - 1]);
      if i < |es| - 1 || Completes(es[|es| - 1]) then i else |es|
  }

  /** The one settlement a body gives rise to, with the usage at its first completing event. */
  function BodyActions(start: Usage, es: seq<BodyEvent>): seq<Action> {
    var i := FirstCompletion(es);
    if i < |es| then [Settled(Counted(start, es[..i + 1]))] else []
  }

  /** Where settlements and refunds of one request arrive. */
  class Desk {
    var actions: seq<Action>

    constructor ()
      ensures actions == []
    {
      actions := [];
    }

    method Settle(usage: Usage)
      modifies this
      ensures actions == old(actions) + [Settled(usage)]
    {
      actions := actions + [Settled(usage)];
    }

    method Refund(amount: int)
      modifies this
      ensures actions == old(actions) + if amount > 0 then [Refunded] else []
    {
      if amount <= 0 {
        return;
      }
      actions := actions + [Refunded];
    }
  }

  class TallyReader {
    var usage: Usage
    var completed: bool
    const desk: Desk
    ghost const start: Usage
    ghost const prior: seq<Action>
    ghost var history: seq<BodyEvent>

    /** The reader has done to the desk exactly what its history calls for. */
    ghost predicate Valid()
      reads this, desk
    {
      && usage == Counted(start, history)
      && (completed <==> FirstCompletion(history) < |history|)
      && desk.actions == prior + BodyActions(start, history)
    }

    constructor (desk: Desk, usage: Usage)
      ensures Valid() && this.desk == desk && start == usage && history == [] && prior == desk.actions
    {
      this.desk, this.usage, completed := desk, usage, false;
      start, prior, history := usage, desk.actions, [];
      new;
      assert prior + [] == prior;
    }

    method Read(counted: Option<Usage>, eof: bool)
      requires Valid()
      modifies this, desk
      ensures Valid() && history == old(history) + [BodyEvent.Read(counted, eof)]
    {
      HistoryStep(start, history, BodyEvent.Read(counted, eof));
      if counted.Some? {
        usage := counted.value;
      }
      if eof {
        TriggerComplete();
      }
      history := history + [BodyEvent.Read(counted, eof)];
      assert prior + [] == prior;
    }

    method Close()
      requires Valid()
      modifies this, desk
      ensures Valid() && history == old(history) + [BodyEvent.Close]
    {
      HistoryStep(start, history, BodyEvent.Close);
      TriggerComplete();
      history := history + [BodyEvent.Close];
    }

    /** The once-only completion. */
    method TriggerComplete()
      modifies this`completed, desk
      ensures completed
      ensures desk.actions == old(desk.actions) + if old(completed) then [] else [Settled(usage)]
    {
      if !completed {
        completed := true;
        desk.Settle(usage);
      }
    }
  }

  lemma CountedStep(start: Usage, es: seq<BodyEvent>, e: BodyEvent)
    ensures Counted(start, es + [e]) == if e.Read? && e.counted.Some? then e.counted.value else Counted(start, es)
  {
    assert (es + [e])[..|es|] == es;
  }

  lemma CompletionStep(es: seq<BodyEvent>, e: BodyEvent)
    ensures FirstCompletion(es + [e])
         == if FirstCompletion(es) < |es| then FirstCompletion(es) else if Completes(e) then |es| else |es| + 1
  {
    assert (es + [e])[..|es|] == es;
  }

  lemma HistoryStep(start: Usage, es: seq<BodyEvent>, e: BodyEvent)
    ensures Counted(start, es + [e]) == if e.Read? && e.counted.Some? then e.counted.value else Counted(start, es)
    ensures FirstCompletion(es + [e]) < |es + [e]| <==> FirstCompletion(es) < |es| || Completes(e)
    ensures BodyActions(start, es + [e])
         == if FirstCompletion(es) < |es| || !Completes(e) then BodyActions(start, es)
            else [Settled(Counted(start, es + [e]))]
  {
    var all, i := es + [e], FirstCompletion(es);
    CountedStep(start, es, e);
    CompletionStep(es, e);
    if i < |es| {
      assert all[..i + 1] == es[..i + 1];
    } else {
      assert all[..|all|] == all;
    }
  }

  /** Over any order of reads and closes a body settles at most once, and it settles if and only if it
      was read to its end or closed; nothing after the first completion changes the settlement. */
  lemma BodySettlesOnce(start: Usage, es: seq<BodyEvent>, more: seq<BodyEvent>)
    ensures |BodyActions(start, es)| == if exists k :: 0 <= k < |es| && Completes(es[k]) then 1 else 0
    ensures BodyActions(start, es) != [] ==> BodyActions(start, es + more) == BodyActions(start, es)
  {
    var i := FirstCompletion(es);
    if exists k :: 0 <= k < |es| && Completes(es[k]) {
      var k :| 0 <= k < |es| && Completes(es[k]);
      assert i <= k;
      FirstStays(es, more);
      assert (es + more)[..i + 1] == es[..i + 1];
    }
  }

  lemma {:induction false} FirstStays(es: seq<BodyEvent>, more: seq<BodyEvent>)
    requires FirstCompletion(es) < |es|
    ensures FirstCompletion(es + more) == FirstCompletion(es)
    decreases |more|
  {
    if more == [] {
      assert es + more == es;
    } else {
      FirstStays(es, more[..|more| - 1]);
      assert (es + more)[..|es + more| - 1] == es + more[..|more| - 1];
    }
  }

  /** The exits of the proxy for a request whose hold is `held`. A refused or failed exchange, or an
      unreadable body, refunds; a plain response settles; a stream leaves it to its reader. */
  datatype Exchange =
    | NotBilled
    | TransportFailed
    | Answered(status: int, isStream: bool, bodyReadable: bool, usage: Usage)

  predicate Refunds(x: Exchange) {
    x.TransportFailed? || (x.Answered? && (x.status != 200 || (!x.isStream && !x.bodyReadable)))
  }

  predicate Streams(x: Exchange) {
    x.Answered? && x.status == 200 && x.isStream
  }

  /** Everything done for a request from hand-over to the last event on its body. */
  function RequestActions(x: Exchange, held: int, es: seq<BodyEvent>): seq<Action> {
    if x.NotBilled? then []
    else if Refunds(x) then (if held > 0 then [Refunded] else [])
    else if Streams(x) then BodyActions(x.usage, es)
    else [Settled(x.usage)]
  }

  predicate CountsAt(es: seq<BodyEvent>, k: nat)
    requires k < |es|
  {
    es[k].Read? && es[k].counted.Some?
  }

  predicate CountsLast(es: seq<BodyEvent>, k: nat)
    requires k < |es|
  {
    CountsAt(es, k) && forall j :: k < j < |es| ==> !CountsAt(es, j)
  }

  /** The usage in force after a sequence of events: that of the last read that counted anything, or else that at
      the start. */
  predicate CountedLast(start: Usage, es: seq<BodyEvent>, usage: Usage) {
    || (exists k :: 0 <= k < |es| && CountsLast(es, k) && usage == es[k].counted.value)
    || ((forall k :: 0 <= k < |es| ==> !CountsAt(es, k)) && usage == start)
  }

  lemma {:induction false} CountedExactly(start: Usage, es: seq<BodyEvent>, usage: Usage)
    ensures CountedLast(start, es, usage) <==> usage == Counted(start, es)
  {
    if es != [] {
      var init, last := es[..|es| - 1], |es| - 1;
      CountedExactly(start, init, usage);
      assert forall k :: 0 <= k < last ==> CountsAt(es, k) == CountsAt(init, k);
      if CountsAt(es, last) {
        assert CountsLast(es, last);
      } else {
        assert forall k :: 0 <= k < last ==> CountsLast(es, k) == CountsLast(init, k);
      }
    }
  }

  /** A stream settles at the usage counted last up to the event that first ends it. */
  lemma StreamSettlesAt(start: Usage, es: seq<BodyEvent>, i: nat, usage: Usage)
    requires i < |es| && (es[i].Close? || es[i].eof) && forall k :: 0 <= k < i ==> !es[k].Close? && !es[k].eof
    requires CountedLast(start, es[..i + 1], usage)
    ensures BodyActions(start, es) == [Settled(usage)]
  {
    assert FirstCompletion(es) == i;
    CountedExactly(start, es[..i + 1], usage);
  }

  /** The body was read to its end or closed. */
  predicate ReadOrClosed(es: seq<BodyEvent>) {
    exists k :: 0 <= k < |es| && (es[k].Close? || (es[k].Read? && es[k].eof))
  }

  predicate SettlementIn(actions: seq<Action>) {
    exists k :: 0 <= k < |actions| && actions[k].Settled?
  }

  /** What becomes of a request, by its exit: a billed one that was answered with 200 is settled if it is a plain
      reply that could be read, at its usage, or a stream read to its end or closed; one that failed in transport,
      was answered otherwise, or is a plain reply that could not be read is refunded, if anything was held. */
  predicate ServedByExit(x: Exchange, held: int, es: seq<BodyEvent>, actions: seq<Action>) {
    && (SettlementIn(actions) <==>
          x.Answered? && x.status == 200 && if x.isStream then ReadOrClosed(es) else x.bodyReadable)
    && (x.Answered? && x.status == 200 && !x.isStream && x.bodyReadable ==> actions == [Settled(x.usage)])
    && (Refunded in actions <==>
          0 < held && (x.TransportFailed? || (x.Answered? && (x.status != 200 || (!x.isStream && !x.bodyReadable)))))
    && |actions| <= 1
  }

  lemma ExitsServe(x: Exchange, held: int, es: seq<BodyEvent>)
    ensures ServedByExit(x, held, es, RequestActions(x, held, es))
  {
    BodySettlesOnce(if x.Answered? then x.usage else Usage(0, 0, 0, 0), es, []);
    assert ReadOrClosed(es) <==> exists k :: 0 <= k < |es| && Completes(es[k]);
    var actions := RequestActions(x, held, es);
    assert actions != [] ==> actions[0] in actions;
  }

  /** modifyResponse, as far as it finalises; a streamed body comes back wrapped in a reader. */
  method ModifyResponse(desk: Desk, held: int, status: int, isStream: bool, bodyReadable: bool, usage: Usage)
    returns (reader: TallyReader?)
    requires desk.actions == []
    modifies desk
    ensures var x := Answered(status, isStream, bodyReadable, usage);
      && (Streams(x) <==> reader != null)
      && desk.actions == RequestActions(x, held, []) && ServedByExit(x, held, [], desk.actions)
      && (reader != null <==> status == 200 && isStream)
      && (reader != null ==> fresh(reader) && reader.desk == desk && reader.Valid()
                             && reader.start == usage && reader.history == [] && reader.prior == [])
  {
    reader := null;
    ExitsServe(Answered(status, isStream, bodyReadable, usage), held, []);
    if status != 200 {
      desk.Refund(held);
      return;
    }
    if isStream {
      reader := new TallyReader(desk, usage);
    } else if bodyReadable {
      desk.Settle(usage);
    } else {
      desk.Refund(held);
    }
  }

  /** One billed or unbilled request through the proxy, with whatever the server does to its body. */
  method Serve(x: Exchange, held: int, es: seq<BodyEvent>) returns (actions: seq<Action>)
    ensures actions == RequestActions(x, held, es)
    ensures ServedByExit(x, held, es, actions)
  {
    ExitsServe(x, held, es);
    var desk := new Desk();
    match x {
      case NotBilled =>
      case TransportFailed =>
        desk.Refund(held);
      case Answered(status, isStream, bodyReadable, usage) =>
        var reader := ModifyResponse(desk, held, status, isStream, bodyReadable, usage);
        if reader != null {
          Drain(reader, es);
        }
    }
    return desk.actions;
  }

  method Happens(reader: TallyReader, e: BodyEvent)
    requires reader.Valid()
    modifies reader, reader.desk
    ensures reader.Valid() && reader.history == old(reader.history) + [e]
  {
    match e {
      case Read(counted, eof) => reader.Read(counted, eof);
      case Close => reader.Close();
    }
  }

  method Drain(reader: TallyReader, es: seq<BodyEvent>)
    requires reader.Valid() && reader.history == [] && reader.prior == []
    modifies reader, reader.desk
    ensures reader.desk.actions == BodyActions(reader.start, es)
  {
    var i := 0;
    while i < |es|
      invariant 0 <= i <= |es| && reader.Valid() && reader.history == es[..i]
    {
      Happens(reader, es[i]);
      assert es[..i + 1] == es[..i] + [es[i]];
      i := i + 1;
    }
    assert es[..i] == es;
    assert [] + BodyActions(reader.start, es) == BodyActions(reader.start, es);
  }

  /** One finalisation per request, over every exit and every treatment of the body: never more than
      one, and exactly one if and only if the request is billed, has something to refund if it is
      refunded, and has its body read to the end or closed if it is streamed. */
  lemma FinalisedOnce(x: Exchange, held: int, es: seq<BodyEvent>)
    ensures |RequestActions(x, held, es)| <= 1
    ensures |RequestActions(x, held, es)| == 1
       <==> && !x.NotBilled?
            && (Refunds(x) ==> held > 0)
            && (Streams(x) ==> exists k :: 0 <= k < |es| && Completes(es[k]))
    ensures !x.NotBilled? && held > 0 && es != [] && es[|es| - 1].Close? ==> |RequestActions(x, held, es)| == 1
  {
    if Streams(x) {
      BodySettlesOnce(x.usage, es, []);
    }
    assert es != [] && es[|es| - 1].Close? ==> Completes(es[|es| - 1]);
  }
}
