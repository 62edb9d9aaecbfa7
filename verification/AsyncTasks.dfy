/**
 Asynchronous video tasks: one row, changed by the create, get and cancel handlers. Each handler reads
 the row once and later writes back what it made of that reading, so the write functions take both
 the row as it is and the row as the handler saw it.
 */
module AsyncTasks {

  datatype Action = Settled | Refunded

  /** `routed` tells that a channel and an upstream task id are known. `actions` is the history of
      settlements and refunds made for the task. */
  datatype Task = Task(status: string, routed: bool, held: int, actualCost: int, actions: seq<Action>)

  predicate IsTerminal(status: string) {
    status == "succeeded" || status == "failed" || status == "canceled"
  }

  function NewTask(held: int): Task {
    Task("queued", false, held, 0, [])
  }

  /** The upstream's answer to a submission: refused in one of several ways, or a task status and
      whether it came with a task id. */
  datatype Submission = Unserved | Submitted(status: string, hasId: bool, settleOk: bool)

  /** The upstream's answer to a poll. */
  datatype Poll = Unknown | Polled(status: string, settleOk: bool)

  /** What a cancellation meets: the channel's row is gone, the upstream refuses, or it agrees. */
  datatype Cancellation = ChannelGone | Refused | Agreed

  function WithRefund(t: Task, due: bool): Task {
    if due then t.(actions := t.actions + [Refunded]) else t
  }

  /** finalizeTerminalTask. The hold is settled as the cost; the cost is stored if settling succeeded. */
  function Finalised(t: Task, settleOk: bool): Task {
    if t.status == "succeeded" then
      if t.actualCost > 0 then t
      else t.(actions := t.actions + [Settled], actualCost := if settleOk then t.held else t.actualCost)
    else if t.status == "failed" || t.status == "canceled" then WithRefund(t, t.held > 0 && t.actualCost == 0)
    else t
  }

  function FailedAndRefunded(t: Task): Task {
    WithRefund(t.(status := "failed", actualCost := 0), t.held > 0)
  }

  function Created(held: int, submission: Submission): Task {
    match submission
    case Unserved => FailedAndRefunded(NewTask(held))
    case Submitted(status, hasId, settleOk) =>
      var t := NewTask(held).(status := status, routed := hasId);
      if IsTerminal(status) then Finalised(t, settleOk) else t
  }

  /** The update of a status keeps the handler's own reading of the cost. */
  function Marked(row: Task, seen: Task, status: string): Task {
    row.(status := status, actualCost := seen.actualCost)
  }

  function GetWrites(row: Task, seen: Task, poll: Poll): Task {
    if IsTerminal(seen.status) || !seen.routed || poll.Unknown? then row
    else
      var t := Marked(row, seen, poll.status);
      if IsTerminal(poll.status) then Finalised(t, poll.settleOk) else t
  }

  function CancelWrites(row: Task, seen: Task, cancellation: Cancellation): Task {
    if IsTerminal(seen.status) || (seen.routed && cancellation.Refused?) then row
    else
      var t := Marked(row, seen, "canceled");
      WithRefund(t, t.held > 0 && t.actualCost == 0)
  }

  datatype Call = Get(poll: Poll) | Cancel(cancellation: Cancellation)

  function Writes(row: Task, seen: Task, call: Call): Task {
    match call
    case Get(poll) => GetWrites(row, seen, poll)
    case Cancel(cancellation) => CancelWrites(row, seen, cancellation)
  }

  /** Calls taken as atomic: each sees the row it writes. */
  function AfterCalls(t: Task, calls: seq<Call>): Task {
    if calls == [] then t
    else
      var row := AfterCalls(t, calls[..|calls| - 1]);
      Writes(row, row, calls[|calls| - 1])
  }

  class TaskRow {
    var task: Task

    /** CreateVideoGenerationTask, with all database writes succeeding. */
    constructor (held: int, submission: Submission)
      ensures task == Created(held, submission) && Submits(held, submission, task)
    {
      task := NewTask(held);
      new;
      match submission {
        case Unserved =>
          FailTaskAndRefund();
        case Submitted(status, hasId, settleOk) =>
          task := task.(status := status, routed := hasId);
          if IsTerminal(task.status) {
            FinalizeTerminalTask(settleOk);
          }
      }
    }

    method Refund()
      modifies this
      ensures task == old(task).(actions := old(task).actions + [Refunded])
    {
      task := task.(actions := task.actions + [Refunded]);
    }

    method FailTaskAndRefund()
      modifies this
      ensures task == FailedAndRefunded(old(task))
    {
      task := task.(status := "failed", actualCost := 0);
      if task.held > 0 {
        Refund();
      }
    }

    method FinalizeTerminalTask(settleOk: bool)
      modifies this
      ensures task == Finalised(old(task), settleOk)
    {
      if task.status == "succeeded" {
        if task.actualCost > 0 {
          return;
        }
        var actualCost := task.held;
        task := task.(actions := task.actions + [Settled]);
        if settleOk {
          task := task.(actualCost := actualCost);
        }
      } else if task.status == "failed" || task.status == "canceled" {
        if task.held > 0 && task.actualCost == 0 {
          Refund();
        }
      }
    }

    /** GetTask and refreshTaskStatus. `seen` is the row as the handler read it. */
    method GetTask(seen: Task, poll: Poll)
      modifies this
      ensures task == GetWrites(old(task), seen, poll)
    {
      if !IsTerminal(seen.status) && seen.routed && poll.Polled? {
        task := task.(status := poll.status, actualCost := seen.actualCost);
        if IsTerminal(task.status) {
          FinalizeTerminalTask(poll.settleOk);
        }
      }
    }

    method CancelTask(seen: Task, cancellation: Cancellation) returns (ok: bool)
      modifies this
      ensures task == CancelWrites(old(task), seen, cancellation)
      ensures ok <==> IsTerminal(seen.status) || !(seen.routed && cancellation.Refused?)
    {
      if IsTerminal(seen.status) {
        return true;
      }
      if seen.routed && cancellation.Refused? {
        return false;
      }
      task := task.(status := "canceled", actualCost := seen.actualCost);
      if task.held > 0 && task.actualCost == 0 {
        Refund();
      }
      return true;
    }
  }

  /** A task has been finalised once if it is terminal and there was something to finalise, and never
      otherwise; which way shows in its status. */
  predicate OnceIfTerminal(t: Task) {
    if !IsTerminal(t.status) then t.actions == [] && t.actualCost == 0
    else if t.status == "succeeded" then t.actions == [Settled]
    else t.actions == if t.held > 0 then [Refunded] else []
  }

  /** How a submission ends: refused in any way it is failed and refunded, if anything was held; accepted it has the
      status it came with, and a status that ends it settles or refunds it at once. */
  predicate Submits(held: int, submission: Submission, t: Task) {
    && t.held == held
    && match submission
       case Unserved => t.status == "failed" && t.actualCost == 0 && t.actions == if held > 0 then [Refunded] else []
       case Submitted(status, hasId, settleOk) =>
         && t.status == status && t.routed == hasId
         && t.actions == (if status == "succeeded" then [Settled]
                          else if (status == "failed" || status == "canceled") && held > 0 then [Refunded]
                          else [])
         && t.actualCost == if status == "succeeded" && settleOk then held else 0
  }

  lemma CreatedAsSubmitted(held: int, submission: Submission)
    ensures Submits(held, submission, Created(held, submission))
  {
  }

  predicate Ended(status: string) {
    status == "succeeded" || status == "failed" || status == "canceled"
  }

  /** What a call makes of a task that no other call touches meanwhile and that has cost nothing yet: a poll
      takes over the upstream's status, a cancellation the status canceled, unless the task has ended or the
      upstream does not answer or refuses; an ending settles at the hold or refunds it. */
  predicate Called(t: Task, call: Call, after: Task) {
    && after.held == t.held && after.routed == t.routed
    && match call
       case Get(poll) =>
         if Ended(t.status) || !t.routed || poll == Unknown then after == t
         else
           && after.status == poll.status
           && after.actions == t.actions + (if poll.status == "succeeded" then [Settled]
                                            else if Ended(poll.status) && t.held > 0 then [Refunded]
                                            else [])
           && after.actualCost == if poll.status == "succeeded" && poll.settleOk then t.held else 0
       case Cancel(cancellation) =>
         if Ended(t.status) || (t.routed && cancellation == Refused) then after == t
         else
           && after.status == "canceled" && after.actualCost == 0
           && after.actions == t.actions + if t.held > 0 then [Refunded] else []
  }

  lemma CallAsCalled(t: Task, call: Call)
    requires !Ended(t.status) ==> t.actualCost == 0
    ensures Called(t, call, Writes(t, t, call))
  {
  }

  /** The same over any run of calls: each finds the task as the ones before it left it. */
  lemma CallsAsCalled(held: int, submission: Submission, calls: seq<Call>)
    requires calls != []
    ensures var t := AfterCalls(Created(held, submission), calls[..|calls| - 1]);
            Called(t, calls[|calls| - 1], AfterCalls(Created(held, submission), calls))
  {
    CreatedOnce(held, submission);
    CallsKeepOnce(Created(held, submission), calls[..|calls| - 1]);
    CallAsCalled(AfterCalls(Created(held, submission), calls[..|calls| - 1]), calls[|calls| - 1]);
  }

  lemma CreatedOnce(held: int, submission: Submission)
    ensures OnceIfTerminal(Created(held, submission)) && Created(held, submission).held == held
  {
  }

  lemma CallKeepsOnce(t: Task, call: Call)
    requires OnceIfTerminal(t)
    ensures OnceIfTerminal(Writes(t, t, call)) && Writes(t, t, call).held == t.held
    ensures IsTerminal(t.status) ==> Writes(t, t, call) == t
  {
  }

  lemma {:induction false} CallsKeepOnce(t: Task, calls: seq<Call>)
    requires OnceIfTerminal(t)
    ensures OnceIfTerminal(AfterCalls(t, calls)) && AfterCalls(t, calls).held == t.held
    ensures IsTerminal(t.status) ==> AfterCalls(t, calls) == t
  {
    if calls != [] {
      CallsKeepOnce(t, calls[..|calls| - 1]);
      CallKeepsOnce(AfterCalls(t, calls[..|calls| - 1]), calls[|calls| - 1]);
    }
  }

  lemma {:induction false} CallsAppend(t: Task, calls: seq<Call>, more: seq<Call>)
    ensures AfterCalls(t, calls + more) == AfterCalls(AfterCalls(t, calls), more)
    decreases |more|
  {
    if more == [] {
      assert calls + more == calls;
    } else {
      CallsAppend(t, calls, more[..|more| - 1]);
      assert (calls + more)[..|calls + more| - 1] == calls + more[..|more| - 1];
    }
  }

  /** Over any sequence of calls taken as atomic, a task is settled or refunded once if it is terminal
      and never otherwise, and a terminal task never changes again. */
  lemma TaskFinalisedOnce(held: int, submission: Submission, calls: seq<Call>, more: seq<Call>)
    ensures var t := AfterCalls(Created(held, submission), calls);
      && OnceIfTerminal(t) && t.held == held
      && (IsTerminal(t.status) ==> AfterCalls(Created(held, submission), calls + more) == t)
  {
    CreatedOnce(held, submission);
    CallsKeepOnce(Created(held, submission), calls);
    CallsAppend(Created(held, submission), calls, more);
    CallsKeepOnce(AfterCalls(Created(held, submission), calls), more);
  }

  /** A call finalises, alone: its own reading was not terminal and its write makes the task terminal
      with something to settle or refund. */
  predicate Finalises(seen: Task, call: Call, held: int) {
    !IsTerminal(seen.status)
    && match call
       case Get(Unknown) => false
       case Get(Polled(status, _)) => seen.routed
           && (status == "succeeded" || (held > 0 && (status == "failed" || status == "canceled")))
       case Cancel(cancellation) => held > 0 && !(seen.routed && cancellation.Refused?)
  }

  lemma WritesWhereOverlapped(row: Task, seen: Task, call: Call)
    requires OnceIfTerminal(seen) && row.held == seen.held
    ensures Writes(row, seen, call).actions
         == row.actions + if Finalises(seen, call, seen.held) then [WayOf(call)] else []
  {
  }

  /** What a finalising call does for the task. */
  function WayOf(call: Call): Action {
    if call.Get? && call.poll.Polled? && call.poll.status == "succeeded" then Settled else Refunded
  }

  /** When handlers overlap the guard is the handler's own reading. A handler reads the row after `calls`,
      others run `more` to their end, and only then does it write: it finalises the task exactly when it would
      have finalised it alone, so the task is finalised twice exactly when the others finalised it already. */
  lemma OverlapFinalisesAgainExactly(held: int, submission: Submission, calls: seq<Call>, more: seq<Call>, call: Call)
    ensures var seen := AfterCalls(Created(held, submission), calls);
      var row := AfterCalls(Created(held, submission), calls + more);
      && Writes(row, seen, call).actions == row.actions + (if Finalises(seen, call, held) then [WayOf(call)] else [])
      && (|Writes(row, seen, call).actions| == 2 <==> Finalises(seen, call, held) && row.actions != [])
  {
    var seen := AfterCalls(Created(held, submission), calls);
    var row := AfterCalls(Created(held, submission), calls + more);
    TaskFinalisedOnce(held, submission, calls, more);
    TaskFinalisedOnce(held, submission, calls + more, []);
    WritesWhereOverlapped(row, seen, call);
  }

  /** The two readings do arise: a poll that finds the task done overlaps a cancellation that the upstream
      accepts, and the hold is both settled and refunded. */
  lemma SettledAndRefunded(held: int)
    requires 0 < held
    ensures var submission, cancel := Submitted("running", true, true), Cancel(Agreed);
      var seen := AfterCalls(Created(held, submission), []);
      var row := AfterCalls(Created(held, submission), [Get(Polled("succeeded", true))]);
      Writes(row, seen, cancel).actions == [Settled, Refunded]
  {
    var submission, poll := Submitted("running", true, true), Get(Polled("succeeded", true));
    assert [poll][..0] == [] && [] + [poll] == [poll];
    OverlapFinalisesAgainExactly(held, submission, [], [poll], Cancel(Agreed));
    assert AfterCalls(Created(held, submission), [poll])
        == Writes(Created(held, submission), Created(held, submission), poll);
  }
}
