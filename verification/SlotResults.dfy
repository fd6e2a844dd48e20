// The result slots of a whole run of the scheduler: what the interleaved calls leave in them is
// what running the approved list one call at a time leaves (internal/agent/executor.go).
module SlotResults {
  import opened Wrappers
  import opened GreedyCuts
  import opened Batching
  import opened BatchExecution
  import opened Interleaving

  // What the output of a finished call amounts to: the tool's result or error, then the hooks and
  // the finalizer.
  type Answer = string -> Attempt

  function OutputOf(procs: seq<Process>, c: Config, i: nat): string
    requires i < |procs| == |c.histories| && Finished(procs, c, i)
  {
    procs[i](c.histories[i]).output
  }

  function AttemptsOf(procs: seq<Process>, answers: seq<Answer>, c: Config): (attempts: seq<Attempt>)
    requires |procs| == |c.histories| == |answers| && AllFinished(procs, c)
    ensures |attempts| == |procs|
  {
    seq(|procs|, i requires 0 <= i < |procs| => answers[i](OutputOf(procs, c, i)))
  }

  // One call after another, each filling its slot.
  function FillInOrder(slots: seq<Option<Slot>>, calls: seq<ScheduledCall>, attempts: seq<Attempt>)
    : (out: seq<Option<Slot>>)
    requires |attempts| == |calls| && forall i :: 0 <= i < |calls| ==> calls[i].approved.index < |slots|
    ensures |out| == |slots|
  {
    if calls == [] then slots
    else
      var n := |calls| - 1;
      var front := FillInOrder(slots, calls[..n], attempts[..n]);
      if Cancels(calls[n], attempts[n]) then front
      else front[calls[n].approved.index := Some(SlotOf(calls[n], attempts[n]))]
  }

  lemma FillOneMore(slots: seq<Option<Slot>>, front: seq<Option<Slot>>, calls: seq<ScheduledCall>,
                    attempts: seq<Attempt>, n: nat)
    requires |attempts| == |calls| == n + 1 && IndicesDistinct(calls, |slots|)
    requires Filled(slots, front, calls[..n], attempts[..n], n)
    ensures var index := calls[n].approved.index;
      var out := if Cancels(calls[n], attempts[n]) then front else front[index := Some(SlotOf(calls[n], attempts[n]))];
      Filled(slots, out, calls, attempts, n + 1)
  {
    var index := calls[n].approved.index;
    assert forall i :: 0 <= i < n ==> calls[..n][i] == calls[i] && attempts[..n][i] == attempts[i];
    assert !Uses(calls[..n], index);
    forall x | 0 <= x < |slots| && !Uses(calls, x) ensures !Uses(calls[..n], x) && x != index {
      assert calls[n].approved.index == index;
    }
  }

  lemma {:induction false} FillInOrderFills(slots: seq<Option<Slot>>, calls: seq<ScheduledCall>, attempts: seq<Attempt>)
    requires |attempts| == |calls| && IndicesDistinct(calls, |slots|)
    ensures Filled(slots, FillInOrder(slots, calls, attempts), calls, attempts, |calls|)
  {
    if calls != [] {
      var n := |calls| - 1;
      FillInOrderFills(slots, calls[..n], attempts[..n]);
      FillOneMore(slots, FillInOrder(slots, calls[..n], attempts[..n]), calls, attempts, n);
    }
  }

  // Every interleaving fills the slots a sequential run fills. Take any interleaving of the
  // batches in which every call finishes and none asks for its siblings to be cancelled, and the
  // slots it leaves. Running the list one call at a time, in order, each call to its end, leaves
  // the same slots.
  lemma InterleavingFillsSequentialSlots(
    procs: seq<Process>, calls: seq<ScheduledCall>, answers: seq<Answer>, start: Config,
    batches: seq<seq<ScheduledCall>>, schedules: seq<seq<nat>>, fuel: nat -> nat,
    before: seq<Option<Slot>>, after: seq<Option<Slot>>)
    requires |procs| == |calls| == |answers| == |start.histories|
    requires forall i :: 0 <= i < |procs| ==> Confined(procs[i], calls[i])
    requires IsCut(CanRunTogether, batches, calls) && IsRun(batches, schedules, 0)
    requires IndicesDistinct(calls, |before|)
    requires Within(Flatten(schedules), 0, |procs|) && AllFinished(procs, Exec(procs, start, Flatten(schedules)))
    requires NoneCancels(calls, AttemptsOf(procs, answers, Exec(procs, start, Flatten(schedules))))
    requires Filled(before, after, calls, AttemptsOf(procs, answers, Exec(procs, start, Flatten(schedules))), |calls|)
    requires IsSequentialRun(procs, start, 0, fuel)
    ensures var end := OneByOne(procs, start, 0, fuel);
      && AllFinished(procs, end) && NoneCancels(calls, AttemptsOf(procs, answers, end))
      && after == FillInOrder(before, calls, AttemptsOf(procs, answers, end))
  {
    RunIsSerializable(procs, calls, start, batches, schedules);
    var attempts := AttemptsOf(procs, answers, OneByOne(procs, start, 0, fuel));
    FillInOrderFills(before, calls, attempts);
    FilledIsUnique(before, after, FillInOrder(before, calls, attempts), calls, attempts, |calls|);
  }

  // In particular neither the interleaving nor the cut shows in the slots.
  lemma InterleavingsFillTheSameSlots(
    procs: seq<Process>, calls: seq<ScheduledCall>, answers: seq<Answer>, start: Config,
    batchesA: seq<seq<ScheduledCall>>, schedulesA: seq<seq<nat>>,
    batchesB: seq<seq<ScheduledCall>>, schedulesB: seq<seq<nat>>,
    before: seq<Option<Slot>>, afterA: seq<Option<Slot>>, afterB: seq<Option<Slot>>)
    requires |procs| == |calls| == |answers| == |start.histories|
    requires forall i :: 0 <= i < |procs| ==> Confined(procs[i], calls[i])
    requires IsCut(CanRunTogether, batchesA, calls) && IsRun(batchesA, schedulesA, 0)
    requires IsCut(CanRunTogether, batchesB, calls) && IsRun(batchesB, schedulesB, 0)
    requires IndicesDistinct(calls, |before|)
    requires Within(Flatten(schedulesA), 0, |procs|) && AllFinished(procs, Exec(procs, start, Flatten(schedulesA)))
    requires Within(Flatten(schedulesB), 0, |procs|) && AllFinished(procs, Exec(procs, start, Flatten(schedulesB)))
    requires NoneCancels(calls, AttemptsOf(procs, answers, Exec(procs, start, Flatten(schedulesA))))
    requires Filled(before, afterA, calls, AttemptsOf(procs, answers, Exec(procs, start, Flatten(schedulesA))), |calls|)
    requires Filled(before, afterB, calls, AttemptsOf(procs, answers, Exec(procs, start, Flatten(schedulesB))), |calls|)
    ensures NoneCancels(calls, AttemptsOf(procs, answers, Exec(procs, start, Flatten(schedulesB)))) && afterA == afterB
  {
    RunIsSerializable(procs, calls, start, batchesA, schedulesA);
    RunIsSerializable(procs, calls, start, batchesB, schedulesB);
    var fuel :| IsSequentialRun(procs, start, 0, fuel);
    var attempts := AttemptsOf(procs, answers, OneByOne(procs, start, 0, fuel));
    FilledIsUnique(before, afterA, afterB, calls, attempts, |calls|);
  }
}
