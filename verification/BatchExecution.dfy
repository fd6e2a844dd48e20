// Collecting the results of one run (executeApprovedToolCalls and executeToolBatch,
// internal/agent/executor.go): which slots are filled, with what, and which error wins.
// What the tools, hooks and the finalizer do, and the order in which the members of a batch
// finish, are arbitrary inputs.
module BatchExecution {
  import opened Wrappers
  import Text
  import opened GreedyCuts
  import opened Batching

  datatype ToolResult = ToolResult(output: string, isError: bool)

  datatype Execution =
    | ExecutionError(message: string)
    | Returned(result: Option<ToolResult>)

  // postHooks may rewrite the result of a call that did not cancel its siblings.
  datatype Attempt = Attempt(execution: Execution, postHooks: ToolResult -> ToolResult, finalizerError: Option<string>)

  datatype Slot = Slot(id: string, name: string, output: string, isError: bool)

  datatype FatalError = FatalError(name: string, message: string)

  function ErrorResult(message: string): ToolResult {
    ToolResult(message, true)
  }

  function ResultOf(e: Execution): ToolResult {
    match e
    case ExecutionError(message) => ErrorResult(message)
    case Returned(result) => result.GetOr(ErrorResult("tool returned nil result"))
  }

  // A failing call whose tool asks for its siblings to be cancelled.
  predicate Cancels(call: ScheduledCall, attempt: Attempt) {
    call.cancelOnErr && (attempt.execution.ExecutionError? || ResultOf(attempt.execution).isError)
  }

  function FatalOf(call: ScheduledCall, attempt: Attempt): FatalError {
    var message :=
      match attempt.execution
      case ExecutionError(text) => text
      case Returned(_) =>
        var text := Text.TrimSpace(ResultOf(attempt.execution).output);
        if text == "" then "tool returned error" else text;
    FatalError(call.approved.call.name, message)
  }

  // The tool returned a result, and no error result.
  predicate Succeeds(e: Execution) {
    e.Returned? && e.result.Some? && !e.result.value.isError
  }

  // The message of a failure: the error's own text, or what an error result says.
  predicate FailsWith(e: Execution, message: string) {
    match e
    case ExecutionError(text) => message == text
    case Returned(None) => message == "tool returned nil result"
    case Returned(Some(result)) =>
      var text := Text.TrimSpace(result.output);
      result.isError && message == if text == "" then "tool returned error" else text
  }

  lemma CancelsExactly(call: ScheduledCall, attempt: Attempt)
    ensures Cancels(call, attempt) <==> call.cancelOnErr && !Succeeds(attempt.execution)
    ensures Cancels(call, attempt) ==>
      (FatalOf(call, attempt).name == call.approved.call.name
       && FailsWith(attempt.execution, FatalOf(call, attempt).message))
  {
    Text.TrimSpaceTrims("tool returned nil result");
  }

  function SlotOf(call: ScheduledCall, attempt: Attempt): Slot {
    var hooked := attempt.postHooks(ResultOf(attempt.execution));
    var final :=
      match attempt.finalizerError
      case None => hooked
      case Some(text) => ErrorResult("tool result finalizer error: " + text);
    Slot(call.approved.call.id, call.approved.call.name, final.output, final.isError)
  }

  // The slot of a call: its id, its name, and what the finalizer and the hooks leave of its result.
  predicate Carries(slot: Slot, call: ScheduledCall, attempt: Attempt) {
    && slot.id == call.approved.call.id && slot.name == call.approved.call.name
    && match attempt.finalizerError
       case Some(text) => slot.isError && slot.output == "tool result finalizer error: " + text
       case None =>
         var final :=
           match attempt.execution
           case ExecutionError(message) => attempt.postHooks(ToolResult(message, true))
           case Returned(None) => attempt.postHooks(ToolResult("tool returned nil result", true))
           case Returned(Some(result)) => attempt.postHooks(result);
         slot.output == final.output && slot.isError == final.isError
  }

  // A finishing order of n goroutines.
  predicate IsPermutation(order: seq<nat>, n: nat) {
    && |order| == n
    && (forall k :: 0 <= k < n ==> order[k] < n)
    && (forall k, m :: 0 <= k < m < n ==> order[k] != order[m])
    && (forall i :: 0 <= i < n ==> i in order)
  }

  predicate IndicesDistinct(calls: seq<ScheduledCall>, n: nat) {
    && (forall i :: 0 <= i < |calls| ==> calls[i].approved.index < n)
    && (forall i, j :: 0 <= i < j < |calls| ==> calls[i].approved.index != calls[j].approved.index)
  }

  predicate FirstToCancel(batch: seq<ScheduledCall>, attempts: seq<Attempt>, order: seq<nat>, k: int)
    requires |attempts| == |batch| && IsPermutation(order, |batch|)
  {
    && 0 <= k < |order| && Cancels(batch[order[k]], attempts[order[k]])
    && forall m :: 0 <= m < k ==> !Cancels(batch[order[m]], attempts[order[m]])
  }

  predicate NoneCancels(calls: seq<ScheduledCall>, attempts: seq<Attempt>)
    requires |attempts| == |calls|
  {
    forall i :: 0 <= i < |calls| ==> !Cancels(calls[i], attempts[i])
  }

  function Outcome(call: ScheduledCall, attempt: Attempt, ran: bool, before: Option<Slot>): Option<Slot> {
    if ran && !Cancels(call, attempt) then Some(SlotOf(call, attempt)) else before
  }

  predicate Uses(calls: seq<ScheduledCall>, x: nat) {
    exists i :: 0 <= i < |calls| && calls[i].approved.index == x
  }

  // The slots after the first `reached` calls have run: each of them that did not cancel holds
  // its own result, and every other slot is as it was.
  predicate Filled(before: seq<Option<Slot>>, after: seq<Option<Slot>>,
                   calls: seq<ScheduledCall>, attempts: seq<Attempt>, reached: nat)
    requires |attempts| == |calls| && IndicesDistinct(calls, |before|)
  {
    && |after| == |before|
    && (forall i :: 0 <= i < |calls| ==>
          after[calls[i].approved.index]
          == Outcome(calls[i], attempts[i], i < reached, before[calls[i].approved.index]))
    && (forall x :: 0 <= x < |before| && !Uses(calls, x) ==> after[x] == before[x])
  }

  lemma SlotsDiffer(batch: seq<ScheduledCall>, order: seq<nat>, n: nat)
    requires IsPermutation(order, |batch|) && IndicesDistinct(batch, n)
    ensures forall k, m :: 0 <= k < |order| && 0 <= m < |order| && k != m ==>
      batch[order[k]].approved.index != batch[order[m]].approved.index
  {
  }

  // The results of a batch, taken in finishing order.
  method CollectResults(batch: seq<ScheduledCall>, attempts: seq<Attempt>, order: seq<nat>,
                        results: array<Option<Slot>>)
    returns (fatal: Option<FatalError>)
    requires |attempts| == |batch| && IsPermutation(order, |batch|)
    requires IndicesDistinct(batch, results.Length)
    modifies results
    ensures Filled(old(results[..]), results[..], batch, attempts, |batch|)
    ensures fatal.None? <==> NoneCancels(batch, attempts)
    ensures fatal.Some? ==> exists k :: (FirstToCancel(batch, attempts, order, k)
                                         && fatal.value == FatalOf(batch[order[k]], attempts[order[k]]))
  {
    fatal := None;
    ghost var first := 0;
    ghost var before := results[..];
    SlotsDiffer(batch, order, results.Length);
    for k := 0 to |order|
      invariant forall m :: 0 <= m < |order| ==>
        (results[batch[order[m]].approved.index]
         == Outcome(batch[order[m]], attempts[order[m]], m < k, before[batch[order[m]].approved.index]))
      invariant forall x :: 0 <= x < results.Length && !Uses(batch, x) ==> results[x] == before[x]
      invariant fatal.None? ==> forall m :: 0 <= m < k ==> !Cancels(batch[order[m]], attempts[order[m]])
      invariant fatal.Some? ==> (FirstToCancel(batch, attempts, order, first)
                                 && fatal.value == FatalOf(batch[order[first]], attempts[order[first]]))
    {
      var call, attempt := batch[order[k]], attempts[order[k]];
      if Cancels(call, attempt) {
        if fatal.None? {
          first := k;
          fatal := Some(FatalOf(call, attempt));
        }
      } else {
        results[call.approved.index] := Some(SlotOf(call, attempt));
      }
    }
    forall i | 0 <= i < |batch|
      ensures results[batch[i].approved.index] == Outcome(batch[i], attempts[i], true, before[batch[i].approved.index])
      ensures fatal.None? ==> !Cancels(batch[i], attempts[i])
    {
      assert i in order;
      var m :| 0 <= m < |order| && order[m] == i;
    }
  }

  // The call that finishes k-th fails and cancels its siblings, with this error; those that finish
  // before it do not.
  predicate FailsFirst(batch: seq<ScheduledCall>, attempts: seq<Attempt>, order: seq<nat>, k: nat, error: FatalError)
    requires |attempts| == |batch| && IsPermutation(order, |batch|) && k < |order|
  {
    && batch[order[k]].cancelOnErr && !Succeeds(attempts[order[k]].execution)
    && error.name == batch[order[k]].approved.call.name && FailsWith(attempts[order[k]].execution, error.message)
    && forall m :: 0 <= m < k && batch[order[m]].cancelOnErr ==> Succeeds(attempts[order[m]].execution)
  }

  // One batch. Every call that does not cancel fills exactly its own slot; a fatal error is
  // that of the first call, in finishing order, that cancels. There is none exactly when every
  // call that asks for its siblings to be cancelled succeeds.
  method ExecuteToolBatch(batch: seq<ScheduledCall>, attempts: seq<Attempt>, order: seq<nat>,
                          results: array<Option<Slot>>)
    returns (fatal: Option<FatalError>)
    requires |attempts| == |batch| && IsPermutation(order, |batch|)
    requires IndicesDistinct(batch, results.Length)
    modifies results
    ensures Filled(old(results[..]), results[..], batch, attempts, |batch|)
    ensures fatal.None? <==> NoneCancels(batch, attempts)
    ensures fatal.Some? ==> exists k :: (FirstToCancel(batch, attempts, order, k)
                                         && fatal.value == FatalOf(batch[order[k]], attempts[order[k]]))
    ensures fatal.None? <==>
      forall i :: 0 <= i < |batch| && batch[i].cancelOnErr ==> Succeeds(attempts[i].execution)
    ensures fatal.Some? ==> exists k :: 0 <= k < |order| && FailsFirst(batch, attempts, order, k, fatal.value)
    ensures forall i :: 0 <= i < |batch| && (batch[i].cancelOnErr ==> Succeeds(attempts[i].execution)) ==>
      (results[batch[i].approved.index].Some?
       && Carries(results[batch[i].approved.index].value, batch[i], attempts[i]))
  {
    forall i | 0 <= i < |batch| ensures Cancels(batch[i], attempts[i])
      <==> batch[i].cancelOnErr && !Succeeds(attempts[i].execution)
      ensures Cancels(batch[i], attempts[i]) ==>
        (FatalOf(batch[i], attempts[i]).name == batch[i].approved.call.name
         && FailsWith(attempts[i].execution, FatalOf(batch[i], attempts[i]).message))
    {
      CancelsExactly(batch[i], attempts[i]);
    }
    fatal := CollectResults(batch, attempts, order, results);
    if fatal.Some? {
      ghost var k :| FirstToCancel(batch, attempts, order, k)
                     && fatal.value == FatalOf(batch[order[k]], attempts[order[k]]);
      assert FailsFirst(batch, attempts, order, k, fatal.value);
    }
  }

  // The error belongs to a call in lo..hi, and no call before lo cancelled.
  predicate ErrorOfBatch(calls: seq<ScheduledCall>, attempts: seq<Attempt>, lo: nat, hi: nat, error: FatalError)
    requires |attempts| == |calls|
  {
    && lo <= hi <= |calls|
    && (exists i :: lo <= i < hi && Cancels(calls[i], attempts[i]) && error == FatalOf(calls[i], attempts[i]))
    && forall i :: 0 <= i < lo ==> !Cancels(calls[i], attempts[i])
  }

  lemma SliceDistinct(calls: seq<ScheduledCall>, lo: nat, hi: nat, n: nat)
    requires lo <= hi <= |calls| && IndicesDistinct(calls, n)
    ensures IndicesDistinct(calls[lo..hi], n)
  {
  }

  lemma ExtendNone(calls: seq<ScheduledCall>, attempts: seq<Attempt>, lo: nat, hi: nat)
    requires |attempts| == |calls| && lo <= hi <= |calls|
    requires NoneCancels(calls[..lo], attempts[..lo]) && NoneCancels(calls[lo..hi], attempts[lo..hi])
    ensures NoneCancels(calls[..hi], attempts[..hi])
  {
  }

  lemma OthersUnused(calls: seq<ScheduledCall>, lo: nat, hi: nat, i: nat, n: nat)
    requires lo <= hi <= |calls| && i < |calls| && !(lo <= i < hi)
    requires IndicesDistinct(calls, n)
    ensures !Uses(calls[lo..hi], calls[i].approved.index)
  {
  }

  lemma FilledFurther(before: seq<Option<Slot>>, mid: seq<Option<Slot>>, after: seq<Option<Slot>>,
                      calls: seq<ScheduledCall>, attempts: seq<Attempt>, lo: nat, hi: nat)
    requires |attempts| == |calls| && IndicesDistinct(calls, |before|) && lo <= hi <= |calls|
    requires Filled(before, mid, calls, attempts, lo)
    requires Filled(mid, after, calls[lo..hi], attempts[lo..hi], hi - lo)
    ensures Filled(before, after, calls, attempts, hi)
  {
    var batch := calls[lo..hi];
    forall i | 0 <= i < |calls|
      ensures after[calls[i].approved.index]
           == Outcome(calls[i], attempts[i], i < hi, before[calls[i].approved.index])
    {
      if lo <= i < hi {
        assert batch[i - lo] == calls[i] && attempts[lo..hi][i - lo] == attempts[i];
      } else {
        OthersUnused(calls, lo, hi, i, |before|);
      }
    }
    forall x | 0 <= x < |before| && !Uses(calls, x) ensures !Uses(batch, x) {
      assert forall j :: 0 <= j < |batch| ==> batch[j] == calls[lo + j];
    }
  }

  lemma FirstErrorInRange(calls: seq<ScheduledCall>, attempts: seq<Attempt>, lo: nat, hi: nat,
                          order: seq<nat>, error: FatalError)
    requires |attempts| == |calls| && lo <= hi <= |calls|
    requires IsPermutation(order, hi - lo)
    requires NoneCancels(calls[..lo], attempts[..lo])
    requires exists k :: (FirstToCancel(calls[lo..hi], attempts[lo..hi], order, k)
                          && error == FatalOf(calls[lo..hi][order[k]], attempts[lo..hi][order[k]]))
    ensures ErrorOfBatch(calls, attempts, lo, hi, error)
  {
  }

  // One batch in its place in the whole list: calls lo..hi.
  method ExecuteInPlace(calls: seq<ScheduledCall>, attempts: seq<Attempt>, lo: nat, hi: nat, order: seq<nat>,
                        results: array<Option<Slot>>, ghost before: seq<Option<Slot>>)
    returns (fatal: Option<FatalError>)
    requires |attempts| == |calls| && lo <= hi <= |calls|
    requires IsPermutation(order, hi - lo)
    requires |before| == results.Length && IndicesDistinct(calls, |before|)
    requires Filled(before, results[..], calls, attempts, lo)
    requires NoneCancels(calls[..lo], attempts[..lo])
    modifies results
    ensures Filled(before, results[..], calls, attempts, hi)
    ensures fatal.None? ==> NoneCancels(calls[..hi], attempts[..hi])
    ensures fatal.Some? ==> ErrorOfBatch(calls, attempts, lo, hi, fatal.value)
  {
    SliceDistinct(calls, lo, hi, results.Length);
    ghost var mid := results[..];
    fatal := ExecuteToolBatch(calls[lo..hi], attempts[lo..hi], order, results);
    FilledFurther(before, mid, results[..], calls, attempts, lo, hi);
    if fatal.Some? {
      FirstErrorInRange(calls, attempts, lo, hi, order, fatal.value);
    } else {
      ExtendNone(calls, attempts, lo, hi);
    }
  }

  lemma BatchInPlace<T>(cut: seq<seq<T>>, calls: seq<T>, k: nat)
    requires k < |cut| && Flatten(cut) == calls
    ensures var lo := |Flatten(cut[..k])|;
      && lo + |cut[k]| <= |calls|
      && calls[lo..lo + |cut[k]|] == cut[k]
      && |Flatten(cut[..k + 1])| == lo + |cut[k]|
  {
    assert cut[..k + 1] == cut[..k] + [cut[k]];
    FlattenSnoc(cut[..k], cut[k]);
    assert cut == cut[..k + 1] + cut[k + 1..];
    FlattenConcat(cut[..k + 1], cut[k + 1..]);
  }

  // The tool asks for its siblings to be cancelled when it fails.
  predicate CancelsSiblings(reg: Registry, ap: ApprovedCall) {
    ap.call.name in reg && reg[ap.call.name].cancelSiblings
  }

  predicate AllSucceed(reg: Registry, approved: seq<ApprovedCall>, attempts: seq<Attempt>)
    requires |attempts| == |approved|
  {
    forall k :: 0 <= k < |approved| && CancelsSiblings(reg, approved[k]) ==> Succeeds(attempts[k].execution)
  }

  lemma NoneCancelsExactly(reg: Registry, approved: seq<ApprovedCall>, attempts: seq<Attempt>)
    requires |attempts| == |approved|
    ensures NoneCancels(ScheduleAll(reg, approved), attempts) <==> AllSucceed(reg, approved, attempts)
  {
    var calls := ScheduleAll(reg, approved);
    forall k | 0 <= k < |approved|
      ensures Cancels(calls[k], attempts[k]) <==>
        CancelsSiblings(reg, approved[k]) && !Succeeds(attempts[k].execution)
    {
      assert calls[k] == Schedule(reg, approved[k]);
      CancelsExactly(calls[k], attempts[k]);
    }
  }

  lemma ErrorIsOfApproved(reg: Registry, approved: seq<ApprovedCall>, attempts: seq<Attempt>, lo: nat, hi: nat,
                          error: FatalError)
    requires |attempts| == |approved| && ErrorOfBatch(ScheduleAll(reg, approved), attempts, lo, hi, error)
    ensures !AllSucceed(reg, approved, attempts)
    ensures exists k :: 0 <= k < |approved| && CancelsSiblings(reg, approved[k])
                        && error.name == approved[k].call.name && FailsWith(attempts[k].execution, error.message)
  {
    var calls := ScheduleAll(reg, approved);
    FatalErrorNamesItsCall(calls, attempts, lo, hi, error);
    var k :| lo <= k < hi && calls[k].cancelOnErr && !Succeeds(attempts[k].execution)
             && error.name == calls[k].approved.call.name && FailsWith(attempts[k].execution, error.message);
    assert calls[k] == Schedule(reg, approved[k]) && CancelsSiblings(reg, approved[k]);
  }

  // The batches of the list, one after another, up to the first that ends with an error.
  method ExecuteBatches(reg: Registry, approved: seq<ApprovedCall>, attempts: seq<Attempt>,
                        scheduler: (nat, nat) -> seq<nat>, results: array<Option<Slot>>)
    returns (fatal: Option<FatalError>, ghost batches: seq<seq<ScheduledCall>>, ghost started: nat)
    requires |attempts| == |approved|
    requires forall k: nat, n: nat :: IsPermutation(scheduler(k, n), n)
    requires IndicesDistinct(ScheduleAll(reg, approved), results.Length)
    modifies results
    ensures IsGreedyCut(CanRunTogether, batches, ScheduleAll(reg, approved)) && started <= |batches|
    ensures Filled(old(results[..]), results[..], ScheduleAll(reg, approved), attempts, |Flatten(batches[..started])|)
    ensures fatal.None? ==> started == |batches| && NoneCancels(ScheduleAll(reg, approved), attempts)
    ensures fatal.Some? ==> (started > 0 && ErrorOfBatch(ScheduleAll(reg, approved), attempts,
      |Flatten(batches[..started - 1])|, |Flatten(batches[..started])|, fatal.value))
  {
    var cut := PartitionToolCalls(reg, approved);
    ghost var calls := ScheduleAll(reg, approved);
    ghost var before := results[..];
    assert Flatten(cut) == calls;
    var all := Flatten(cut);
    batches, started, fatal := cut, 0, None;
    var k, lo := 0, 0;
    while k < |cut|
      invariant k == started <= |cut| && fatal.None?
      invariant lo == |Flatten(cut[..k])| <= |calls|
      invariant NoneCancels(calls[..lo], attempts[..lo])
      invariant Filled(before, results[..], calls, attempts, lo)
      decreases |cut| - k
    {
      var hi := lo + |cut[k]|;
      BatchInPlace(cut, calls, k);
      fatal := ExecuteInPlace(all, attempts, lo, hi, scheduler(k, |cut[k]|), results, before);
      k, started := k + 1, started + 1;
      if fatal.Some? {
        return;
      }
      lo := hi;
    }
    assert cut[..k] == cut && calls[..lo] == calls && attempts[..lo] == attempts;
  }

  // The whole approved list. The calls that ran are those of the batches that started.
  // Without a fatal error that is all of them. With one, the error comes from a member of the
  // last batch that started and no slot of a later batch is touched.
  method ExecuteApprovedToolCalls(reg: Registry, approved: seq<ApprovedCall>, attempts: seq<Attempt>,
                                  scheduler: (nat, nat) -> seq<nat>, results: array<Option<Slot>>)
    returns (fatal: Option<FatalError>, ghost batches: seq<seq<ScheduledCall>>, ghost started: nat)
    requires |attempts| == |approved|
    requires forall k: nat, n: nat :: IsPermutation(scheduler(k, n), n)
    requires IndicesDistinct(ScheduleAll(reg, approved), results.Length)
    modifies results
    ensures IsGreedyCut(CanRunTogether, batches, ScheduleAll(reg, approved)) && started <= |batches|
    ensures Filled(old(results[..]), results[..], ScheduleAll(reg, approved), attempts, |Flatten(batches[..started])|)
    ensures fatal.None? ==> started == |batches| && NoneCancels(ScheduleAll(reg, approved), attempts)
    ensures fatal.Some? ==> (started > 0 && ErrorOfBatch(ScheduleAll(reg, approved), attempts,
      |Flatten(batches[..started - 1])|, |Flatten(batches[..started])|, fatal.value))
    ensures fatal.None? <==> AllSucceed(reg, approved, attempts)
    ensures fatal.Some? ==> exists k :: 0 <= k < |approved| && CancelsSiblings(reg, approved[k])
                                        && fatal.value.name == approved[k].call.name
                                        && FailsWith(attempts[k].execution, fatal.value.message)
  {
    fatal, batches, started := ExecuteBatches(reg, approved, attempts, scheduler, results);
    NoneCancelsExactly(reg, approved, attempts);
    if fatal.Some? {
      ErrorIsOfApproved(reg, approved, attempts, |Flatten(batches[..started - 1])|, |Flatten(batches[..started])|,
                        fatal.value);
    }
  }

  // Filled slots are determined by the calls and their attempts.
  lemma FilledIsUnique(before: seq<Option<Slot>>, a: seq<Option<Slot>>, b: seq<Option<Slot>>,
                       calls: seq<ScheduledCall>, attempts: seq<Attempt>, reached: nat)
    requires |attempts| == |calls| && IndicesDistinct(calls, |before|)
    requires Filled(before, a, calls, attempts, reached) && Filled(before, b, calls, attempts, reached)
    ensures a == b
  {
  }

  // Every call that ran and did not cancel holds its own slot: its id, its name, and what the
  // hooks made of its result, its error or its missing result, unless the finalizer failed.
  lemma SlotsCarryTheirCalls(before: seq<Option<Slot>>, after: seq<Option<Slot>>,
                             calls: seq<ScheduledCall>, attempts: seq<Attempt>, reached: nat, i: nat)
    requires |attempts| == |calls| && IndicesDistinct(calls, |before|)
    requires Filled(before, after, calls, attempts, reached)
    requires i < reached <= |calls| && (calls[i].cancelOnErr ==> Succeeds(attempts[i].execution))
    ensures var slot := after[calls[i].approved.index];
      slot.Some? && Carries(slot.value, calls[i], attempts[i])
  {
  }

  // A fatal error names a call that asks for its siblings to be cancelled and failed, and says how
  // it failed.
  lemma FatalErrorNamesItsCall(calls: seq<ScheduledCall>, attempts: seq<Attempt>, lo: nat, hi: nat, error: FatalError)
    requires |attempts| == |calls| && ErrorOfBatch(calls, attempts, lo, hi, error)
    ensures exists i :: lo <= i < hi && calls[i].cancelOnErr && !Succeeds(attempts[i].execution)
                        && error.name == calls[i].approved.call.name
                        && FailsWith(attempts[i].execution, error.message)
  {
    var i :| lo <= i < hi && Cancels(calls[i], attempts[i]) && error == FatalOf(calls[i], attempts[i]);
    CancelsExactly(calls[i], attempts[i]);
  }
}
