// Cutting an approved list of tool calls into batches that may run in parallel
// (partitionToolCalls and canRunTogether, internal/agent/executor.go).
module Batching {
  import opened ToolScopes
  import opened GreedyCuts

  datatype ToolCall = ToolCall(id: string, name: string, input: string)

  datatype ApprovedCall = ApprovedCall(call: ToolCall, index: nat)

  // What the scheduler asks of a registered tool.
  datatype Tool = Tool(concurrencySafe: string -> bool, scope: string -> ToolScope, cancelSiblings: bool)

  type Registry = map<string, Tool>

  datatype ScheduledCall = ScheduledCall(approved: ApprovedCall, safe: bool, scope: ToolScope, cancelOnErr: bool)

  // An unregistered name is scheduled as unsafe with the conservative scope.
  function Schedule(reg: Registry, ap: ApprovedCall): ScheduledCall {
    if ap.call.name in reg then
      var tool := reg[ap.call.name];
      ScheduledCall(ap, tool.concurrencySafe(ap.call.input), tool.scope(ap.call.input), tool.cancelSiblings)
    else
      ScheduledCall(ap, false, ConservativeScope(), false)
  }

  function ScheduleAll(reg: Registry, approved: seq<ApprovedCall>): (calls: seq<ScheduledCall>)
    ensures |calls| == |approved|
    ensures forall i :: 0 <= i < |calls| ==> calls[i].approved == approved[i]
  {
    seq(|approved|, i requires 0 <= i < |approved| => Schedule(reg, approved[i]))
  }

  predicate CanRunTogether(a: ScheduledCall, b: ScheduledCall) {
    if a.safe && b.safe then true else ScopeDisjoint(a.scope, b.scope)
  }

  // The batches concatenate to the list, every batch is pairwise compatible, each closes only
  // when the next call cannot join, and no contiguous compatible cut has fewer batches.
  method PartitionToolCalls(reg: Registry, approved: seq<ApprovedCall>) returns (batches: seq<seq<ScheduledCall>>)
    ensures IsGreedyCut(CanRunTogether, batches, ScheduleAll(reg, approved))
    ensures forall cut :: IsCut(CanRunTogether, cut, ScheduleAll(reg, approved)) ==> |batches| <= |cut|
  {
    ghost var calls := ScheduleAll(reg, approved);
    batches := [];
    var current: seq<ScheduledCall> := [];
    for i := 0 to |approved|
      invariant Building(CanRunTogether, batches, current, calls[..i])
    {
      var call := Schedule(reg, approved[i]);
      assert calls[..i + 1] == calls[..i] + [call];
      if current == [] || CanJoin(CanRunTogether, call, current) {
        CallJoins(CanRunTogether, batches, current, calls[..i], call);
        current := current + [call];
      } else {
        CallStartsBatch(CanRunTogether, batches, current, calls[..i], call);
        batches := batches + [current];
        current := [call];
      }
    }
    assert calls[..|approved|] == calls;
    LastBatchCloses(CanRunTogether, batches, current, calls);
    if current != [] {
      batches := batches + [current];
    }
    GreedyIsOptimal(CanRunTogether, batches, calls);
  }

  lemma CanRunTogetherSymmetric(a: ScheduledCall, b: ScheduledCall)
    ensures CanRunTogether(a, b) == CanRunTogether(b, a)
  {
    ScopeDisjointSymmetric(a.scope, b.scope);
  }

  // Two approved calls may share a batch exactly when both tools are known and declare the call
  // safe to run beside others, or both are known, neither scope is conservative, and nothing
  // that one may write may be touched by the other.
  lemma RunTogetherExactly(reg: Registry, a: ApprovedCall, b: ApprovedCall)
    ensures CanRunTogether(Schedule(reg, a), Schedule(reg, b)) <==>
      (&& a.call.name in reg && b.call.name in reg
       && var s, t := reg[a.call.name], reg[b.call.name];
          var x, y := s.scope(a.call.input), t.scope(b.call.input);
          || (s.concurrencySafe(a.call.input) && t.concurrencySafe(b.call.input))
          || (!IsConservativeScope(x) && !IsConservativeScope(y) && Separate(x, y)))
  {
    ScopeDisjointExactly(Schedule(reg, a).scope, Schedule(reg, b).scope);
  }

  // What is remembered of a call: its place, and whether its failure cancels the batch.
  lemma ScheduleKeepsCall(reg: Registry, ap: ApprovedCall)
    ensures Schedule(reg, ap).approved == ap
    ensures Schedule(reg, ap).cancelOnErr <==> ap.call.name in reg && reg[ap.call.name].cancelSiblings
  {
  }

  // A call that is not concurrency-safe and claims to touch everything is always alone.
  lemma ConservativeCallRunsAlone(batch: seq<ScheduledCall>, i: nat)
    requires Compatible(CanRunTogether, batch) && i < |batch|
    requires !batch[i].safe && IsConservativeScope(batch[i].scope)
    ensures |batch| == 1
  {
    assert i > 0 ==> CanRunTogether(batch[i], batch[0]);
    assert i == 0 && |batch| > 1 ==> CanRunTogether(batch[1], batch[0]);
  }

  lemma {:induction false} MembersAreScheduled(batches: seq<seq<ScheduledCall>>, k: nat, i: nat)
    requires k < |batches| && i < |batches[k]|
    ensures batches[k][i] in Flatten(batches)
  {
    if k > 0 {
      MembersAreScheduled(batches[1..], k - 1, i);
    }
  }

  // A call to a tool the registry does not know always runs alone.
  lemma UnregisteredCallRunsAlone(reg: Registry, approved: seq<ApprovedCall>, batches: seq<seq<ScheduledCall>>,
                                  k: nat, i: nat)
    requires IsCut(CanRunTogether, batches, ScheduleAll(reg, approved))
    requires k < |batches| && i < |batches[k]| && batches[k][i].approved.call.name !in reg
    ensures |batches[k]| == 1
  {
    MembersAreScheduled(batches, k, i);
    var j :| 0 <= j < |approved| && ScheduleAll(reg, approved)[j] == batches[k][i];
    assert batches[k][i] == Schedule(reg, approved[j]);
    ConservativeCallRunsAlone(batches[k], i);
  }
}
