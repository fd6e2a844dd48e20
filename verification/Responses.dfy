// One response of the model: every call is checked before any of them runs
// (executeToolsWithStats and collectApprovedToolCalls, internal/agent/agent.go). What that means for
// the answers a response gets, and for plan mode when the response itself switches it.
module Responses {
  import opened Wrappers
  import Text
  import CaseFolding
  import opened PlanMode
  import opened RuntimeCommands
  import opened ToolScopes
  import GreedyCuts
  import opened Batching
  import opened Staging
  import BatchExecution

  type Slot = BatchExecution.Slot
  type Attempt = BatchExecution.Attempt

  // ---- Checking a response -----------------------------------------------------------------

  // What the hook before a call answers.
  datatype HookAnswer = Passes | Denies(message: string) | HookFails

  // A call of a response: whether it is a bash call judged dangerous, what the prompter and the
  // hook would answer, and the command line it carries if it is a runtime command.
  datatype Asked = Asked(call: ToolCall, dangerous: bool, answer: Verdict, hook: HookAnswer,
                         name: string, args: seq<string>)

  function RequestOf(a: Asked): (r: Request)
    ensures r.tool == a.call.name && r.dangerous == a.dangerous && r.answer == a.answer
  {
    Request(a.call.name, a.dangerous, a.answer)
  }

  datatype Judgement = Accepted | Declined(output: string) | Aborted

  function Judge(p: Policy, a: Asked): Judgement {
    match Decide(p, RequestOf(a))
    case PromptError => Aborted
    case Refused => Declined("permission denied for tool " + a.call.name)
    case Approved =>
      match a.hook
      case Passes => Accepted
      case Denies(message) => Declined("hook denied tool " + a.call.name + ": " + message)
      case HookFails => Aborted
  }

  predicate Aborts(p: Policy, response: seq<Asked>) {
    exists i :: 0 <= i < |response| && Judge(p, response[i]) == Aborted
  }

  // A declined call is answered at once; the others wait for their results.
  function AnswerOf(p: Policy, a: Asked): Option<Slot> {
    match Judge(p, a)
    case Declined(output) => Some(BatchExecution.Slot(a.call.id, "", output, true))
    case _ => None
  }

  function Answers(p: Policy, response: seq<Asked>): (slots: seq<Option<Slot>>)
    ensures |slots| == |response| && forall i :: 0 <= i < |slots| ==> slots[i] == AnswerOf(p, response[i])
  {
    seq(|response|, i requires 0 <= i < |response| => AnswerOf(p, response[i]))
  }

  function ApprovedOf(p: Policy, response: seq<Asked>): (approved: seq<ApprovedCall>)
    ensures forall k :: 0 <= k < |approved| ==>
      && approved[k].index < |response| && approved[k].call == response[approved[k].index].call
      && Judge(p, response[approved[k].index]) == Accepted
  {
    if response == [] then []
    else
      var n := |response| - 1;
      ApprovedOf(p, response[..n])
      + if Judge(p, response[n]) == Accepted then [ApprovedCall(response[n].call, n)] else []
  }

  lemma NextApproved(p: Policy, response: seq<Asked>, i: nat)
    requires i < |response|
    ensures ApprovedOf(p, response[..i + 1])
         == ApprovedOf(p, response[..i])
            + if Judge(p, response[i]) == Accepted then [ApprovedCall(response[i].call, i)] else []
  {
    assert response[..i + 1][..i] == response[..i];
  }

  // The body of the loop: the permission engine, then the hook.
  method JudgeCall(permission: Permission, a: Asked) returns (judgement: Judgement)
    ensures judgement == Judge(permission.CurrentPolicy(), a)
  {
    var verdict := permission.Check(RequestOf(a));
    if verdict == PromptError {
      return Aborted;
    }
    if verdict == Refused {
      return Declined("permission denied for tool " + a.call.name);
    }
    match a.hook {
      case HookFails => judgement := Aborted;
      case Denies(message) => judgement := Declined("hook denied tool " + a.call.name + ": " + message);
      case Passes => judgement := Accepted;
    }
  }

  // A prompter or a hook that fails ends the check of the whole response.
  predicate FailsCheck(p: Policy, a: Asked) {
    Decide(p, RequestOf(a)) == PromptError || (Decide(p, RequestOf(a)) == Approved && a.hook == HookFails)
  }

  predicate IsListed(approved: seq<ApprovedCall>, i: nat) {
    exists k :: 0 <= k < |approved| && approved[k].index == i
  }

  // How the check answers one call: with the engine's refusal, with the hook's, or not yet.
  predicate AnswersCheck(p: Policy, a: Asked, answer: Option<Slot>) {
    match Decide(p, RequestOf(a))
    case Refused =>
      answer == Some(BatchExecution.Slot(a.call.id, "", "permission denied for tool " + a.call.name, true))
    case Approved =>
      answer == (match a.hook
                 case Denies(message) =>
                   Some(BatchExecution.Slot(a.call.id, "", "hook denied tool " + a.call.name + ": " + message, true))
                 case _ => None)
    case PromptError => false
  }

  lemma JudgedExactly(p: Policy, a: Asked)
    ensures Judge(p, a) == Aborted <==> FailsCheck(p, a)
    ensures Judge(p, a) == Accepted <==> Decide(p, RequestOf(a)) == Approved && a.hook == Passes
    ensures !FailsCheck(p, a) ==> AnswersCheck(p, a, AnswerOf(p, a))
  {
  }

  lemma ListedExactly(p: Policy, response: seq<Asked>, i: nat)
    requires i < |response|
    ensures IsListed(ApprovedOf(p, response), i) <==>
      Decide(p, RequestOf(response[i])) == Approved && response[i].hook == Passes
  {
    ApprovedInOrder(p, response);
    JudgedExactly(p, response[i]);
  }

  // The check gives up exactly when some prompter fails, or the hook of some approved call.
  // Otherwise the calls to run are those the engine approves and the hook passes, in order; every
  // other call is answered with the refusal of the engine or of its hook.
  method CollectApprovedToolCalls(permission: Permission, response: seq<Asked>)
    returns (ok: bool, answers: seq<Option<Slot>>, approved: seq<ApprovedCall>)
    ensures ok <==> forall i :: 0 <= i < |response| ==> !FailsCheck(permission.CurrentPolicy(), response[i])
    ensures ok ==> forall i :: 0 <= i < |response| ==>
      (IsListed(approved, i) <==>
         Decide(permission.CurrentPolicy(), RequestOf(response[i])) == Approved && response[i].hook == Passes)
    ensures ok ==> forall k :: 0 <= k < |approved| ==>
      approved[k].index < |response| && approved[k].call == response[approved[k].index].call
    ensures ok ==> forall j, k :: 0 <= j < k < |approved| ==> approved[j].index < approved[k].index
    ensures ok ==> |answers| == |response| && forall i :: 0 <= i < |response| ==>
      AnswersCheck(permission.CurrentPolicy(), response[i], answers[i])
    ensures ok <==> !Aborts(permission.CurrentPolicy(), response)
    ensures ok ==> answers == Answers(permission.CurrentPolicy(), response)
    ensures ok ==> approved == ApprovedOf(permission.CurrentPolicy(), response)
  {
    ghost var p := permission.CurrentPolicy();
    forall i | 0 <= i < |response|
      ensures Judge(p, response[i]) == Aborted <==> FailsCheck(p, response[i])
      ensures !FailsCheck(p, response[i]) ==> AnswersCheck(p, response[i], AnswerOf(p, response[i]))
      ensures IsListed(ApprovedOf(p, response), i) <==>
        Decide(p, RequestOf(response[i])) == Approved && response[i].hook == Passes
    {
      JudgedExactly(p, response[i]);
      ListedExactly(p, response, i);
    }
    ApprovedInOrder(p, response);
    answers, approved, ok := [], [], true;
    for i := 0 to |response|
      invariant |answers| == i
      invariant forall k :: 0 <= k < i ==> Judge(p, response[k]) != Aborted && answers[k] == AnswerOf(p, response[k])
      invariant approved == ApprovedOf(p, response[..i])
    {
      NextApproved(p, response, i);
      var call := response[i].call;
      var judgement := JudgeCall(permission, response[i]);
      match judgement {
        case Aborted =>
          return false, [], [];
        case Declined(output) =>
          answers := answers + [Some(BatchExecution.Slot(call.id, "", output, true))];
        case Accepted =>
          answers, approved := answers + [None], approved + [ApprovedCall(call, i)];
      }
    }
    assert response[..|response|] == response;
  }

  // ---- Every call is answered --------------------------------------------------------------

  lemma {:induction false} ApprovedInOrder(p: Policy, response: seq<Asked>)
    ensures var approved := ApprovedOf(p, response);
      && (forall j, k :: 0 <= j < k < |approved| ==> approved[j].index < approved[k].index)
      && (forall i :: 0 <= i < |response| && Judge(p, response[i]) == Accepted ==>
            exists k :: 0 <= k < |approved| && approved[k].index == i)
  {
    if response != [] {
      var n := |response| - 1;
      ApprovedInOrder(p, response[..n]);
      var front, approved := ApprovedOf(p, response[..n]), ApprovedOf(p, response);
      assert forall k :: 0 <= k < |front| ==> approved[k] == front[k];
      assert Judge(p, response[n]) == Accepted ==> approved[|front|].index == n;
    }
  }

  function AttemptsOf(approved: seq<ApprovedCall>, outcomes: nat -> Attempt): (attempts: seq<Attempt>)
    ensures |attempts| == |approved|
    ensures forall k :: 0 <= k < |attempts| ==> attempts[k] == outcomes(approved[k].index)
  {
    seq(|approved|, k requires 0 <= k < |approved| => outcomes(approved[k].index))
  }

  // How a call that does not cancel its siblings is answered.
  function Answered(p: Policy, reg: Registry, response: seq<Asked>, outcomes: nat -> Attempt, i: nat): Option<Slot>
    requires i < |response|
  {
    if Judge(p, response[i]) == Accepted
    then Some(BatchExecution.SlotOf(Schedule(reg, ApprovedCall(response[i].call, i)), outcomes(i)))
    else AnswerOf(p, response[i])
  }

  lemma FilledAnswers(p: Policy, reg: Registry, response: seq<Asked>, outcomes: nat -> Attempt,
                      after: seq<Option<Slot>>)
    requires !Aborts(p, response)
    requires var approved := ApprovedOf(p, response);
      var calls, attempts := ScheduleAll(reg, approved), AttemptsOf(approved, outcomes);
      && BatchExecution.IndicesDistinct(calls, |response|) && BatchExecution.NoneCancels(calls, attempts)
      && BatchExecution.Filled(Answers(p, response), after, calls, attempts, |calls|)
    ensures |after| == |response|
    ensures forall i :: 0 <= i < |response| ==>
      after[i] == Answered(p, reg, response, outcomes, i) && after[i].Some? && after[i].value.id == response[i].call.id
  {
    var approved := ApprovedOf(p, response);
    var calls := ScheduleAll(reg, approved);
    ApprovedInOrder(p, response);
    forall i | 0 <= i < |response|
      ensures after[i] == Answered(p, reg, response, outcomes, i)
      ensures after[i].Some? && after[i].value.id == response[i].call.id
    {
      if Judge(p, response[i]) == Accepted {
        var k :| 0 <= k < |approved| && approved[k].index == i;
        assert calls[k] == Schedule(reg, approved[k]) && calls[k].approved == approved[k];
      } else {
        assert !BatchExecution.Uses(calls, i);
      }
    }
  }

  // The call at position i ends the whole response: its check fails, or it runs, cancels its
  // siblings and does not succeed.
  predicate EndsResponse(p: Policy, reg: Registry, response: seq<Asked>, outcomes: nat -> Attempt, i: nat)
    requires i < |response|
  {
    || FailsCheck(p, response[i])
    || (Decide(p, RequestOf(response[i])) == Approved && response[i].hook == Passes
        && BatchExecution.CancelsSiblings(reg, ApprovedCall(response[i].call, i))
        && !BatchExecution.Succeeds(outcomes(i).execution))
  }

  // What the call at position i is answered with: a refusal of the check, or its own result.
  predicate IsAnswered(p: Policy, reg: Registry, response: seq<Asked>, outcomes: nat -> Attempt, i: nat, slot: Slot)
    requires i < |response|
  {
    if Decide(p, RequestOf(response[i])) == Approved && response[i].hook == Passes
    then BatchExecution.Carries(slot, Schedule(reg, ApprovedCall(response[i].call, i)), outcomes(i))
    else AnswersCheck(p, response[i], Some(slot))
  }

  // The approved call at position k of the list ends the response exactly when it cancels its
  // siblings and does not succeed.
  lemma ApprovedEnds(p: Policy, reg: Registry, response: seq<Asked>, outcomes: nat -> Attempt, k: nat)
    requires k < |ApprovedOf(p, response)|
    ensures var approved := ApprovedOf(p, response);
      (BatchExecution.CancelsSiblings(reg, approved[k])
       && !BatchExecution.Succeeds(AttemptsOf(approved, outcomes)[k].execution))
      <==> EndsResponse(p, reg, response, outcomes, approved[k].index)
  {
    var ap := ApprovedOf(p, response)[k];
    assert ap == ApprovedCall(response[ap.index].call, ap.index);
    JudgedExactly(p, response[ap.index]);
  }

  lemma EndsMeans(p: Policy, reg: Registry, response: seq<Asked>, outcomes: nat -> Attempt, i: nat)
    requires i < |response| && EndsResponse(p, reg, response, outcomes, i)
    ensures var approved := ApprovedOf(p, response);
      Aborts(p, response) || !BatchExecution.AllSucceed(reg, approved, AttemptsOf(approved, outcomes))
  {
    JudgedExactly(p, response[i]);
    if !FailsCheck(p, response[i]) {
      var approved := ApprovedOf(p, response);
      ListedExactly(p, response, i);
      var k :| 0 <= k < |approved| && approved[k].index == i;
      ApprovedEnds(p, reg, response, outcomes, k);
    }
  }

  lemma SomeCallEnds(p: Policy, reg: Registry, response: seq<Asked>, outcomes: nat -> Attempt) returns (i: nat)
    requires var approved := ApprovedOf(p, response);
      Aborts(p, response) || !BatchExecution.AllSucceed(reg, approved, AttemptsOf(approved, outcomes))
    ensures i < |response| && EndsResponse(p, reg, response, outcomes, i)
  {
    if Aborts(p, response) {
      i :| i < |response| && Judge(p, response[i]) == Aborted;
      JudgedExactly(p, response[i]);
    } else {
      var approved := ApprovedOf(p, response);
      var attempts := AttemptsOf(approved, outcomes);
      var k :| 0 <= k < |approved| && BatchExecution.CancelsSiblings(reg, approved[k])
               && !BatchExecution.Succeeds(attempts[k].execution);
      ApprovedEnds(p, reg, response, outcomes, k);
      i := approved[k].index;
    }
  }

  lemma EndsExactly(p: Policy, reg: Registry, response: seq<Asked>, outcomes: nat -> Attempt)
    ensures var approved := ApprovedOf(p, response);
      (Aborts(p, response) || !BatchExecution.AllSucceed(reg, approved, AttemptsOf(approved, outcomes)))
      <==> exists i :: 0 <= i < |response| && EndsResponse(p, reg, response, outcomes, i)
  {
    var approved := ApprovedOf(p, response);
    if Aborts(p, response) || !BatchExecution.AllSucceed(reg, approved, AttemptsOf(approved, outcomes)) {
      var i := SomeCallEnds(p, reg, response, outcomes);
    } else if i :| 0 <= i < |response| && EndsResponse(p, reg, response, outcomes, i) {
      EndsMeans(p, reg, response, outcomes, i);
    }
  }

  lemma AnsweredExactly(p: Policy, reg: Registry, response: seq<Asked>, outcomes: nat -> Attempt, i: nat)
    requires i < |response| && !FailsCheck(p, response[i])
    ensures var slot := Answered(p, reg, response, outcomes, i);
      slot.Some? ==> IsAnswered(p, reg, response, outcomes, i, slot.value)
  {
    JudgedExactly(p, response[i]);
  }

  lemma AllAreAnswered(p: Policy, reg: Registry, response: seq<Asked>, outcomes: nat -> Attempt,
                       slots: seq<Option<Slot>>)
    requires !Aborts(p, response) && |slots| == |response|
    requires forall i :: 0 <= i < |response| ==> slots[i] == Answered(p, reg, response, outcomes, i) && slots[i].Some?
    ensures forall i :: 0 <= i < |response| ==> IsAnswered(p, reg, response, outcomes, i, slots[i].value)
  {
    forall i | 0 <= i < |response| ensures IsAnswered(p, reg, response, outcomes, i, slots[i].value) {
      JudgedExactly(p, response[i]);
      AnsweredExactly(p, reg, response, outcomes, i);
    }
  }

  // The approved calls of a checked response run, and their results join the answers of the check.
  method RunApproved(ghost p: Policy, reg: Registry, ghost response: seq<Asked>, collected: seq<Option<Slot>>,
                     approved: seq<ApprovedCall>, outcomes: nat -> Attempt, scheduler: (nat, nat) -> seq<nat>)
    returns (answers: Option<seq<Option<Slot>>>)
    requires forall k: nat, n: nat :: BatchExecution.IsPermutation(scheduler(k, n), n)
    requires !Aborts(p, response) && collected == Answers(p, response) && approved == ApprovedOf(p, response)
    ensures answers.None? <==> !BatchExecution.AllSucceed(reg, approved, AttemptsOf(approved, outcomes))
    ensures answers.Some? ==> |answers.value| == |response|
    ensures answers.Some? ==> forall i :: 0 <= i < |response| ==>
      && answers.value[i] == Answered(p, reg, response, outcomes, i)
      && answers.value[i].Some? && answers.value[i].value.id == response[i].call.id
  {
    var results := new Option<Slot>[|collected|](i requires 0 <= i < |collected| => collected[i]);
    assert results[..] == collected;
    ghost var calls := ScheduleAll(reg, approved);
    ApprovedInOrder(p, response);
    assert BatchExecution.IndicesDistinct(calls, |response|);
    var attempts := AttemptsOf(approved, outcomes);
    var fatal, batches, started := BatchExecution.ExecuteApprovedToolCalls(reg, approved, attempts, scheduler, results);
    if fatal.Some? {
      return None;
    }
    assert batches[..started] == batches;
    FilledAnswers(p, reg, response, outcomes, results[..]);
    answers := Some(results[..]);
  }

  // Unless the response is aborted or a call cancels its siblings, every call gets exactly one
  // answer, under its own id, in the order of the calls.
  method ExecuteTools(permission: Permission, reg: Registry, response: seq<Asked>, outcomes: nat -> Attempt,
                      scheduler: (nat, nat) -> seq<nat>)
    returns (answers: Option<seq<Option<Slot>>>)
    requires forall k: nat, n: nat :: BatchExecution.IsPermutation(scheduler(k, n), n)
    ensures answers.None? <==>
      exists i :: 0 <= i < |response| && EndsResponse(permission.CurrentPolicy(), reg, response, outcomes, i)
    ensures answers.Some? ==> |answers.value| == |response|
    ensures answers.Some? ==> forall i :: 0 <= i < |response| ==>
      && answers.value[i].Some? && answers.value[i].value.id == response[i].call.id
      && IsAnswered(permission.CurrentPolicy(), reg, response, outcomes, i, answers.value[i].value)
  {
    ghost var p := permission.CurrentPolicy();
    ghost var ends := exists i :: 0 <= i < |response| && EndsResponse(p, reg, response, outcomes, i);
    assert ends <==> (Aborts(p, response)
                      || !BatchExecution.AllSucceed(reg, ApprovedOf(p, response),
                                                    AttemptsOf(ApprovedOf(p, response), outcomes))) by {
      EndsExactly(p, reg, response, outcomes);
    }
    var ok, collected, approved := CollectApprovedToolCalls(permission, response);
    assert permission.CurrentPolicy() == p;
    if !ok {
      return None;
    }
    answers := RunApproved(p, reg, response, collected, approved, outcomes, scheduler);
    assert permission.CurrentPolicy() == p;
    if answers.Some? {
      AllAreAnswered(p, reg, response, outcomes, answers.value);
    }
  }

  // ---- What a response does to the runtime -------------------------------------------------

  function StepOf(a: Asked): Step {
    Step(RequestOf(a), a.name, a.args)
  }

  // The approved calls of a response.
  function Steps(p: Policy, response: seq<Asked>): (steps: seq<Step>)
    ensures |steps| == |ApprovedOf(p, response)|
    ensures forall k :: 0 <= k < |steps| ==> steps[k] == StepOf(response[ApprovedOf(p, response)[k].index])
  {
    var approved := ApprovedOf(p, response);
    seq(|approved|, k requires 0 <= k < |approved| => StepOf(response[approved[k].index]))
  }

  function Perform(env: Env, s: RuntimeState, steps: seq<Step>, order: seq<nat>): RuntimeState
    requires AreCalls(order, |steps|)
  {
    if order == [] then s
    else Performed(env, Perform(env, s, steps, order[..|order| - 1]), steps[order[|order| - 1]])
  }

  // /plan with an argument spelled with the long s enters plan mode.
  predicate SlipsIn(step: Step) {
    var args := NormalizeArgs(step.args);
    && step.request.tool == "runtime_command" && CommandOf(step.name) == PlanCommand
    && ReadOnly(PlanCommand, args) && LongSpelled(PlanCommand, args)
  }

  function KindOf(step: Step): Switch {
    if step.request.tool == "enter_plan_mode" || SlipsIn(step) then On
    else if step.request.tool == "exit_plan_mode" then Off
    else Neutral
  }

  function Kinds(steps: seq<Step>): (kinds: seq<Switch>)
    ensures |kinds| == |steps| && forall k :: 0 <= k < |kinds| ==> kinds[k] == KindOf(steps[k])
  {
    seq(|steps|, k requires 0 <= k < |steps| => KindOf(steps[k]))
  }

  function Switched(kind: Switch, c: Control): Control {
    match kind
    case On => Entered(c)
    case Off => Exited(c)
    case Neutral => c
  }

  lemma ToolControl(env: Env, s: RuntimeState, step: Step)
    requires step.request.tool == "runtime_command" && s.control.Some?
    ensures ExecuteTool(env, step.name, step.args, s).state.control == Some(Switched(KindOf(step), s.control.value))
  {
    var command, args := CommandOf(step.name), NormalizeArgs(step.args);
    if ReadOnly(command, args) {
      GateIsSound(env, command, args);
      CommandsChangeTheirOwn(env, command, args, s);
      if LongSpelled(command, args) && command == PlanCommand {
        PlanIsSetting(args);
        var lit := AcceptedSetting(args);
        AcceptedWord(args[0], lit);
        LongIsUndashed(args[0], lit);
        LongSpelling(args[0], s);
        assert args == [args[0]];
      }
    }
  }

  lemma StepControl(env: Env, s: RuntimeState, step: Step)
    requires s.control.Some?
    ensures Performed(env, s, step).control == Some(Switched(KindOf(step), s.control.value))
  {
    if step.request.tool == "runtime_command" {
      ToolControl(env, s, step);
    }
  }

  // From outside plan mode, the switches alone decide whether plan mode is on.
  lemma {:induction false} SwitchesDecide(env: Env, s: RuntimeState, steps: seq<Step>, order: seq<nat>)
    requires s.control.Some? && !s.control.value.active && s.control.value.mode != Plan
    requires AreCalls(order, |steps|)
    ensures var control, t := s.control.value, Perform(env, s, steps, order);
      t.control.Some? && if IsOn(Kinds(steps), order) then t.control.value == Control(Plan, true, control.mode)
                         else !t.control.value.active && t.control.value.mode == control.mode
  {
    if order != [] {
      var front := order[..|order| - 1];
      SwitchesDecide(env, s, steps, front);
      StepControl(env, Perform(env, s, steps, front), steps[order[|order| - 1]]);
    }
  }

  // In plan mode a response gets only calls approved that plan mode allows, whatever else it asks
  // for.
  lemma ApprovedInPlanMode(p: Policy, response: seq<Asked>, k: nat)
    requires p.mode == Plan && k < |Steps(p, response)|
    ensures PlanAllows(p, Steps(p, response)[k].request)
  {
    var a := response[ApprovedOf(p, response)[k].index];
    assert Judge(p, a) == Accepted;
    assert Decide(p, RequestOf(a)) == Approved;
  }

  // The batches of a response's approved calls.
  predicate AreBatches(reg: Registry, p: Policy, response: seq<Asked>, batches: seq<seq<ScheduledCall>>) {
    GreedyCuts.IsCut(CanRunTogether, batches, ScheduleAll(reg, ApprovedOf(p, response)))
  }

  // The approved call at position i can run while plan mode is on: in some order that respects
  // the batches, plan mode is on right before it.
  ghost predicate CanRunInPlanMode(env: Env, s: RuntimeState, steps: seq<Step>, stage: seq<nat>, i: nat) {
    exists order :: AreCalls(order, |steps|) && IsOrder(stage, order + [i]) && InPlanMode(Perform(env, s, steps, order))
  }

  // When a call that plan mode does not allow can run in plan mode, exactly: another approved
  // call of the same response enters plan mode, it starts no later, and no exit lies in a batch
  // strictly between the two.
  lemma EscapesExactly(env: Env, reg: Registry, sys: System, response: seq<Asked>, batches: seq<seq<ScheduledCall>>,
                       i: nat)
    requires sys.runtime.control.Some?
    requires var control := sys.runtime.control.value; control.active ==> control.mode == Plan
    requires AreBatches(reg, PolicyOf(sys), response, batches)
    requires i < |Steps(PolicyOf(sys), response)|
    requires !PlanAllows(PolicyOf(sys), Steps(PolicyOf(sys), response)[i].request)
    ensures var steps, stage := Steps(PolicyOf(sys), response), StagesOf(batches);
      CanRunInPlanMode(env, sys.runtime, steps, stage, i) <==>
        exists j: nat :: SwitchesOnFor(stage, Kinds(steps), j, i)
  {
    var steps, stage := Steps(PolicyOf(sys), response), StagesOf(batches);
    if sys.runtime.control.value.mode == Plan {
      ApprovedInPlanMode(PolicyOf(sys), response, i);
    }
    forall order | AreCalls(order, |steps|)
      ensures InPlanMode(Perform(env, sys.runtime, steps, order)) <==> IsOn(Kinds(steps), order)
    {
      SwitchesDecide(env, sys.runtime, steps, order);
    }
    MeetsExactly(stage, Kinds(steps), i);
    forall order | AreCalls(order, |steps|)
      ensures Meets(stage, Kinds(steps), order, i) <==>
        IsOrder(stage, order + [i]) && InPlanMode(Perform(env, sys.runtime, steps, order))
    {
    }
  }

  // ---- Confinement -------------------------------------------------------------------------

  predicate Exits(step: Step) {
    step.request.tool == "exit_plan_mode"
  }

  lemma {:induction false} PerformConfined(env: Env, s: RuntimeState, steps: seq<Step>, order: seq<nat>)
    requires InPlanMode(s) && AreCalls(order, |steps|) && forall k :: 0 <= k < |steps| ==> !Exits(steps[k])
    ensures var t := Perform(env, s, steps, order);
      && t == s.(model := t.model)
      && ((forall k :: 0 <= k < |steps| ==> !Leaks(steps[k])) ==> t == s)
  {
    if order != [] {
      var front := order[..|order| - 1];
      PerformConfined(env, s, steps, front);
      PlanModeStep(env, Perform(env, s, steps, front), steps[order[|order| - 1]]);
    }
  }

  // One response: nothing if it is aborted, and otherwise its approved calls in any order, perhaps
  // not all of them.
  ghost predicate Follows(env: Env, before: System, response: seq<Asked>, after: System)
    requires before.runtime.control.Some?
  {
    var steps := Steps(PolicyOf(before), response);
    || after == before
    || (!Aborts(PolicyOf(before), response)
        && exists order :: AreCalls(order, |steps|)
                           && after == before.(runtime := Perform(env, before.runtime, steps, order)))
  }

  predicate Plain(a: Asked) {
    a.call.name != "exit_plan_mode"
  }

  predicate AllPlain(response: seq<Asked>) {
    forall i :: 0 <= i < |response| ==> Plain(response[i])
  }

  predicate LeaksNothing(response: seq<Asked>) {
    forall i :: 0 <= i < |response| ==> !Leaks(StepOf(response[i]))
  }

  // Nothing but the model differs.
  predicate OnlyModelDiffers(a: System, b: System) {
    b == a.(runtime := a.runtime.(model := b.runtime.model))
  }

  lemma ResponseConfined(env: Env, before: System, response: seq<Asked>, after: System)
    requires InPlanMode(before.runtime) && AllPlain(response)
    requires Follows(env, before, response, after)
    ensures OnlyModelDiffers(before, after)
    ensures LeaksNothing(response) ==> after == before
  {
    var steps := Steps(PolicyOf(before), response);
    if after != before {
      var order :| AreCalls(order, |steps|) && after == before.(runtime := Perform(env, before.runtime, steps, order));
      forall k | 0 <= k < |steps| ensures !Exits(steps[k]) && (LeaksNothing(response) ==> !Leaks(steps[k])) {
        assert Plain(response[ApprovedOf(PolicyOf(before), response)[k].index]);
      }
      PerformConfined(env, before.runtime, steps, order);
    }
  }

  // The states a run of responses passes through.
  ghost predicate IsRun(env: Env, states: seq<System>, responses: seq<seq<Asked>>) {
    && |states| == |responses| + 1
    && forall k :: 0 <= k < |responses| ==>
         states[k].runtime.control.Some? && Follows(env, states[k], responses[k], states[k + 1])
  }

  lemma ApprovedThere(before: System, now: System, response: seq<Asked>)
    requires InPlanMode(before.runtime) && OnlyModelDiffers(before, now)
    ensures forall k :: 0 <= k < |Steps(PolicyOf(now), response)| ==>
      PlanAllows(PolicyOf(before), Steps(PolicyOf(now), response)[k].request)
  {
    assert PolicyOf(now) == PolicyOf(before);
    forall k | 0 <= k < |Steps(PolicyOf(now), response)|
      ensures PlanAllows(PolicyOf(before), Steps(PolicyOf(now), response)[k].request)
    {
      ApprovedInPlanMode(PolicyOf(now), response, k);
    }
  }

  lemma StaysConfined(env: Env, first: System, before: System, response: seq<Asked>, after: System)
    requires InPlanMode(first.runtime) && OnlyModelDiffers(first, before)
    requires AllPlain(response) && Follows(env, before, response, after)
    ensures OnlyModelDiffers(first, after) && (LeaksNothing(response) ==> after == before)
  {
    ResponseConfined(env, before, response, after);
  }

  // Whole-run confinement: in plan mode, until exit_plan_mode is asked for, no run of responses,
  // whatever the order of their calls, changes any setting but the model, nor the model unless
  // one of the calls leaks. Every call approved on the way is one plan mode allows.
  lemma {:induction false} PlanModeHolds(env: Env, states: seq<System>, responses: seq<seq<Asked>>, n: nat)
    requires IsRun(env, states, responses) && InPlanMode(states[0].runtime) && n <= |responses|
    requires forall k :: 0 <= k < |responses| ==> AllPlain(responses[k])
    ensures OnlyModelDiffers(states[0], states[n])
    ensures (forall k :: 0 <= k < n ==> LeaksNothing(responses[k])) ==> states[n] == states[0]
    ensures n < |responses| ==> forall k :: 0 <= k < |Steps(PolicyOf(states[n]), responses[n])| ==>
      PlanAllows(PolicyOf(states[0]), Steps(PolicyOf(states[n]), responses[n])[k].request)
  {
    if n > 0 {
      PlanModeHolds(env, states, responses, n - 1);
      StaysConfined(env, states[0], states[n - 1], responses[n - 1], states[n]);
    }
    if n < |responses| {
      ApprovedThere(states[0], states[n], responses[n]);
    }
  }

  // ---- Entering and editing in one response ------------------------------------------------

  lemma TwoApproved(p: Policy, a: Asked, b: Asked)
    requires Judge(p, a) == Accepted && Judge(p, b) == Accepted
    ensures ApprovedOf(p, [a, b]) == [ApprovedCall(a.call, 0), ApprovedCall(b.call, 1)]
    ensures Steps(p, [a, b]) == [StepOf(a), StepOf(b)]
  {
    assert [a, b][..1] == [a] && [a][..0] == [];
    assert ApprovedOf(p, [a]) == [ApprovedCall(a.call, 0)];
  }

  lemma EditIsNotReadOnly()
    ensures !IsReadOnly("edit_file")
  {
  }

  lemma EnterAndEditAreAccepted(p: Policy, enter: Asked, edit: Asked)
    requires p == Policy([], [], false, DefaultMode) && enter.hook == Passes && edit.hook == Passes
    requires enter.call.name == "enter_plan_mode" && edit.call.name == "edit_file"
    ensures Judge(p, enter) == Accepted && Judge(p, edit) == Accepted && !PlanAllows(p, RequestOf(edit))
  {
    EditIsNotReadOnly();
  }

  lemma EnterThenEditKinds(enter: Asked, edit: Asked)
    requires enter.call.name == "enter_plan_mode" && edit.call.name == "edit_file"
    ensures Kinds([StepOf(enter), StepOf(edit)]) == [On, Neutral]
  {
  }

  // A response that enters plan mode and then edits a file: without a prompter both calls are
  // approved in default mode, and the edit can run in plan mode, which does not allow it.
  lemma EnterThenEdit(env: Env, reg: Registry, sys: System, enter: Asked, edit: Asked,
                      batches: seq<seq<ScheduledCall>>)
    requires sys.runtime.control == Some(Control(DefaultMode, false, DefaultMode))
    requires sys.allowList == [] && sys.denyList == [] && !sys.hasPrompter
    requires enter.call.name == "enter_plan_mode" && edit.call.name == "edit_file"
    requires enter.hook == Passes && edit.hook == Passes
    requires AreBatches(reg, PolicyOf(sys), [enter, edit], batches)
    ensures Steps(PolicyOf(sys), [enter, edit]) == [StepOf(enter), StepOf(edit)]
    ensures !PlanAllows(PolicyOf(sys), RequestOf(edit))
    ensures CanRunInPlanMode(env, sys.runtime, [StepOf(enter), StepOf(edit)], StagesOf(batches), 1)
  {
    var stage := StagesOf(batches);
    EnterAndEditAreAccepted(PolicyOf(sys), enter, edit);
    TwoApproved(PolicyOf(sys), enter, edit);
    EnterThenEditKinds(enter, edit);
    EscapesExactly(env, reg, sys, [enter, edit], batches, 1);
    assert stage[0] <= stage[1];
    assert SwitchesOnFor(stage, Kinds([StepOf(enter), StepOf(edit)]), 0, 1);
  }

  // ---- Tools that work outside their scope -------------------------------------------------

  // How enter_plan_mode and exit_plan_mode are registered: not concurrency-safe, with an empty
  // scope.
  ghost predicate IsPlanTool(tool: Tool) {
    forall input :: !tool.concurrencySafe(input) && tool.scope(input) == ToolScope([], [], false, false)
  }

  // They run beside each other, and beside every call whose scope is not conservative.
  lemma PlanToolsShareBatches(reg: Registry, a: ApprovedCall, call: ScheduledCall)
    requires a.call.name in reg && IsPlanTool(reg[a.call.name]) && !IsConservativeScope(call.scope)
    ensures CanRunTogether(Schedule(reg, a), call)
  {
  }

  // Yet their order shows: entering and leaving plan mode do not commute, in any state.
  lemma PlanToolsDoNotCommute(c: Control)
    ensures Exited(Entered(c)) != Entered(Exited(c))
  {
  }

  lemma SlashPlan()
    ensures CommandOf("/plan") == PlanCommand
  {
    Text.TrimSpaceTrims("/plan");
  }

  lemma LongStatusStays(arg: string)
    requires arg == [CaseFolding.LONG_S] + "tatus"
    ensures NormalizeArgs([arg]) == [arg] && LongSpelled(PlanCommand, [arg])
  {
    Text.TrimSpaceTrims(arg);
    assert [arg][..0] == [] && arg[0] == CaseFolding.LONG_S;
  }

  // runtime_command is registered as concurrency-safe, and yet can write.
  lemma RuntimeCommandCanWrite(env: Env, arg: string)
    requires arg == [CaseFolding.LONG_S] + "tatus"
    ensures exists s :: ExecuteTool(env, "/plan", [arg], s).state != s
  {
    LongStatusEscapes(env, arg);
    SlashPlan();
    LongStatusStays(arg);
    ToolIsHarmlessExactly(env, "/plan", [arg]);
  }
}
