// The bounded correction loop (cmd/elnath/runtime_completion_retry.go). The results of the
// workflow, of the verification executor and of the changed-file snapshots are arbitrary inputs,
// one turn per attempt.
module RetryLoop {
  import opened Wrappers
  import Text
  import opened CaseFolding
  import opened ScopePaths
  import opened CompletionSummary
  import opened Iteration

  const MAX_COMPLETION_RETRY_ATTEMPTS := 2

  // The configured number of attempts, as the runtime clamps it.
  function RetryMax(enabled: bool, observeOnly: bool, configured: int): nat {
    if !enabled || observeOnly || configured < 0 then 0
    else if configured > MAX_COMPLETION_RETRY_ATTEMPTS then MAX_COMPLETION_RETRY_ATTEMPTS
    else configured
  }

  datatype Execution = ExecutionError | Executed(isError: bool)

  // What the outside world answers during one attempt. run is None on a workflow error; a
  // workflow may also return no result.
  datatype Turn = Turn(run: Option<Option<RunResult>>, before: Snapshot, after: Snapshot, execution: Execution)

  datatype World = World(lens: Lens, cfg: Config, canEscalate: bool, hasWorkflow: bool, hasExecutor: bool,
                         max: nat, turns: nat -> Turn)

  datatype State = State(result: Option<RunResult>, summary: Summary)

  // ---- Effort escalation -------------------------------------------------------------------

  const MANUAL := "manual"

  datatype Escalation = Escalation(level: string, reason: string)

  function EscalatedEffort(canEscalate: bool, effort: Effort): Option<Escalation> {
    if EqualFold(Text.TrimSpace(effort.mode), MANUAL) || !canEscalate then None
    else
      var level := Text.TrimSpace(effort.level);
      if ToLower(level) == "xhigh" then Some(Escalation("xhigh", "correction_retry_preserve_xhigh"))
      else if ToLower(level) == "high" then Some(Escalation("xhigh", "correction_retry_escalation"))
      else Some(Escalation("high", "correction_retry_escalation"))
  }

  // ---- Outcomes of an attempt --------------------------------------------------------------

  predicate FamilyFailsClosed(family: Family) {
    family.Warned? && FailsClosed(family.warning)
  }

  function FailedSummary(s: Summary, family: Family, attempt: nat): Summary {
    var entry := Entry(attempt, s.plan.decision, s.plan.reason, Failed, family, "", NoWarning, [], []);
    s.(correction := Correction(true, attempt, s.plan.decision, s.plan.reason, Failed, family,
                                s.correction.log + [entry]),
       plan := if FamilyFailsClosed(family) then NO_PLAN else s.plan)
  }

  // A skipped attempt is logged but does not count as attempted.
  function SkippedSummary(s: Summary, family: Family, attempt: nat): Summary {
    var entry := Entry(attempt, s.plan.decision, s.plan.reason, Skipped, family, s.verification.command, NoWarning,
                       [], []);
    s.(correction := s.correction.(decision := s.plan.decision, reason := s.plan.reason, status := Skipped,
                                   family := family, log := s.correction.log + [entry]))
  }

  function WithRetryFiles(s: Summary, changed: seq<string>): Summary {
    if NormalizeScopePaths(changed) == [] then s
    else
      var scope := WithChangedFiles(s.edits.scope, changed);
      s.(edits := s.edits.(scope := scope), warning := if scope.outOfScope != [] then ScopeDrift else s.warning)
  }

  // ---- A retry with a smaller scope --------------------------------------------------------

  function RetryConfig(cfg: Config, escalation: Option<Escalation>): Config {
    if escalation.None? then cfg else cfg.(effort := escalation.value.level, effortMode := MANUAL)
  }

  // The retry is told of a verification hint when there was one, or when verification was at issue.
  predicate RetryHint(s: Summary) {
    s.hint || s.verification.observed.Some?
  }

  function JudgeStatus(warning: Warning, attempt: nat, max: nat): (Status, Family) {
    if warning == NoWarning then (Succeeded, NoFamily)
    else if FailsClosed(warning) then (Failed, Warned(warning))
    else if attempt >= max then (Failed, WarningUnresolved)
    else (Retrying, NoFamily)
  }

  // The fresh summary t of an attempt, judged and logged.
  function Judged(s: Summary, t: Summary, escalation: Option<Escalation>, attempt: nat, changed: seq<string>): Summary {
    var (status, family) := JudgeStatus(t.warning, attempt, s.maxAttempts);
    var entry := Entry(attempt, s.plan.decision, s.plan.reason, status, family, "", t.warning, changed,
                       t.edits.scope.outOfScope);
    t.(effort := if escalation.Some? then Effort(escalation.value.level, MANUAL, escalation.value.reason) else t.effort,
       plan := if FailsClosed(t.warning) then NO_PLAN else t.plan,
       maxAttempts := s.maxAttempts,
       correction := Correction(true, attempt, s.plan.decision, s.plan.reason, status, family,
                                s.correction.log + [entry]))
  }

  ghost function RetriedSummary(w: World, s: Summary, attempt: nat, result: Option<RunResult>,
                                changed: seq<string>): Summary {
    var escalation := EscalatedEffort(w.canEscalate, s.effort);
    var t := WithRetryFiles(Summarize(w.lens, RetryHint(s), RetryConfig(w.cfg, escalation), result), changed);
    Judged(s, t, escalation, attempt, changed)
  }

  ghost function SmallerScope(w: World, st: State, attempt: nat): State {
    var turn := w.turns(attempt);
    if !w.hasWorkflow then State(st.result, SkippedSummary(st.summary, MissingWorkflow, attempt))
    else if turn.run.None? then State(st.result, FailedSummary(st.summary, WorkflowError, attempt))
    else State(turn.run.value,
               RetriedSummary(w, st.summary, attempt, turn.run.value, ChangedFilesDelta(turn.before, turn.after)))
  }

  // Judging and logging, field by field.
  method JudgeRetry(s: Summary, made: Summary, escalation: Option<Escalation>, attempt: nat, changed: seq<string>)
    returns (t: Summary)
    ensures t == Judged(s, made, escalation, attempt, changed)
  {
    t := made;
    var correction := Correction(true, attempt, s.plan.decision, s.plan.reason, NoStatus, NoFamily, []);
    if t.warning != NoWarning {
      if FailsClosed(t.warning) {
        correction := correction.(status := Failed, family := Warned(t.warning));
        t := t.(plan := NO_PLAN);
      } else if attempt >= s.maxAttempts {
        correction := correction.(status := Failed, family := WarningUnresolved);
      } else {
        correction := correction.(status := Retrying);
      }
    } else {
      correction := correction.(status := Succeeded);
    }
    if escalation.Some? {
      t := t.(effort := Effort(escalation.value.level, MANUAL, escalation.value.reason));
    }
    var entry := Entry(attempt, s.plan.decision, s.plan.reason, correction.status, correction.family, "", t.warning,
                       changed, t.edits.scope.outOfScope);
    correction := correction.(log := s.correction.log + [entry]);
    t := t.(maxAttempts := s.maxAttempts, correction := correction);
  }

  method RunSmallerScopeCompletionRetry(w: World, st: State, attempt: nat) returns (next: State)
    requires w.hasWorkflow
    ensures next == SmallerScope(w, st, attempt)
  {
    var s, turn := st.summary, w.turns(attempt);
    var cfg := w.cfg;
    var escalation := EscalatedEffort(w.canEscalate, s.effort);
    if escalation.Some? {
      cfg := cfg.(effort := escalation.value.level, effortMode := MANUAL);
    }
    var changed := CompletionChangedFilesDelta(turn.before, turn.after);
    if turn.run.None? {
      return State(st.result, FailedSummary(s, WorkflowError, attempt));
    }
    var made := SummarizeCompletionContract(w.lens, RetryHint(s), cfg, turn.run.value);
    var judged := JudgeRetry(s, WithRetryFiles(made, changed), escalation, attempt, changed);
    next := State(turn.run.value, judged);
  }

  // ---- A verification attempt --------------------------------------------------------------

  function ObservedSummary(w: World, s: Summary, command: string): Summary {
    var (kind, ownership) := Classify(w.lens.looksBroad, command, w.cfg.policy);
    s.(verification := Verification(Some(true), command, kind, ownership))
  }

  function VerifiedSummary(s: Summary, command: string, attempt: nat): Summary {
    var entry := Entry(attempt, s.plan.decision, s.plan.reason, Succeeded, NoFamily, command, NoWarning, [], []);
    s.(correction := s.correction.(attempted := true, attempts := attempt, decision := s.plan.decision,
                                   reason := s.plan.reason, status := Succeeded, log := s.correction.log + [entry]),
       plan := NO_PLAN)
  }

  function Verify(w: World, st: State, attempt: nat): State
    requires st.result.Some?
  {
    var command := st.result.value.explicitCommand;
    if command == "" then State(st.result, SkippedSummary(st.summary, MissingCommand, attempt))
    else
      var s := ObservedSummary(w, st.summary, command);
      var outcome :=
        if !w.hasExecutor then SkippedSummary(s, MissingExecutor, attempt)
        else
          match w.turns(attempt).execution
          case ExecutionError => FailedSummary(s, ExecutorError, attempt)
          case Executed(isError) =>
            var warning := FailureWarning(s.verification.kind, s.verification.ownership);
            if isError then FailedSummary(s, Warned(warning), attempt)
            else VerifiedSummary(s, command, attempt);
      State(st.result, outcome)
  }

  method RunVerificationCompletionRetry(w: World, st: State, attempt: nat) returns (next: State)
    requires st.result.Some?
    ensures next == Verify(w, st, attempt)
  {
    var command := st.result.value.explicitCommand;
    if command == "" {
      return State(st.result, SkippedSummary(st.summary, MissingCommand, attempt));
    }
    var summary := ObservedSummary(w, st.summary, command);
    if !w.hasExecutor {
      return State(st.result, SkippedSummary(summary, MissingExecutor, attempt));
    }
    var execution := w.turns(attempt).execution;
    if execution.ExecutionError? {
      return State(st.result, FailedSummary(summary, ExecutorError, attempt));
    }
    if execution.isError {
      var warning := FailureWarning(summary.verification.kind, summary.verification.ownership);
      return State(st.result, FailedSummary(summary, Warned(warning), attempt));
    }
    var correction := summary.correction.(attempted := true, attempts := attempt, decision := summary.plan.decision,
                                          reason := summary.plan.reason, status := Succeeded);
    var entry := Entry(attempt, summary.plan.decision, summary.plan.reason, correction.status, NoFamily, command,
                       NoWarning, [], []);
    correction := correction.(log := summary.correction.log + [entry]);
    next := State(st.result, summary.(correction := correction, plan := NO_PLAN));
  }

  // ---- The loop ----------------------------------------------------------------------------

  predicate HasPlan(s: Summary) {
    s.plan.decision != NoDecision
  }

  predicate Ended(s: Summary) {
    s.correction.status == Failed || s.correction.status == Skipped
  }

  // After n < max attempts, whether the loop is over.
  predicate Stops(st: State, n: nat) {
    !HasPlan(st.summary) || (n > 0 && Ended(st.summary))
  }

  function Capped(w: World, s: Summary): Summary {
    s.(maxAttempts := w.max)
  }

  // Attempt n + 1. A state with a plan has a result to start from, as RetryRuns.RunIsReachable shows.
  ghost function Attempt(w: World, st: State, n: nat): State {
    var begun := st.(summary := Capped(w, st.summary));
    if st.summary.plan.decision == RetrySmallerScope then SmallerScope(w, begun, n + 1)
    else if st.result.Some? then Verify(w, begun, n + 1)
    else st
  }

  ghost function Attempts(w: World): (State, nat) -> State {
    (st: State, n: nat) => Attempt(w, st, n)
  }

  // All states the loop passes through, the first before any attempt, the last its result.
  ghost function Run(w: World, st: State, n: nat): seq<State> {
    Iterate(Stops, Attempts(w), st, n, w.max)
  }

  // The summary the loop starts from.
  function Started(w: World, s: Summary): Summary {
    if HasPlan(s) then Capped(w, s) else s
  }

  // The body of the loop up to its status test.
  method RunAttempt(w: World, st: State, attempt: nat) returns (next: State)
    requires attempt > 0 && HasPlan(st.summary) && st.result.Some?
    ensures next == Attempt(w, st, attempt - 1)
    ensures HasPlan(next.summary) ==> next.result.Some?
  {
    var current := st.(summary := st.summary.(maxAttempts := w.max));
    match current.summary.plan.decision {
      case RetrySmallerScope =>
        if !w.hasWorkflow {
          return State(current.result, SkippedSummary(current.summary, MissingWorkflow, attempt));
        }
        next := RunSmallerScopeCompletionRetry(w, current, attempt);
      case RunVerification =>
        next := RunVerificationCompletionRetry(w, current, attempt);
    }
  }

  // Where the loop ends up.
  ghost function Final(w: World, st: State, n: nat): State {
    Last(Run(w, st, n))
  }

  lemma FinalUnfolds(w: World, st: State, n: nat, next: State)
    ensures Stops(st, n) || n >= w.max ==> Final(w, st, n) == st
    ensures !Stops(st, n) && n < w.max && next == Attempt(w, st, n) ==> Final(w, st, n) == Final(w, next, n + 1)
  {
    LastOfIterate(Stops, Attempts(w), st, n, w.max);
    if next == Attempt(w, st, n) {
      assert next == Attempts(w)(st, n);
    }
  }

  method RunAttempts(w: World, start: State) returns (current: State)
    requires start.result.Some?
    ensures current == Final(w, start, 0)
  {
    current := start;
    var attempts := 0;
    while HasPlan(current.summary) && attempts < w.max
      invariant HasPlan(current.summary) ==> current.result.Some?
      invariant attempts > 0 ==> !Ended(current.summary)
      invariant Final(w, current, attempts) == Final(w, start, 0)
      decreases w.max - attempts
    {
      var next := RunAttempt(w, current, attempts + 1);
      FinalUnfolds(w, current, attempts, next);
      attempts := attempts + 1;
      current := next;
      if Ended(current.summary) {
        FinalUnfolds(w, current, attempts, current);
        return;
      }
    }
    FinalUnfolds(w, current, attempts, current);
  }

  method MaybeRunCompletionRetry(w: World, result: Option<RunResult>, summary: Summary) returns (out: State)
    ensures w.max == 0 || result.None? ==> out == State(result, summary)
    ensures w.max > 0 && result.Some? ==> out == Final(w, State(result, Started(w, summary)), 0)
  {
    if w.max == 0 || result.None? {
      return State(result, summary);
    }
    var current := State(result, if HasPlan(summary) then summary.(maxAttempts := w.max) else summary);
    out := RunAttempts(w, current);
  }
}
