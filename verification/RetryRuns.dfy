// What every run of the correction loop keeps.
module RetryRuns {
  import opened Wrappers
  import opened Text
  import opened CaseFolding
  import ScopePaths
  import opened CompletionSummary
  import opened Iteration
  import opened RetryLoop

  // ---- One attempt -------------------------------------------------------------------------

  predicate EndedStatus(status: Status) {
    status == Failed || status == Skipped
  }

  // After n attempts the log is numbered 1..n, ends with the current status, and only its last
  // entry can be failed or skipped.
  predicate LogIsSound(s: Summary, n: nat) {
    var log := s.correction.log;
    && |log| == n
    && (forall i :: 0 <= i < n ==> log[i].attempt == i + 1)
    && (forall i :: 0 <= i < n - 1 ==> !EndedStatus(log[i].status))
    && (n > 0 ==> log[n - 1].status == s.correction.status)
  }

  // The plan is none, or the one read off the summary.
  predicate IsPlanned(s: Summary) {
    s.plan == NO_PLAN || s.plan == RetryPlan(s.userInputRequired, s.warning, s.verification.observed)
  }

  // Drift and broad or harness failures leave no plan.
  predicate IsFailClosed(s: Summary) {
    && (s.edits.scope.outOfScope != [] ==> s.warning == ScopeDrift)
    && (FailsClosed(s.warning) ==> s.plan == NO_PLAN)
  }

  // A retrying status is either about to be acted on or waits for the user.
  predicate IsNotDangling(s: Summary, n: nat, max: nat) {
    s.correction.status == Retrying ==> n < max && (HasPlan(s) || s.userInputRequired)
  }

  predicate Sound(s: Summary, n: nat, max: nat) {
    LogIsSound(s, n) && (!Ended(s) ==> IsPlanned(s)) && IsFailClosed(s) && IsNotDangling(s, n, max)
  }

  lemma LogGrows(s: Summary, t: Summary, n: nat, entry: Entry)
    requires LogIsSound(s, n) && (n > 0 ==> !Ended(s))
    requires t.correction.log == s.correction.log + [entry] && entry.attempt == n + 1
    requires entry.status == t.correction.status
    ensures LogIsSound(t, n + 1)
  {
  }

  // What a summary must keep for an attempt to start from it.
  predicate CanStart(s: Summary, n: nat) {
    LogIsSound(s, n) && (n > 0 ==> !Ended(s)) && IsFailClosed(s)
  }

  lemma FailedIsSound(s: Summary, family: Family, n: nat, max: nat)
    requires CanStart(s, n)
    ensures Sound(FailedSummary(s, family, n + 1), n + 1, max)
  {
    var t := FailedSummary(s, family, n + 1);
    LogGrows(s, t, n, t.correction.log[n]);
  }

  lemma SkippedIsSound(s: Summary, family: Family, n: nat, max: nat)
    requires CanStart(s, n)
    ensures Sound(SkippedSummary(s, family, n + 1), n + 1, max)
  {
    var t := SkippedSummary(s, family, n + 1);
    LogGrows(s, t, n, t.correction.log[n]);
  }

  lemma VerifiedIsSound(s: Summary, command: string, n: nat, max: nat)
    requires CanStart(s, n)
    ensures Sound(VerifiedSummary(s, command, n + 1), n + 1, max)
  {
    var t := VerifiedSummary(s, command, n + 1);
    LogGrows(s, t, n, t.correction.log[n]);
  }

  // A fresh summary is planned and fails closed.
  lemma SummaryIsPlanned(lens: Lens, hint: bool, cfg: Config, result: Option<RunResult>)
    ensures var s := Summarize(lens, hint, cfg, result);
      && s.plan == RetryPlan(s.userInputRequired, s.warning, s.verification.observed)
      && IsFailClosed(s) && s.correction == NO_CORRECTION
      && (result.None? ==> s.plan == NO_PLAN)
  {
  }

  // Adding changed files keeps that, once drift has cleared the plan.
  lemma FilesKeepPlan(s: Summary, changed: seq<string>)
    requires s.plan == RetryPlan(s.userInputRequired, s.warning, s.verification.observed) && IsFailClosed(s)
    ensures var t := WithRetryFiles(s, changed);
      && (t.edits.scope.outOfScope != [] ==> t.warning == ScopeDrift)
      && t.plan == s.plan && t.userInputRequired == s.userInputRequired && t.verification == s.verification
      && (t.warning == s.warning || t.warning == ScopeDrift)
  {
  }

  lemma JudgedIsSound(s: Summary, t: Summary, escalation: Option<Escalation>, n: nat, max: nat, changed: seq<string>)
    requires CanStart(s, n) && s.maxAttempts == max && n < max
    requires t.edits.scope.outOfScope != [] ==> t.warning == ScopeDrift
    requires FailsClosed(t.warning) || t.plan == RetryPlan(t.userInputRequired, t.warning, t.verification.observed)
    ensures Sound(Judged(s, t, escalation, n + 1, changed), n + 1, max)
  {
    var u := Judged(s, t, escalation, n + 1, changed);
    LogGrows(s, u, n, u.correction.log[n]);
  }

  lemma RetriedIsSound(w: World, s: Summary, n: nat, result: Option<RunResult>, changed: seq<string>)
    requires CanStart(s, n) && s.maxAttempts == w.max && n < w.max
    ensures Sound(RetriedSummary(w, s, n + 1, result, changed), n + 1, w.max)
  {
    var escalation := EscalatedEffort(w.canEscalate, s.effort);
    var made := Summarize(w.lens, RetryHint(s), RetryConfig(w.cfg, escalation), result);
    SummaryIsPlanned(w.lens, RetryHint(s), RetryConfig(w.cfg, escalation), result);
    FilesKeepPlan(made, changed);
    JudgedIsSound(s, WithRetryFiles(made, changed), escalation, n, w.max, changed);
  }

  lemma VerifyIsSound(w: World, st: State, n: nat)
    requires st.result.Some? && CanStart(st.summary, n)
    ensures Sound(Verify(w, st, n + 1).summary, n + 1, w.max)
  {
    var command := st.result.value.explicitCommand;
    var s := ObservedSummary(w, st.summary, command);
    var turn := w.turns(n + 1);
    if command == "" {
      SkippedIsSound(st.summary, MissingCommand, n, w.max);
    } else if !w.hasExecutor {
      SkippedIsSound(s, MissingExecutor, n, w.max);
    } else if turn.execution.ExecutionError? {
      FailedIsSound(s, ExecutorError, n, w.max);
    } else if turn.execution.isError {
      FailedIsSound(s, Warned(FailureWarning(s.verification.kind, s.verification.ownership)), n, w.max);
    } else {
      VerifiedIsSound(s, command, n, w.max);
    }
  }

  lemma CappedIsSound(w: World, s: Summary, n: nat)
    requires Sound(s, n, w.max)
    ensures Sound(Capped(w, s), n, w.max)
  {
  }

  // Every attempt keeps all of it, for whatever the outside world answers.
  lemma AttemptIsSound(w: World, st: State, n: nat)
    requires HasPlan(st.summary) && st.result.Some? && !Stops(st, n) && n < w.max
    requires Sound(st.summary, n, w.max)
    ensures Sound(Attempt(w, st, n).summary, n + 1, w.max)
    ensures HasPlan(Attempt(w, st, n).summary) ==> Attempt(w, st, n).result.Some?
  {
    var s := Capped(w, st.summary);
    var turn := w.turns(n + 1);
    CappedIsSound(w, st.summary, n);
    if st.summary.plan.decision != RetrySmallerScope {
      VerifyIsSound(w, st.(summary := s), n);
    } else if !w.hasWorkflow {
      SkippedIsSound(s, MissingWorkflow, n, w.max);
    } else if turn.run.None? {
      FailedIsSound(s, WorkflowError, n, w.max);
    } else {
      RetriedIsSound(w, s, n, turn.run.value, ScopePaths.ChangedFilesDelta(turn.before, turn.after));
    }
  }

  // ---- Whole runs --------------------------------------------------------------------------

  // A state the loop can be in after n attempts.
  predicate Reachable(st: State, n: nat, max: nat) {
    Sound(st.summary, n, max) && (HasPlan(st.summary) ==> st.result.Some?)
  }

  ghost predicate Starts(w: World, st: State) {
    exists hint, r :: st == State(Some(r), Started(w, Summarize(w.lens, hint, w.cfg, Some(r))))
  }

  lemma StartIsReachable(w: World, st: State)
    requires Starts(w, st)
    ensures Reachable(st, 0, w.max)
  {
    var hint, r :| st == State(Some(r), Started(w, Summarize(w.lens, hint, w.cfg, Some(r))));
    SummaryIsPlanned(w.lens, hint, w.cfg, Some(r));
  }

  function KeepsReachable(max: nat): (State, nat) -> bool {
    (st: State, n: nat) => Reachable(st, n, max)
  }

  lemma AttemptsKeepReachable(w: World)
    ensures forall st: State, n: nat :: n < w.max && KeepsReachable(w.max)(st, n) && !Stops(st, n) ==>
      KeepsReachable(w.max)(Attempts(w)(st, n), n + 1)
  {
    forall st: State, n: nat | n < w.max && KeepsReachable(w.max)(st, n) && !Stops(st, n)
      ensures KeepsReachable(w.max)(Attempts(w)(st, n), n + 1)
    {
      AttemptIsSound(w, st, n);
    }
  }

  lemma RunIsReachable(w: World, st: State, k: nat)
    requires Starts(w, st) && k < |Run(w, st, 0)|
    ensures Reachable(Run(w, st, 0)[k], k, w.max)
  {
    StartIsReachable(w, st);
    AttemptsKeepReachable(w);
    IterateKeeps(Stops, Attempts(w), KeepsReachable(w.max), st, 0, w.max, k);
  }

  // ---- Main results ------------------------------------------------------------------------
  // All are about run := Run(w, st, 0), the states from a fresh summary st to the loop's result,
  // for every world w.

  lemma StepOf(w: World, st: State, k: nat)
    requires Starts(w, st) && k < |Run(w, st, 0)| - 1
    ensures var run := Run(w, st, 0);
      && k < w.max && !Stops(run[k], k) && run[k].result.Some?
      && run[k + 1] == Attempt(w, run[k], k)
      && Reachable(run[k], k, w.max) && Reachable(run[k + 1], k + 1, w.max)
  {
    IterateSteps(Stops, Attempts(w), st, 0, w.max, k);
    RunIsReachable(w, st, k);
    RunIsReachable(w, st, k + 1);
  }

  lemma EndOf(w: World, st: State)
    requires Starts(w, st)
    ensures var run := Run(w, st, 0);
      var n := |run| - 1;
      (n >= w.max || Stops(run[n], n)) && Reachable(run[n], n, w.max) && Final(w, st, 0) == run[n]
  {
    var run := Run(w, st, 0);
    IterateSteps(Stops, Attempts(w), st, 0, w.max, |run| - 1);
    RunIsReachable(w, st, |run| - 1);
  }

  // At most the configured number of attempts run, and the clamp keeps that at two.
  lemma AttemptsAreBounded(w: World, st: State, enabled: bool, observeOnly: bool, configured: int)
    requires w.max == RetryMax(enabled, observeOnly, configured)
    ensures |Run(w, st, 0)| - 1 <= w.max <= 2
    ensures w.max > 0 <==> enabled && !observeOnly && configured > 0
    ensures w.max > 0 && configured <= 2 ==> w.max == configured
  {
  }

  predicate Appends(before: Summary, after: Summary, attempt: nat) {
    var log := after.correction.log;
    && |log| == |before.correction.log| + 1 && before.correction.log == log[..|log| - 1]
    && var entry := log[|log| - 1];
      && entry.attempt == attempt && entry.status == after.correction.status
      && entry.decision == before.plan.decision && entry.reason == before.plan.reason
  }

  lemma OutcomesAppend(s: Summary, family: Family, command: string, n: nat)
    ensures Appends(s, FailedSummary(s, family, n), n)
    ensures Appends(s, SkippedSummary(s, family, n), n)
    ensures Appends(s, VerifiedSummary(s, command, n), n)
  {
  }

  lemma JudgedAppends(s: Summary, t: Summary, escalation: Option<Escalation>, n: nat, changed: seq<string>)
    ensures Appends(s, Judged(s, t, escalation, n, changed), n)
  {
  }

  lemma VerifyAppends(w: World, st: State, attempt: nat)
    requires st.result.Some?
    ensures Appends(st.summary, Verify(w, st, attempt).summary, attempt)
  {
    var command := st.result.value.explicitCommand;
    var s := ObservedSummary(w, st.summary, command);
    var warning := FailureWarning(s.verification.kind, s.verification.ownership);
    OutcomesAppend(st.summary, MissingCommand, command, attempt);
    OutcomesAppend(s, MissingExecutor, command, attempt);
    OutcomesAppend(s, ExecutorError, command, attempt);
    OutcomesAppend(s, Warned(warning), command, attempt);
  }

  lemma RetriedAppends(w: World, s: Summary, n: nat, result: Option<RunResult>, changed: seq<string>)
    ensures Appends(s, RetriedSummary(w, s, n, result, changed), n)
  {
    var escalation := EscalatedEffort(w.canEscalate, s.effort);
    var made := Summarize(w.lens, RetryHint(s), RetryConfig(w.cfg, escalation), result);
    JudgedAppends(s, WithRetryFiles(made, changed), escalation, n, changed);
  }

  lemma AttemptAppends(w: World, st: State, n: nat)
    requires HasPlan(st.summary) && st.result.Some?
    ensures Appends(Capped(w, st.summary), Attempt(w, st, n).summary, n + 1)
  {
    var s := Capped(w, st.summary);
    var turn := w.turns(n + 1);
    if st.summary.plan.decision != RetrySmallerScope {
      VerifyAppends(w, st.(summary := s), n + 1);
    } else if !w.hasWorkflow {
      OutcomesAppend(s, MissingWorkflow, "", n + 1);
    } else if turn.run.None? {
      OutcomesAppend(s, WorkflowError, "", n + 1);
    } else {
      RetriedAppends(w, s, n + 1, turn.run.value, ScopePaths.ChangedFilesDelta(turn.before, turn.after));
    }
  }

  lemma CappedAppends(w: World, s: Summary, t: Summary, n: nat)
    ensures Appends(Capped(w, s), t, n) <==> Appends(s, t, n)
  {
  }

  // The log only grows: every attempt appends the one entry that tells what was planned and how
  // it came out.
  lemma LogOnlyGrows(w: World, st: State, k: nat)
    requires Starts(w, st) && k < |Run(w, st, 0)| - 1
    ensures Appends(Run(w, st, 0)[k].summary, Run(w, st, 0)[k + 1].summary, k + 1)
  {
    StepOf(w, st, k);
    AttemptAppends(w, Run(w, st, 0)[k], k);
    CappedAppends(w, Run(w, st, 0)[k].summary, Run(w, st, 0)[k + 1].summary, k + 1);
  }

  // The final log is numbered 1..n, only its last entry can be failed or skipped, and the final
  // status is that of the last entry.
  lemma FinalLogIsSound(w: World, st: State)
    requires Starts(w, st)
    ensures LogIsSound(Final(w, st, 0).summary, |Run(w, st, 0)| - 1)
  {
    EndOf(w, st);
  }

  lemma FreshHasNoStatus(w: World, st: State)
    requires Starts(w, st)
    ensures st.summary.correction == NO_CORRECTION
  {
    var hint, r :| st == State(Some(r), Started(w, Summarize(w.lens, hint, w.cfg, Some(r))));
    SummaryIsPlanned(w.lens, hint, w.cfg, Some(r));
  }

  predicate ActsOnItsPlan(s: Summary) {
    && !s.userInputRequired && s.edits.scope.outOfScope == []
    && (s.plan.decision == RunVerification ==> s.warning == NoWarning && s.verification.observed == Some(false))
    && (s.plan.decision == RetrySmallerScope ==>
          s.warning != NoWarning && !FailsClosed(s.warning) && s.plan.reason == Because(s.warning))
  }

  lemma GoesOn(st: State, n: nat, max: nat)
    requires Reachable(st, n, max) && !Stops(st, n) && (n == 0 ==> !Ended(st.summary))
    ensures HasPlan(st.summary) && IsPlanned(st.summary) && IsFailClosed(st.summary)
  {
  }

  lemma PlanAt(w: World, st: State, k: nat)
    requires Starts(w, st) && k < |Run(w, st, 0)| - 1
    ensures var s := Run(w, st, 0)[k].summary;
      HasPlan(s) && IsPlanned(s) && IsFailClosed(s)
  {
    StepOf(w, st, k);
    FreshHasNoStatus(w, st);
    GoesOn(Run(w, st, 0)[k], k, w.max);
  }

  lemma PlansAreActedOn(s: Summary)
    requires HasPlan(s) && IsPlanned(s) && IsFailClosed(s)
    ensures ActsOnItsPlan(s)
  {
  }

  // An attempt runs only on the plan read off the current summary: verification only without a
  // warning and with verification observed to be missing, a smaller scope only for a warning
  // that does not fail closed, and neither while the user is asked.
  lemma AttemptsFollowThePlan(w: World, st: State, k: nat)
    requires Starts(w, st) && k < |Run(w, st, 0)| - 1
    ensures ActsOnItsPlan(Run(w, st, 0)[k].summary)
  {
    PlanAt(w, st, k);
    PlansAreActedOn(Run(w, st, 0)[k].summary);
  }

  // The loop never leaves a retry hanging: it ends retrying only when the user is asked, and
  // otherwise without a plan, with all attempts used, or failed or skipped.
  lemma NoDanglingRetry(w: World, st: State)
    requires Starts(w, st)
    ensures var final := Final(w, st, 0).summary;
      && (final.correction.status == Retrying ==> final.userInputRequired)
      && (!HasPlan(final) || |Run(w, st, 0)| - 1 == w.max || Ended(final))
  {
    EndOf(w, st);
  }

  // What a warning that fails closed means for the status.
  predicate WarnsClosed(t: Summary) {
    FailsClosed(t.warning) ==> t.correction.status == Failed
  }

  lemma JudgedWarnsClosed(s: Summary, t: Summary, escalation: Option<Escalation>, n: nat, changed: seq<string>)
    ensures WarnsClosed(Judged(s, t, escalation, n, changed))
  {
  }

  lemma VerifyKeepsWarning(w: World, st: State, attempt: nat)
    requires st.result.Some?
    ensures Verify(w, st, attempt).summary.warning == st.summary.warning
  {
  }

  lemma WarningsFailClosed(w: World, st: State, n: nat)
    requires HasPlan(st.summary) && st.result.Some? && IsFailClosed(st.summary)
    ensures WarnsClosed(Attempt(w, st, n).summary)
  {
    var s := Capped(w, st.summary);
    var turn := w.turns(n + 1);
    if st.summary.plan.decision != RetrySmallerScope {
      VerifyKeepsWarning(w, st.(summary := s), n + 1);
    } else if w.hasWorkflow && turn.run.Some? {
      var escalation := EscalatedEffort(w.canEscalate, s.effort);
      var changed := ScopePaths.ChangedFilesDelta(turn.before, turn.after);
      var made := Summarize(w.lens, RetryHint(s), RetryConfig(w.cfg, escalation), turn.run.value);
      JudgedWarnsClosed(s, WithRetryFiles(made, changed), escalation, n + 1, changed);
    }
  }

  lemma LaterWarnsClosed(w: World, st: State, k: nat)
    requires Starts(w, st) && k + 1 < |Run(w, st, 0)|
    ensures WarnsClosed(Run(w, st, 0)[k + 1].summary)
  {
    StepOf(w, st, k);
    WarningsFailClosed(w, Run(w, st, 0)[k], k);
  }

  // Where a sound state stops the loop.
  lemma ClosedIsLast(w: World, st: State, k: nat)
    requires Starts(w, st) && k < |Run(w, st, 0)|
    ensures var run := Run(w, st, 0);
      && Sound(run[k].summary, k, w.max)
      && (!HasPlan(run[k].summary) || (k > 0 && Ended(run[k].summary)) ==> k == |run| - 1)
  {
    RunIsReachable(w, st, k);
    IterateSteps(Stops, Attempts(w), st, 0, w.max, k);
  }

  // The last clause is about what the loop makes of such a state.
  predicate FailsAsItShould(s: Summary, k: nat, last: bool) {
    && (s.edits.scope.outOfScope != [] ==> s.warning == ScopeDrift)
    && (FailsClosed(s.warning) ==> s.plan == NO_PLAN && last && (k > 0 ==> s.correction.status == Failed))
    && (FamilyFailsClosed(s.correction.family) && s.correction.status == Failed ==> last)
  }

  lemma ClosedState(s: Summary, k: nat, max: nat, last: bool)
    requires Sound(s, k, max) && (!HasPlan(s) || (k > 0 && Ended(s)) ==> last)
    requires if k > 0 then WarnsClosed(s) else s.correction == NO_CORRECTION
    ensures FailsAsItShould(s, k, last)
  {
  }

  // Scope drift fails closed: a state with out-of-scope files reports drift, has no plan, and is
  // the last. So does a broad or harness verification failure.
  lemma DriftFailsClosed(w: World, st: State, k: nat)
    requires Starts(w, st) && k < |Run(w, st, 0)|
    ensures FailsAsItShould(Run(w, st, 0)[k].summary, k, k == |Run(w, st, 0)| - 1)
  {
    ClosedIsLast(w, st, k);
    if k > 0 {
      LaterWarnsClosed(w, st, k - 1);
    } else {
      FreshHasNoStatus(w, st);
    }
    ClosedState(Run(w, st, 0)[k].summary, k, w.max, k == |Run(w, st, 0)| - 1);
  }

  predicate VerificationPasses(w: World, result: Option<RunResult>, attempt: nat) {
    result.Some? && result.value.explicitCommand != "" && w.hasExecutor && w.turns(attempt).execution == Executed(false)
  }

  // Which failure an error result of the verification command is. Class and ownership are those
  // the policy sets, or what the command looks like.
  predicate FailsAs(w: World, command: string, family: Family) {
    var policy := w.cfg.policy;
    var broad := if policy.kind.Some? then policy.kind.value == Broad
                 else TrimSpace(command) != "" && w.lens.looksBroad(command);
    family == Warned(if broad then BroadVerificationFailed
                     else if policy.ownership == Some(ByHarness) then HarnessVerificationFailed
                     else VerificationFailed)
  }

  // What the log records of a verification attempt.
  predicate VerificationTells(t: Summary, command: string) {
    var c := t.correction;
    && c.log != []
    && var entry := c.log[|c.log| - 1];
      && entry.family == (if c.status == Succeeded then NoFamily else c.family)
      && entry.command == match c.status {
                            case Succeeded => command
                            case Skipped => t.verification.command
                            case _ => ""
                          }
      && entry.warning == NoWarning && entry.changed == [] && entry.outOfScope == []
  }

  // How a verification attempt comes out: skipped without a command or an executor, failed when
  // the executor or the command fails, and otherwise succeeded.
  predicate VerificationComesOut(w: World, result: RunResult, s: Summary, t: Summary, n: nat) {
    var command, execution, c := result.explicitCommand, w.turns(n).execution, t.correction;
    && (c.status == Succeeded <==> VerificationPasses(w, Some(result), n))
    && (c.status == Skipped <==> command == "" || !w.hasExecutor)
    && (c.status == Skipped ==> c.family == (if command == "" then MissingCommand else MissingExecutor)
                                && c.attempted == s.correction.attempted && c.attempts == s.correction.attempts)
    && (c.status == Failed <==> command != "" && w.hasExecutor && execution != Executed(false))
    && (c.status == Failed ==> if execution.ExecutionError? then c.family == ExecutorError
                               else FailsAs(w, command, c.family))
    && (c.status != Skipped ==> c.attempted && c.attempts == n)
    && (c.status == Succeeded || (c.status == Failed && FamilyFailsClosed(c.family)) ==> t.plan == NO_PLAN)
    && (command != "" ==> t.verification.observed == Some(true) && t.verification.command == command
                          && IsClassified(w.lens.looksBroad, w.cfg.policy, command, t.verification))
    && (command == "" ==> t.verification == s.verification)
    && t.maxAttempts == w.max && t.receipts == s.receipts && t.hints == s.hints
    && t.warning == s.warning && t.edits == s.edits && t.effort == s.effort
    && c.decision == s.plan.decision && c.reason == s.plan.reason
    && VerificationTells(t, command)
  }

  lemma VerifySkips(w: World, st: State, attempt: nat)
    requires st.result.Some? && st.summary.maxAttempts == w.max
    requires st.result.value.explicitCommand == "" || !w.hasExecutor
    ensures VerificationComesOut(w, st.result.value, st.summary, Verify(w, st, attempt).summary, attempt)
  {
  }

  lemma VerifyFails(w: World, st: State, attempt: nat)
    requires st.result.Some? && st.summary.maxAttempts == w.max
    requires st.result.value.explicitCommand != "" && w.hasExecutor && w.turns(attempt).execution != Executed(false)
    ensures VerificationComesOut(w, st.result.value, st.summary, Verify(w, st, attempt).summary, attempt)
  {
  }

  lemma VerifyPasses(w: World, st: State, attempt: nat)
    requires st.result.Some? && st.summary.maxAttempts == w.max
    requires VerificationPasses(w, st.result, attempt)
    ensures VerificationComesOut(w, st.result.value, st.summary, Verify(w, st, attempt).summary, attempt)
  {
  }

  lemma VerifySettles(w: World, st: State, attempt: nat)
    requires st.result.Some? && st.summary.maxAttempts == w.max
    ensures VerificationComesOut(w, st.result.value, st.summary, Verify(w, st, attempt).summary, attempt)
  {
    if st.result.value.explicitCommand == "" || !w.hasExecutor {
      VerifySkips(w, st, attempt);
    } else if w.turns(attempt).execution != Executed(false) {
      VerifyFails(w, st, attempt);
    } else {
      VerifyPasses(w, st, attempt);
    }
  }

  lemma VerificationSettles(w: World, st: State, n: nat)
    requires st.summary.plan.decision == RunVerification && st.result.Some?
    ensures VerificationComesOut(w, st.result.value, st.summary, Attempt(w, st, n).summary, n + 1)
  {
    VerifySettles(w, st.(summary := Capped(w, st.summary)), n + 1);
  }

  // A verification attempt is always the last one; it succeeds, observed, exactly when there are
  // an explicit command and an executor and the command does not fail.
  lemma VerificationIsLast(w: World, st: State, k: nat)
    requires Starts(w, st) && k < |Run(w, st, 0)| - 1
    requires Run(w, st, 0)[k].summary.plan.decision == RunVerification
    ensures var run := Run(w, st, 0);
      && k + 1 == |run| - 1 && run[k].result.Some?
      && VerificationComesOut(w, run[k].result.value, run[k].summary, run[k + 1].summary, k + 1)
  {
    StepOf(w, st, k);
    VerificationSettles(w, Run(w, st, 0)[k], k);
    if k + 1 < |Run(w, st, 0)| - 1 {
      StepOf(w, st, k + 1);
    }
  }

  // The outcome of attempt n with a smaller scope, and what the log records of it.
  predicate RetryComesOut(w: World, t: Summary, n: nat) {
    var ran, status := w.turns(n).run.Some?, t.correction.status;
    && t.correction.log != []
    && var entry := t.correction.log[|t.correction.log| - 1];
      && (status == Succeeded <==> ran && t.warning == NoWarning)
      && (status == Retrying <==> ran && t.warning != NoWarning && !FailsClosed(t.warning) && n < w.max)
      && (status == Failed <==> !ran || FailsClosed(t.warning) || (t.warning != NoWarning && n == w.max))
      && t.correction.family == entry.family
                             == (if !ran then WorkflowError
                                 else if FailsClosed(t.warning) then Warned(t.warning)
                                 else if t.warning != NoWarning && n == w.max then WarningUnresolved
                                 else NoFamily)
      && t.correction.attempted && t.correction.attempts == n
      && (ran ==> entry.warning == t.warning && entry.outOfScope == t.edits.scope.outOfScope
                  && entry.changed == ScopePaths.ChangedFilesDelta(w.turns(n).before, w.turns(n).after))
  }

  lemma JudgedComesOut(w: World, s: Summary, t: Summary, escalation: Option<Escalation>, n: nat)
    requires w.turns(n).run.Some? && n <= w.max == s.maxAttempts
    ensures var changed := ScopePaths.ChangedFilesDelta(w.turns(n).before, w.turns(n).after);
      RetryComesOut(w, Judged(s, t, escalation, n, changed), n)
  {
  }

  lemma RetrySettles(w: World, st: State, n: nat)
    requires w.hasWorkflow && st.summary.plan.decision == RetrySmallerScope && n < w.max
    ensures RetryComesOut(w, Attempt(w, st, n).summary, n + 1)
  {
    var s := Capped(w, st.summary);
    var turn := w.turns(n + 1);
    if turn.run.Some? {
      var escalation := EscalatedEffort(w.canEscalate, s.effort);
      var changed := ScopePaths.ChangedFilesDelta(turn.before, turn.after);
      var made := Summarize(w.lens, RetryHint(s), RetryConfig(w.cfg, escalation), turn.run.value);
      JudgedComesOut(w, s, WithRetryFiles(made, changed), escalation, n + 1);
    }
  }

  // A retry goes on from the result of its run, and is hinted at verification when there was a hint
  // before or verification was at issue. Without a result it goes on from the state before.
  ghost predicate StartsAgain(w: World, st: State, next: State, n: nat) {
    match w.turns(n).run
    case None => next.result == st.result && next.summary.hint == st.summary.hint
    case Some(result) =>
      && next.result == result
      && next.summary.maxAttempts == w.max
      && (next.summary.hint <==> st.summary.hint || st.summary.verification.observed.Some?)
      && Resumes(w, result, next.summary, w.turns(n).before, w.turns(n).after)
      && (EscalatedEffort(w.canEscalate, st.summary.effort).None? ==>
            next.summary.effort == Summarize(w.lens, next.summary.hint, w.cfg, result).effort)
  }

  // Apart from its effort and the log, the summary of a retry is that of its run alone, with the
  // files that changed on the way added to its scope.
  ghost predicate Resumes(w: World, result: Option<RunResult>, t: Summary, before: ScopePaths.Snapshot,
                          after: ScopePaths.Snapshot) {
    var made := Summarize(w.lens, t.hint, w.cfg, result);
    && t.verification == made.verification && t.receipts == made.receipts && t.hints == made.hints
    && t.userInputRequired == made.userInputRequired
    && t.edits.intent == made.edits.intent && t.edits.observed == made.edits.observed
    && t.edits.scope == ScopePaths.WithChangedFiles(made.edits.scope, ScopePaths.ChangedFilesDelta(before, after))
    && t.warning == if t.edits.scope.outOfScope != [] then ScopeDrift else made.warning
  }

  // The configured effort shows in nothing but the effort.
  lemma ConfiguredEffort(lens: Lens, hint: bool, cfg: Config, escalation: Option<Escalation>, result: Option<RunResult>)
    ensures var made := Summarize(lens, hint, RetryConfig(cfg, escalation), result);
      made == Summarize(lens, hint, cfg, result).(effort := made.effort)
  {
  }

  lemma FilesShow(s: Summary, changed: seq<string>)
    requires IsFailClosed(s)
    ensures var t := WithRetryFiles(s, changed);
      && t.edits == s.edits.(scope := ScopePaths.WithChangedFiles(s.edits.scope, changed))
      && t.warning == (if t.edits.scope.outOfScope != [] then ScopeDrift else s.warning)
      && t == s.(edits := t.edits, warning := t.warning)
  {
  }

  lemma JudgedStays(s: Summary, t: Summary, escalation: Option<Escalation>, attempt: nat, changed: seq<string>)
    ensures var u := Judged(s, t, escalation, attempt, changed);
      && u.maxAttempts == s.maxAttempts
      && u == t.(effort := u.effort, plan := u.plan, maxAttempts := u.maxAttempts, correction := u.correction)
  {
  }

  lemma RetriedResumes(w: World, s: Summary, attempt: nat, result: Option<RunResult>)
    ensures var turn := w.turns(attempt);
      var t := RetriedSummary(w, s, attempt, result, ScopePaths.ChangedFilesDelta(turn.before, turn.after));
      && t.hint == RetryHint(s) && t.maxAttempts == s.maxAttempts
      && (EscalatedEffort(w.canEscalate, s.effort).None? ==>
            t.effort == Summarize(w.lens, t.hint, w.cfg, result).effort)
      && Resumes(w, result, t, turn.before, turn.after)
  {
    var turn, escalation := w.turns(attempt), EscalatedEffort(w.canEscalate, s.effort);
    var changed := ScopePaths.ChangedFilesDelta(turn.before, turn.after);
    var made := Summarize(w.lens, RetryHint(s), RetryConfig(w.cfg, escalation), result);
    SummaryIsPlanned(w.lens, RetryHint(s), RetryConfig(w.cfg, escalation), result);
    ConfiguredEffort(w.lens, RetryHint(s), w.cfg, escalation, result);
    FilesShow(made, changed);
    JudgedStays(s, WithRetryFiles(made, changed), escalation, attempt, changed);
    HintIsKept(w.lens, RetryHint(s), w.cfg, result);
  }

  lemma HintIsKept(lens: Lens, hint: bool, cfg: Config, result: Option<RunResult>)
    ensures Summarize(lens, hint, cfg, result).hint == hint
  {
  }

  lemma RetryStartsAgain(w: World, st: State, n: nat)
    requires w.hasWorkflow && st.summary.plan.decision == RetrySmallerScope
    ensures StartsAgain(w, st, Attempt(w, st, n), n + 1)
  {
    if w.turns(n + 1).run.Some? {
      RetriedResumes(w, Capped(w, st.summary), n + 1, w.turns(n + 1).run.value);
    }
  }

  lemma WithoutWorkflow(w: World, st: State, n: nat)
    requires !w.hasWorkflow && st.summary.plan.decision == RetrySmallerScope
    ensures var next := Attempt(w, st, n);
      && next.summary.correction.status == Skipped && next.summary.correction.family == MissingWorkflow
      && next.result == st.result
  {
  }

  // A retry with a smaller scope fails on a workflow error, on a warning that fails closed, or on
  // any warning left by the last allowed attempt; it succeeds exactly when no warning is left,
  // and goes on retrying otherwise. Without a workflow it is skipped.
  lemma RetryOutcome(w: World, st: State, k: nat)
    requires Starts(w, st) && k < |Run(w, st, 0)| - 1
    requires Run(w, st, 0)[k].summary.plan.decision == RetrySmallerScope
    ensures var run := Run(w, st, 0);
      var t := run[k + 1].summary;
      if w.hasWorkflow then RetryComesOut(w, t, k + 1) && StartsAgain(w, run[k], run[k + 1], k + 1)
      else
        && t.correction.status == Skipped && t.correction.family == MissingWorkflow
        && run[k + 1].result == run[k].result
  {
    StepOf(w, st, k);
    if w.hasWorkflow {
      RetrySettles(w, Run(w, st, 0)[k], k);
      RetryStartsAgain(w, Run(w, st, 0)[k], k);
    } else {
      WithoutWorkflow(w, Run(w, st, 0)[k], k);
    }
  }

  // ---- Escalation --------------------------------------------------------------------------

  // The attempt that starts from this summary asks for more reasoning effort.
  predicate Escalates(w: World, s: Summary) {
    s.plan.decision == RetrySmallerScope && EscalatedEffort(w.canEscalate, s.effort).Some?
  }

  lemma ManualIsManual()
    ensures EqualFold(TrimSpace(MANUAL), MANUAL)
  {
    TrimSpaceTrims(MANUAL);
  }

  // An escalating attempt that runs leaves manual mode with the raised level.
  lemma EscalationSetsManual(w: World, st: State, n: nat)
    requires Escalates(w, st.summary)
    ensures var t := Attempt(w, st, n).summary;
      if w.hasWorkflow && w.turns(n + 1).run.Some? then
        var raised := EscalatedEffort(w.canEscalate, st.summary.effort).value;
        t.effort == Effort(raised.level, "manual", raised.reason)
      else Ended(t) && t.effort == st.summary.effort
  {
  }

  // Manual mode is never overridden, and no two consecutive attempts both escalate.
  lemma EscalationsAreApart(w: World, st: State, k: nat)
    requires Starts(w, st) && k < |Run(w, st, 0)| - 1
    ensures var run := Run(w, st, 0);
      && (EqualFold(TrimSpace(run[k].summary.effort.mode), MANUAL) ==> !Escalates(w, run[k].summary))
      && (k + 1 < |run| - 1 && Escalates(w, run[k].summary) ==> !Escalates(w, run[k + 1].summary))
  {
    StepOf(w, st, k);
    if k + 1 < |Run(w, st, 0)| - 1 && Escalates(w, Run(w, st, 0)[k].summary) {
      StepOf(w, st, k + 1);
      EscalationSetsManual(w, Run(w, st, 0)[k], k);
      ManualIsManual();
    }
  }

  // Effort levels from lowest to highest; anything else ranks below all of them.
  function Rank(level: string): nat {
    var word := ToLower(TrimSpace(level));
    if word == "xhigh" then 6 else if word == "high" then 5 else if word == "medium" then 4
    else if word == "low" then 3 else if word == "minimal" then 2 else if word == "none" then 1 else 0
  }

  lemma RanksOfLevels()
    ensures Rank("xhigh") == 6 && Rank("high") == 5
  {
    TrimSpaceTrims("xhigh");
    TrimSpaceTrims("high");
    assert ToLower("xhigh") == "xhigh" && ToLower("high") == "high";
  }

  // The effort is escalated exactly when the provider can use it and the mode is not manual. That
  // raises it to the highest level from the one below, and to that one from any lower; the highest
  // is kept.
  lemma EscalationRaises(canEscalate: bool, effort: Effort)
    ensures EscalatedEffort(canEscalate, effort).Some? <==>
      canEscalate && !EqualFold(TrimSpace(effort.mode), "manual")
    ensures EscalatedEffort(canEscalate, effort).Some? ==>
      var raised := EscalatedEffort(canEscalate, effort).value;
      && Rank(raised.level) == (if Rank(effort.level) >= 5 then 6 else 5)
      && raised.reason == (if Rank(effort.level) == 6 then "correction_retry_preserve_xhigh"
                           else "correction_retry_escalation")
  {
    RanksOfLevels();
  }

  // So under the clamp at most one attempt of a run escalates.
  lemma AtMostOneEscalation(w: World, st: State, j: nat, k: nat)
    requires Starts(w, st) && w.max <= 2
    requires j < k < |Run(w, st, 0)| - 1
    ensures !(Escalates(w, Run(w, st, 0)[j].summary) && Escalates(w, Run(w, st, 0)[k].summary))
  {
    assert |Run(w, st, 0)| - 1 <= 2 && j == 0 && k == j + 1;
    EscalationsAreApart(w, st, j);
  }
}
