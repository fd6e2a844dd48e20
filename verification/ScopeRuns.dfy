// The scope record along whole runs of the correction loop: it is kept up to date incrementally
// (withCompletionRetryChangedFiles, cmd/elnath/runtime_completion_diff.go).
module ScopeRuns {
  import opened Wrappers
  import opened ScopePaths
  import opened Transcript
  import opened CompletionSummary
  import Iteration
  import opened RetryLoop
  import opened RetryRuns

  // Every path the transcript writes settles at once.
  predicate PathsSettle(reader: Reader, r: RunResult) {
    forall i :: 0 <= i < |AllBlocks(r.messages)| ==> AllSettle(PathsOf(reader, AllBlocks(r.messages)[i]))
  }

  // So does everything a turn brings in.
  predicate TurnSettles(reader: Reader, turn: Turn) {
    && AllSettle(turn.after.files)
    && (turn.run.Some? && turn.run.value.Some? ==> PathsSettle(reader, turn.run.value.value))
  }

  ghost predicate WorldSettles(w: World) {
    forall n: nat :: TurnSettles(w.lens.reader, w.turns(n))
  }

  lemma MutatedAreCanonical(reader: Reader, r: RunResult)
    requires PathsSettle(reader, r)
    ensures forall y :: y in MutatedSet(reader, AllBlocks(r.messages)) ==> Canonical(y)
  {
    var blocks := AllBlocks(r.messages);
    forall y | y in MutatedSet(reader, blocks) ensures Canonical(y) {
      MutatedMeansEffect(reader, blocks, y);
      var j, i :| TookEffect(reader, blocks, PathTest(reader), j, i) && WritesNamedFile(reader, blocks[j])
                  && y == NormalizeScopePath(NamedFile(reader, blocks[j])) != "";
      WritesAre(reader, blocks[j]);
      SettledAreCanonical(PathsOf(reader, blocks[j]));
    }
  }

  lemma SummaryIsUpToDate(lens: Lens, hint: bool, cfg: Config, result: Option<RunResult>)
    requires result.Some? ==> PathsSettle(lens.reader, result.value)
    ensures UpToDate(Summarize(lens, hint, cfg, result).edits.scope)
  {
    if result.Some? {
      var mutated := MutatedSet(lens.reader, AllBlocks(result.value.messages));
      MutatedAreCanonical(lens.reader, result.value);
      ListsCanonical(Listing(mutated), mutated);
    }
  }

  lemma FilesKeepUpToDate(s: Summary, changed: seq<string>)
    requires UpToDate(s.edits.scope) && AllCanonical(NormalizeScopePaths(changed))
    ensures UpToDate(WithRetryFiles(s, changed).edits.scope)
  {
    SettledAreCanonical(changed);
    IncrementalIsRecomputed(s.edits.scope, changed);
  }

  lemma RetryKeepsUpToDate(w: World, s: Summary, attempt: nat, result: Option<RunResult>, changed: seq<string>)
    requires result.Some? ==> PathsSettle(w.lens.reader, result.value)
    requires AllCanonical(NormalizeScopePaths(changed))
    ensures UpToDate(RetriedSummary(w, s, attempt, result, changed).edits.scope)
  {
    var cfg := RetryConfig(w.cfg, EscalatedEffort(w.canEscalate, s.effort));
    SummaryIsUpToDate(w.lens, RetryHint(s), cfg, result);
    FilesKeepUpToDate(Summarize(w.lens, RetryHint(s), cfg, result), changed);
  }

  lemma VerifyKeepsEdits(w: World, st: State, attempt: nat)
    requires st.result.Some?
    ensures Verify(w, st, attempt).summary.edits == st.summary.edits
  {
  }

  lemma SmallerScopeKeepsUpToDate(w: World, st: State, attempt: nat)
    requires UpToDate(st.summary.edits.scope) && TurnSettles(w.lens.reader, w.turns(attempt))
    ensures UpToDate(SmallerScope(w, st, attempt).summary.edits.scope)
  {
    var turn := w.turns(attempt);
    if w.hasWorkflow && turn.run.Some? {
      DeltaIsCanonical(turn.before, turn.after);
      RetryKeepsUpToDate(w, st.summary, attempt, turn.run.value, ChangedFilesDelta(turn.before, turn.after));
    }
  }

  lemma AttemptKeepsUpToDate(w: World, st: State, n: nat)
    requires UpToDate(st.summary.edits.scope) && TurnSettles(w.lens.reader, w.turns(n + 1))
    ensures UpToDate(Attempt(w, st, n).summary.edits.scope)
  {
    var begun := st.(summary := Capped(w, st.summary));
    if st.summary.plan.decision == RetrySmallerScope {
      SmallerScopeKeepsUpToDate(w, begun, n + 1);
    } else if st.result.Some? {
      VerifyKeepsEdits(w, begun, n + 1);
    }
  }

  lemma StartIsUpToDate(w: World, st: State)
    requires Starts(w, st) && st.result.Some? && PathsSettle(w.lens.reader, st.result.value)
    ensures UpToDate(st.summary.edits.scope)
  {
    var hint, r :| st == State(Some(r), Started(w, Summarize(w.lens, hint, w.cfg, Some(r))));
    SummaryIsUpToDate(w.lens, hint, w.cfg, Some(r));
  }

  ghost function KeepsScope(): (State, nat) -> bool {
    (st: State, n: nat) => UpToDate(st.summary.edits.scope)
  }

  lemma StepsKeepUpToDate(w: World)
    requires WorldSettles(w)
    ensures forall st: State, n: nat :: n < w.max && KeepsScope()(st, n) && !Stops(st, n) ==>
      KeepsScope()(Attempts(w)(st, n), n + 1)
  {
    forall st: State, n: nat | n < w.max && KeepsScope()(st, n) && !Stops(st, n)
      ensures KeepsScope()(Attempts(w)(st, n), n + 1)
    {
      assert TurnSettles(w.lens.reader, w.turns(n + 1));
      AttemptKeepsUpToDate(w, st, n);
    }
  }

  lemma ScopeIsKept(w: World, st: State, k: nat)
    requires KeepsScope()(st, 0) && WorldSettles(w) && k < |Run(w, st, 0)|
    ensures KeepsScope()(Run(w, st, 0)[k], k)
  {
    StepsKeepUpToDate(w);
    Iteration.IterateKeeps(Stops, Attempts(w), KeepsScope(), st, 0, w.max, k);
  }

  // In every state of every run whose paths settle at once, the list of out-of-scope files is the
  // one a recomputation from all mutated paths gives.
  lemma ScopeStaysUpToDate(w: World, st: State, k: nat)
    requires Starts(w, st) && st.result.Some? && PathsSettle(w.lens.reader, st.result.value)
    requires WorldSettles(w) && k < |Run(w, st, 0)|
    ensures UpToDate(Run(w, st, 0)[k].summary.edits.scope)
  {
    StartIsUpToDate(w, st);
    ScopeIsKept(w, st, k);
  }
}
