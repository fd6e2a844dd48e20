// The completion contract: which warning a finished workflow run earns, and the retry plan that
// is read off it (summarizeCompletionContract and completionRetryPlan,
// cmd/elnath/runtime_completion_observability.go).
module CompletionSummary {
  import DiagnosticRoutes
  import FooterParser
  import FooterScan
  import HintParser
  import HintRoutes
  import MutationFooter
  import ToolReceipts
  import opened Wrappers
  import opened Text
  import Ordering
  import opened ScopePaths
  import opened Transcript

  datatype Warning =
    | NoWarning
    | FinalResponseIncomplete
    | VerificationFailed
    | BroadVerificationFailed
    | HarnessVerificationFailed
    | UnsupportedSuccessClaim
    | EditIntentWithoutMutation
    | BudgetExceededAfterEditIntent
    | NewDiagnosticsFound
    | ScopeDrift

  datatype Decision = NoDecision | RetrySmallerScope | RunVerification

  datatype Reason = NoReason | Because(warning: Warning) | HintNotObserved

  datatype Class = NoClass | Focused | Broad | UnknownClass

  datatype Ownership = NoOwnership | ByModel | ByHarness | ByDiagnostics | UnknownOwnership

  datatype Status = NoStatus | Retrying | Succeeded | Failed | Skipped

  datatype Family =
    | NoFamily
    | Warned(warning: Warning)
    | WarningUnresolved
    | WorkflowError
    | ExecutorError
    | MissingWorkflow
    | MissingCommand
    | MissingExecutor

  // One entry of the attempt log.
  datatype Entry = Entry(attempt: nat, decision: Decision, reason: Reason, status: Status, family: Family,
                         command: string, warning: Warning, changed: seq<string>, outOfScope: seq<string>)

  datatype Verification = Verification(observed: Option<bool>, command: string, kind: Class, ownership: Ownership)

  datatype Effort = Effort(level: string, mode: string, reason: string)

  datatype Edits = Edits(intent: bool, observed: Option<bool>, scope: Scope)

  datatype Correction = Correction(attempted: bool, attempts: nat, decision: Decision, reason: Reason,
                                   status: Status, family: Family, log: seq<Entry>)

  datatype Plan = Plan(decision: Decision, reason: Reason)

  // completionContractSummary; its flat fields are grouped by the step that fills them.
  datatype Summary = Summary(
    hint: bool,
    effort: Effort,
    verification: Verification,
    edits: Edits,
    receipts: seq<FooterParser.Receipt>,
    hints: seq<HintParser.Hint>,
    warning: Warning,
    userInputRequired: bool,
    plan: Plan,
    maxAttempts: nat,
    correction: Correction)

  // The policy after normalisation; None where it is empty or "auto".
  datatype Policy = Policy(kind: Option<Class>, ownership: Option<Ownership>)

  datatype Config = Config(effort: string, effortMode: string, policy: Policy,
                           allowed: seq<string>, forbidden: seq<string>)

  datatype ControlReceipt = ControlReceipt(tool: string, action: string)

  // A finished workflow run.
  datatype RunResult = RunResult(
    messages: seq<Message>,
    effort: string,
    effortMode: string,
    effortReason: string,
    budgetExceeded: bool,
    mutations: seq<Option<MutationFooter.Mutation>>,
    explicitCommand: string)

  // ---- Verification classes ----------------------------------------------------------------

  function Classify(looksBroad: string -> bool, command: string, policy: Policy): (Class, Ownership) {
    var kind := policy.kind.GetOr(
      if TrimSpace(command) == "" then UnknownClass else if looksBroad(command) then Broad else Focused);
    var ownership := policy.ownership.GetOr(
      if kind == Broad then ByHarness else if kind == Focused then ByModel else UnknownOwnership);
    (kind, ownership)
  }

  function FailureWarning(kind: Class, ownership: Ownership): Warning {
    if kind == Broad then BroadVerificationFailed
    else if ownership == ByHarness then HarnessVerificationFailed
    else VerificationFailed
  }

  predicate IsVerificationFailure(w: Warning) {
    w == VerificationFailed || w == BroadVerificationFailed || w == HarnessVerificationFailed
  }

  predicate FailsClosed(w: Warning) {
    w == ScopeDrift || w == BroadVerificationFailed || w == HarnessVerificationFailed
  }

  // ---- The retry plan ----------------------------------------------------------------------

  const NO_PLAN := Plan(NoDecision, NoReason)

  function RetryPlan(userInputRequired: bool, warning: Warning, observed: Option<bool>): Plan {
    if userInputRequired then NO_PLAN
    else if FailsClosed(warning) then NO_PLAN
    else if warning != NoWarning then Plan(RetrySmallerScope, Because(warning))
    else if observed == Some(false) then Plan(RunVerification, HintNotObserved)
    else NO_PLAN
  }

  // ---- Summaries ---------------------------------------------------------------------------

  // How commands and texts are classified, and how the outputs of tools decode.
  datatype Lens = Lens(
    reader: Reader,
    looksBroad: string -> bool,
    saysIncomplete: string -> bool,
    claimsVerified: string -> bool,
    saysEdit: string -> bool,
    symbolReceipt: string -> Option<FooterParser.Receipt>,
    symbolHints: string -> seq<HintParser.Hint>,
    controlReceipt: string -> Option<ControlReceipt>)

  const NO_CORRECTION := Correction(false, 0, NoDecision, NoReason, NoStatus, NoFamily, [])

  function OrElse(s: string, other: string): string {
    if TrimSpace(s) != "" then TrimSpace(s) else TrimSpace(other)
  }

  function EffortOf(cfg: Config, r: RunResult): Effort {
    Effort(OrElse(r.effort, cfg.effort), OrElse(r.effortMode, cfg.effortMode), TrimSpace(r.effortReason))
  }

  function EmptyScope(cfg: Config): Scope {
    Scope([], [], NormalizeScopePaths(cfg.allowed), NormalizeScopePaths(cfg.forbidden))
  }

  // A run without a result is summarised by its configuration alone.
  function EmptySummary(hint: bool, cfg: Config): Summary {
    Summary(hint, Effort(TrimSpace(cfg.effort), TrimSpace(cfg.effortMode), ""),
            Verification(None, "", NoClass, NoOwnership), Edits(false, None, EmptyScope(cfg)),
            [], [], NoWarning, false, NO_PLAN, 0, NO_CORRECTION)
  }

  function VerificationOf(lens: Lens, hint: bool, policy: Policy, command: string): Verification {
    var observed := command != "";
    var (kind, ownership) := Classify(lens.looksBroad, command, policy);
    Verification(if hint || observed then Some(observed) else None, command,
                 if observed then kind else NoClass, if observed then ownership else NoOwnership)
  }

  // ---- What the messages tell --------------------------------------------------------------

  predicate EditIntent(lens: Lens, r: RunResult) {
    var text := TrimSpace(Join(UserTexts(r.messages), '\n'));
    text != "" && lens.saysEdit(text)
  }

  predicate ReportsIncomplete(lens: Lens, r: RunResult) {
    FinalText(r.messages) != "" && lens.saysIncomplete(FinalText(r.messages))
  }

  predicate ClaimsVerified(lens: Lens, r: RunResult) {
    FinalText(r.messages) != "" && lens.claimsVerified(FinalText(r.messages))
  }

  ghost function EditsOf(lens: Lens, cfg: Config, r: RunResult): Edits {
    var edited := MutationObserved(lens.reader, AllBlocks(r.messages));
    var mutated := Listing(MutatedSet(lens.reader, AllBlocks(r.messages)));
    var empty := EmptyScope(cfg);
    Edits(EditIntent(lens, r), if EditIntent(lens, r) || edited then Some(edited) else None,
          empty.(mutated := mutated, outOfScope := OutOfScopePaths(mutated, empty.allowed, empty.forbidden)))
  }

  const CODE_SYMBOLS := "code_symbols"

  // A receipt without a tool name is filed under code_symbols; any other name is refused.
  function SymbolReceipt(receipt: Option<FooterParser.Receipt>): seq<FooterParser.Receipt> {
    if receipt.None? then []
    else if receipt.value.tool == "" then [receipt.value.(tool := CODE_SYMBOLS)]
    else if receipt.value.tool == CODE_SYMBOLS then [receipt.value]
    else []
  }

  function SymbolReceipts(lens: Lens): ToolReceipts.ReadOutput<FooterParser.Receipt> {
    (name: string, output: string) => if name == CODE_SYMBOLS then SymbolReceipt(lens.symbolReceipt(output)) else []
  }

  function SymbolHints(lens: Lens): ToolReceipts.ReadOutput<HintParser.Hint> {
    (name: string, output: string) => if name == CODE_SYMBOLS then lens.symbolHints(output) else []
  }

  function ObservedReceipts(lens: Lens, messages: seq<Message>): seq<FooterParser.Receipt> {
    ToolReceipts.ReadResults(AllBlocks(messages), SymbolReceipts(lens))
    + FooterScan.FooterReceipts(lens.reader, messages)
  }

  function ObservedHints(lens: Lens, messages: seq<Message>): seq<HintParser.Hint> {
    HintParser.Normalize(ToolReceipts.ReadResults(AllBlocks(messages), SymbolHints(lens))
                         + FooterScan.FooterHints(lens.reader, messages))
  }

  function ReceiptsOf(lens: Lens, r: RunResult): seq<FooterParser.Receipt> {
    DiagnosticRoutes.CombinedReceipts(ObservedReceipts(lens, r.messages),
                                      DiagnosticRoutes.StructuredReceipts(DiagnosticRoutes.LatestPerPath(r.mutations)))
  }

  function HintsOf(lens: Lens, r: RunResult): seq<HintParser.Hint> {
    HintRoutes.CombinedHints(ObservedHints(lens, r.messages), r.mutations)
  }

  predicate IsControlTool(name: string) {
    name in {
      "task_create", "user_question_answer", "task_list", "task_get", "task_stop", "task_output",
      "task_monitor", "task_update", "schedule_create", "schedule_list", "schedule_delete",
      "enter_plan_mode", "exit_plan_mode", "enter_worktree", "exit_worktree", "worktree_list",
      "worktree_run", "worktree_prune", "process_start", "process_monitor", "process_wait",
      "process_stop", "sleep", "agentic_delegate_create", "agentic_delegate_list",
      "agentic_delegate_status", "agentic_delegate_enqueue", "agentic_message_send",
      "agentic_message_list", "runtime_command", "ask_user_question", "user_question_list",
      "user_question_wait", "user_question_cancel"
    }
  }

  // A control receipt counts under the name of the tool that returned it, with some action.
  function ControlReceipts(lens: Lens): ToolReceipts.ReadOutput<ControlReceipt> {
    (name: string, output: string) =>
      if !IsControlTool(name) then []
      else
        match lens.controlReceipt(output)
        case None => []
        case Some(receipt) => if receipt.tool == name && receipt.action != "" then [receipt] else []
  }

  function ControlsOf(lens: Lens, r: RunResult): seq<ControlReceipt> {
    ToolReceipts.ReadResults(AllBlocks(r.messages), ControlReceipts(lens))
  }

  predicate HasControl(receipts: seq<ControlReceipt>, tool: string, action: string) {
    exists i :: 0 <= i < |receipts| && receipts[i].tool == tool && (action == "" || receipts[i].action == action)
  }

  const ASK_USER := "ask_user_question"
  const REQUEST := "request"

  predicate AsksUser(lens: Lens, r: RunResult) {
    HasControl(ControlsOf(lens, r), ASK_USER, REQUEST)
  }

  // ---- The warning -------------------------------------------------------------------------

  // The first complaint, in this order.
  function FirstWarning(lens: Lens, r: RunResult, command: string, failed: Option<Warning>, editObserved: bool,
                        reported: bool): Warning {
    if ReportsIncomplete(lens, r) then FinalResponseIncomplete
    else if failed.Some? then failed.value
    else if command == "" && ClaimsVerified(lens, r) then UnsupportedSuccessClaim
    else if EditIntent(lens, r) && !editObserved then EditIntentWithoutMutation
    else if EditIntent(lens, r) && r.budgetExceeded then BudgetExceededAfterEditIntent
    else if reported then NewDiagnosticsFound
    else NoWarning
  }

  function FailureOf(lens: Lens, policy: Policy, command: string, failed: bool): Option<Warning> {
    var (kind, ownership) := Classify(lens.looksBroad, command, policy);
    if failed then Some(FailureWarning(kind, ownership)) else None
  }

  ghost function WarningOf(lens: Lens, cfg: Config, r: RunResult): Warning {
    var blocks := AllBlocks(r.messages);
    var status := StatusOf(lens.reader, blocks);
    if EditsOf(lens, cfg, r).scope.outOfScope != [] then ScopeDrift
    else FirstWarning(lens, r, status.command, FailureOf(lens, cfg.policy, status.command, status.failed),
                      MutationObserved(lens.reader, blocks),
                      DiagnosticRoutes.ReportsNewDiagnostics(ReceiptsOf(lens, r)))
  }

  ghost function Summarize(lens: Lens, hint: bool, cfg: Config, result: Option<RunResult>): Summary {
    if result.None? then EmptySummary(hint, cfg)
    else
      var r := result.value;
      var warning := WarningOf(lens, cfg, r);
      var verification :=
        VerificationOf(lens, hint, cfg.policy, StatusOf(lens.reader, AllBlocks(r.messages)).command);
      Summary(hint, EffortOf(cfg, r), verification, EditsOf(lens, cfg, r), ReceiptsOf(lens, r), HintsOf(lens, r),
              warning, AsksUser(lens, r), RetryPlan(AsksUser(lens, r), warning, verification.observed), 0,
              NO_CORRECTION)
  }

  // ---- The same, step by step --------------------------------------------------------------

  // How a verification by a command is classified: as the policy says, and where it leaves that
  // open, a command that looks broad is the harness's business and any other the model's.
  predicate IsClassified(looksBroad: string -> bool, policy: Policy, command: string, v: Verification) {
    && (policy.kind.Some? ==> v.kind == policy.kind.value)
    && (policy.kind.None? ==>
          (v.kind == UnknownClass <==> TrimSpace(command) == "")
          && (v.kind == Broad <==> TrimSpace(command) != "" && looksBroad(command))
          && v.kind in {UnknownClass, Broad, Focused})
    && (policy.ownership.Some? ==> v.ownership == policy.ownership.value)
    && (policy.ownership.None? ==>
          (v.ownership == ByHarness <==> v.kind == Broad) && (v.ownership == ByModel <==> v.kind == Focused)
          && v.ownership in {ByHarness, ByModel, UnknownOwnership})
  }

  // Whether verification was seen is left open only without a hint.
  method SummarizeVerification(lens: Lens, hint: bool, policy: Policy, command: string) returns (v: Verification)
    ensures v == VerificationOf(lens, hint, policy, command)
    ensures v.command == command && (v.observed.None? <==> !hint && command == "")
    ensures v.observed.Some? ==> (v.observed.value <==> command != "")
    ensures command == "" ==> v.kind == NoClass && v.ownership == NoOwnership
    ensures command != "" ==> IsClassified(lens.looksBroad, policy, command, v)
  {
    v := Verification(None, command, NoClass, NoOwnership);
    var (kind, ownership) := Classify(lens.looksBroad, command, policy);
    var observed := command != "";
    if hint || observed {
      v := v.(observed := Some(observed));
    }
    if observed {
      v := v.(kind := kind, ownership := ownership);
    }
  }

  method EditIntentDetected(lens: Lens, r: RunResult) returns (intent: bool)
    ensures intent == EditIntent(lens, r)
  {
    var joined := UserMessageText(r.messages);
    var text := TrimSpace(joined);
    intent := text != "" && lens.saysEdit(text);
  }

  method SummarizeEdits(lens: Lens, cfg: Config, r: RunResult, editIntent: bool)
    returns (e: Edits, editObserved: bool)
    requires editIntent == EditIntent(lens, r)
    ensures e == EditsOf(lens, cfg, r) && editObserved == MutationObserved(lens.reader, AllBlocks(r.messages))
  {
    editObserved := MutationObservedInMessages(lens.reader, AllBlocks(r.messages));
    var mutated := ObservedMutatingPaths(lens.reader, AllBlocks(r.messages));
    Ordering.OneListing(mutated, Listing(MutatedSet(lens.reader, AllBlocks(r.messages))));
    var empty := EmptyScope(cfg);
    var outOfScope := OutOfScopeMutatingPaths(mutated, empty.allowed, empty.forbidden);
    e := Edits(editIntent, None, empty.(mutated := mutated, outOfScope := outOfScope));
    if editIntent || editObserved {
      e := e.(observed := Some(editObserved));
    }
  }

  method ObservedDiagnosticDeltaReceipts(lens: Lens, messages: seq<Message>)
    returns (receipts: seq<FooterParser.Receipt>)
    ensures receipts == ObservedReceipts(lens, messages)
  {
    receipts := ToolReceipts.ObserveToolResults(AllBlocks(messages), SymbolReceipts(lens));
    var parsed := FooterScan.ObservedMutationVerifierDiagnosticReceipts(lens.reader, messages);
    receipts := receipts + parsed;
  }

  method ObservedDiagnosticRepairHints(lens: Lens, messages: seq<Message>) returns (hints: seq<HintParser.Hint>)
    ensures hints == ObservedHints(lens, messages)
  {
    hints := ToolReceipts.ObserveToolResults(AllBlocks(messages), SymbolHints(lens));
    var parsed := FooterScan.ObservedMutationVerifierDiagnosticRepairHints(lens.reader, messages);
    hints := HintParser.NormalizeCompletionDiagnosticRepairHints(hints + parsed);
  }

  method ControlToolReceiptsContain(receipts: seq<ControlReceipt>, tool: string, action: string) returns (found: bool)
    ensures found <==> HasControl(receipts, tool, action)
    ensures found <==> exists x :: x in receipts && x.tool == tool && (action == "" || x.action == action)
  {
    for i := 0 to |receipts|
      invariant forall k :: 0 <= k < i ==> !(receipts[k].tool == tool && (action == "" || receipts[k].action == action))
    {
      if receipts[i].tool == tool && (action == "" || receipts[i].action == action) {
        return true;
      }
    }
    found := false;
  }

  // The receipts and hints of a run, and whether the user is asked.
  method SummarizeReceipts(lens: Lens, r: RunResult)
    returns (receipts: seq<FooterParser.Receipt>, hints: seq<HintParser.Hint>, asks: bool)
    ensures receipts == ReceiptsOf(lens, r) && hints == HintsOf(lens, r) && asks == AsksUser(lens, r)
  {
    var controls := ToolReceipts.ObserveToolResults(AllBlocks(r.messages), ControlReceipts(lens));
    receipts := ObservedDiagnosticDeltaReceipts(lens, r.messages);
    hints := ObservedDiagnosticRepairHints(lens, r.messages);
    receipts := DiagnosticRoutes.CombineReceipts(receipts, r.mutations);
    hints := HintRoutes.CombineHints(hints, r.mutations);
    asks := ControlToolReceiptsContain(controls, ASK_USER, REQUEST);
  }

  // Which warning what is found earns: in order of precedence, a mutated path is out of scope; the
  // answer reports incomplete work; the verification failed; the answer claims success and nothing
  // was verified; an edit was asked for and nothing changed; an edit was asked for and the budget
  // ran out; some receipt reports new diagnostics.
  predicate Earns(w: Warning, strays: bool, incomplete: bool, fails: bool, claims: bool, intends: bool, changes: bool,
                  exceeds: bool, reports: bool) {
    var earlier := strays || incomplete || fails || claims;
    && (w == ScopeDrift <==> strays)
    && (w == FinalResponseIncomplete <==> !strays && incomplete)
    && (IsVerificationFailure(w) <==> !strays && !incomplete && fails)
    && (w == UnsupportedSuccessClaim <==> !strays && !incomplete && !fails && claims)
    && (w == EditIntentWithoutMutation <==> !earlier && intends && !changes)
    && (w == BudgetExceededAfterEditIntent <==> !earlier && intends && changes && exceeds)
    && (w == NewDiagnosticsFound <==> !earlier && !(intends && (!changes || exceeds)) && reports)
  }

  // Each complaint counts only while there is no earlier one. final is what the assistant said last.
  method CollectWarning(lens: Lens, r: RunResult, command: string, failed: Option<Warning>, editIntent: bool,
                        editObserved: bool, reported: bool)
    returns (warning: Warning)
    requires failed.Some? ==> IsVerificationFailure(failed.value)
    requires editIntent == EditIntent(lens, r)
    ensures warning == FirstWarning(lens, r, command, failed, editObserved, reported)
    ensures var final := FinalText(r.messages);
      && Earns(warning, false, final != "" && lens.saysIncomplete(final), failed.Some?,
               command == "" && final != "" && lens.claimsVerified(final), editIntent, editObserved, r.budgetExceeded,
               reported)
      && (failed.Some? && IsVerificationFailure(warning) ==> warning == failed.value)
  {
    warning := NoWarning;
    var final := FinalAssistantText(r.messages);
    if final != "" && lens.saysIncomplete(final) {
      warning := FinalResponseIncomplete;
    }
    if warning == NoWarning && failed.Some? {
      warning := failed.value;
    }
    if warning == NoWarning && command == "" && final != "" && lens.claimsVerified(final) {
      warning := UnsupportedSuccessClaim;
    }
    if warning == NoWarning && editIntent && !editObserved {
      warning := EditIntentWithoutMutation;
    }
    if warning == NoWarning && editIntent && r.budgetExceeded {
      warning := BudgetExceededAfterEditIntent;
    }
    if warning == NoWarning && reported {
      warning := NewDiagnosticsFound;
    }
  }

  method SummarizeWarning(lens: Lens, cfg: Config, r: RunResult, command: string, failed: bool, edits: Edits,
                          editObserved: bool, receipts: seq<FooterParser.Receipt>)
    returns (warning: Warning)
    requires receipts == ReceiptsOf(lens, r)
    requires command == StatusOf(lens.reader, AllBlocks(r.messages)).command
    requires failed == StatusOf(lens.reader, AllBlocks(r.messages)).failed
    requires edits == EditsOf(lens, cfg, r) && editObserved == MutationObserved(lens.reader, AllBlocks(r.messages))
    ensures warning == WarningOf(lens, cfg, r)
  {
    var reported := DiagnosticRoutes.DiagnosticDeltaReceiptsContainNewDiagnostics(receipts);
    warning := CollectWarning(lens, r, command, FailureOf(lens, cfg.policy, command, failed), edits.intent,
                              editObserved, reported);
    if |edits.scope.outOfScope| > 0 {
      warning := ScopeDrift;
    }
  }

  method SummarizeCompletionContract(lens: Lens, hint: bool, cfg: Config, result: Option<RunResult>)
    returns (s: Summary)
    ensures s == Summarize(lens, hint, cfg, result)
    ensures s.hint == hint && s.correction == NO_CORRECTION && (result.None? ==> s.plan == NO_PLAN)
    ensures result.Some? ==>
      && s.effort.level == TrimSpace(if TrimSpace(result.value.effort) == "" then cfg.effort else result.value.effort)
      && s.effort.mode
         == TrimSpace(if TrimSpace(result.value.effortMode) == "" then cfg.effortMode else result.value.effortMode)
      && s.effort.reason == TrimSpace(result.value.effortReason)
    ensures result.None? ==>
      && s.effort == Effort(TrimSpace(cfg.effort), TrimSpace(cfg.effortMode), "")
      && s.warning == NoWarning && s.receipts == [] && s.hints == [] && !s.userInputRequired
      && s.verification.observed.None? && s.edits.observed.None? && s.edits.scope.mutated == []
    ensures s.edits.scope.allowed == NormalizeScopePaths(cfg.allowed)
    ensures s.edits.scope.forbidden == NormalizeScopePaths(cfg.forbidden)
  {
    s := EmptySummary(hint, cfg);
    if result.None? {
      return;
    }
    var r := result.value;
    var receipts, hints, asks := SummarizeReceipts(lens, r);
    s := s.(effort := EffortOf(cfg, r), receipts := receipts, hints := hints, userInputRequired := asks);
    var command, failed := ObservedVerificationCommandStatus(lens.reader, AllBlocks(r.messages));
    var verification := SummarizeVerification(lens, hint, cfg.policy, command);
    var editIntent := EditIntentDetected(lens, r);
    var edits, editObserved := SummarizeEdits(lens, cfg, r, editIntent);
    s := s.(verification := verification, edits := edits);
    var warning := SummarizeWarning(lens, cfg, r, command, failed, edits, editObserved, receipts);
    s := s.(warning := warning, plan := RetryPlan(asks, warning, verification.observed));
  }

  // ---- What a summary means ----------------------------------------------------------------

  lemma FirstWarningEarns(lens: Lens, r: RunResult, command: string, failed: Option<Warning>, edited: bool,
                          reported: bool)
    requires failed.Some? ==> IsVerificationFailure(failed.value)
    ensures var w, final := FirstWarning(lens, r, command, failed, edited, reported), FinalText(r.messages);
      && Earns(w, false, final != "" && lens.saysIncomplete(final), failed.Some?,
               command == "" && final != "" && lens.claimsVerified(final), EditIntent(lens, r), edited,
               r.budgetExceeded, reported)
      && (failed.Some? && IsVerificationFailure(w) ==> w == failed.value)
  {
  }

  lemma DriftComesFirst(w: Warning, strays: bool, incomplete: bool, fails: bool, claims: bool, intends: bool,
                        changes: bool, exceeds: bool, reports: bool)
    requires Earns(w, false, incomplete, fails, claims, intends, changes, exceeds, reports)
    ensures Earns(if strays then ScopeDrift else w, strays, incomplete, fails, claims, intends, changes, exceeds,
                  reports)
  {
  }

  // The warning as the steps of the summary compute it, case by case.
  lemma WarningBySteps(lens: Lens, cfg: Config, r: RunResult, status: Transcript.Status, edited: bool)
    requires status == StatusOf(lens.reader, AllBlocks(r.messages))
    requires edited == MutationObserved(lens.reader, AllBlocks(r.messages))
    ensures var w, final := WarningOf(lens, cfg, r), FinalText(r.messages);
      var (kind, ownership) := Classify(lens.looksBroad, status.command, cfg.policy);
      var asked := TrimSpace(Join(UserTexts(r.messages), '\n'));
      && Earns(w, EditsOf(lens, cfg, r).scope.outOfScope != [], final != "" && lens.saysIncomplete(final),
               status.failed, status.command == "" && final != "" && lens.claimsVerified(final),
               asked != "" && lens.saysEdit(asked), edited, r.budgetExceeded,
               DiagnosticRoutes.ReportsNewDiagnostics(ReceiptsOf(lens, r)))
      && (IsVerificationFailure(w) ==> w == FailureWarning(kind, ownership))
  {
    var failed := FailureOf(lens, cfg.policy, status.command, status.failed);
    var reported := DiagnosticRoutes.ReportsNewDiagnostics(ReceiptsOf(lens, r));
    FirstWarningEarns(lens, r, status.command, failed, edited, reported);
    var final, first := FinalText(r.messages), FirstWarning(lens, r, status.command, failed, edited, reported);
    DriftComesFirst(first, EditsOf(lens, cfg, r).scope.outOfScope != [], final != "" && lens.saysIncomplete(final),
                    status.failed, status.command == "" && final != "" && lens.claimsVerified(final),
                    EditIntent(lens, r), edited, r.budgetExceeded, reported);
  }

  lemma SummaryFields(lens: Lens, hint: bool, cfg: Config, r: RunResult)
    ensures var s := Summarize(lens, hint, cfg, Some(r));
      s.warning == WarningOf(lens, cfg, r) && s.receipts == ReceiptsOf(lens, r) && s.edits == EditsOf(lens, cfg, r)
  {
  }

  lemma ScansMean(r: Reader, blocks: seq<Block>)
    requires !r.isVerification("")
    ensures StatusOf(r, blocks).failed <==> LastVerificationFailed(r, blocks)
    ensures StatusOf(r, blocks).command == "" <==> NothingVerified(r, blocks)
    ensures MutationObserved(r, blocks) <==> SomethingChanged(r, blocks)
  {
    ReportsExactly(r, blocks);
    FailsExactly(r, blocks);
    ObservedMeansEffect(r, blocks);
  }

  lemma ReportsMean(receipts: seq<FooterParser.Receipt>)
    ensures DiagnosticRoutes.ReportsNewDiagnostics(receipts) <==>
      exists i :: 0 <= i < |receipts| && (receipts[i].status == "new_diagnostics_found" || receipts[i].newCount > 0)
  {
  }

  // Which warning a run earns, exactly, in terms of its transcript: of its last answer, its last
  // verification event, the uses that took effect, and the receipts of the summary.
  lemma WarningIsExact(lens: Lens, hint: bool, cfg: Config, r: RunResult)
    requires !lens.reader.isVerification("")
    ensures var s, blocks, final := Summarize(lens, hint, cfg, Some(r)), AllBlocks(r.messages), FinalText(r.messages);
      var asked := TrimSpace(Join(UserTexts(r.messages), '\n'));
      var incomplete := final != "" && lens.saysIncomplete(final);
      var fails := LastVerificationFailed(lens.reader, blocks);
      var claims := final != "" && lens.claimsVerified(final) && NothingVerified(lens.reader, blocks);
      var reports := exists i :: 0 <= i < |s.receipts|
                                 && (s.receipts[i].status == "new_diagnostics_found" || s.receipts[i].newCount > 0);
      Earns(s.warning, s.edits.scope.outOfScope != [], incomplete, fails, claims, asked != "" && lens.saysEdit(asked),
            SomethingChanged(lens.reader, blocks), r.budgetExceeded, reports)
  {
    var blocks := AllBlocks(r.messages);
    ScansMean(lens.reader, blocks);
    SummaryFields(lens, hint, cfg, r);
    ReportsMean(ReceiptsOf(lens, r));
    WarningBySteps(lens, cfg, r, StatusOf(lens.reader, blocks), MutationObserved(lens.reader, blocks));
  }

  // Which failure is reported: a broad one when the policy says so, or leaves it open and the
  // command looks broad; otherwise one of the harness exactly when the policy says so.
  lemma FailureKindExactly(lens: Lens, hint: bool, cfg: Config, r: RunResult, i: int, command: string)
    requires !lens.reader.isVerification("") && AllHaveIds(lens.reader, AllBlocks(r.messages))
    requires LastEvent(lens.reader, AllBlocks(r.messages), i, command)
    requires IsVerificationFailure(Summarize(lens, hint, cfg, Some(r)).warning)
    ensures var w := Summarize(lens, hint, cfg, Some(r)).warning;
      var broad := cfg.policy.kind == Some(Broad) || (cfg.policy.kind.None? && lens.looksBroad(command));
      && (w == BroadVerificationFailed <==> broad)
      && (w == HarnessVerificationFailed <==> !broad && cfg.policy.ownership == Some(ByHarness))
      && (w == VerificationFailed <==> !broad && cfg.policy.ownership != Some(ByHarness))
  {
    StatusIsLastEvent(lens.reader, AllBlocks(r.messages), i, command);
    EventCommandIsTrimmed(lens.reader, AllBlocks(r.messages), i, command);
    SummaryFields(lens, hint, cfg, r);
    FailureKindOf(lens, cfg, r, command);
  }

  lemma FailureKindOf(lens: Lens, cfg: Config, r: RunResult, command: string)
    requires StatusOf(lens.reader, AllBlocks(r.messages)).command == command && TrimSpace(command) != ""
    requires IsVerificationFailure(WarningOf(lens, cfg, r))
    ensures var w := WarningOf(lens, cfg, r);
      var broad := cfg.policy.kind == Some(Broad) || (cfg.policy.kind.None? && lens.looksBroad(command));
      && (w == BroadVerificationFailed <==> broad)
      && (w == HarnessVerificationFailed <==> !broad && cfg.policy.ownership == Some(ByHarness))
      && (w == VerificationFailed <==> !broad && cfg.policy.ownership != Some(ByHarness))
  {
    WarningBySteps(lens, cfg, r, StatusOf(lens.reader, AllBlocks(r.messages)),
                   MutationObserved(lens.reader, AllBlocks(r.messages)));
    ClassifiedFailure(lens.looksBroad, command, cfg.policy);
  }

  lemma ClassifiedFailure(looksBroad: string -> bool, command: string, policy: Policy)
    requires TrimSpace(command) != ""
    ensures var (kind, ownership) := Classify(looksBroad, command, policy);
      var w := FailureWarning(kind, ownership);
      var broad := policy.kind == Some(Broad) || (policy.kind.None? && looksBroad(command));
      && (w == BroadVerificationFailed <==> broad)
      && (w == HarnessVerificationFailed <==> !broad && policy.ownership == Some(ByHarness))
      && (w == VerificationFailed <==> !broad && policy.ownership != Some(ByHarness))
  {
  }

  lemma EventCommandIsTrimmed(r: Reader, blocks: seq<Block>, i: int, command: string)
    requires !r.isVerification("") && IsEvent(r, blocks, i, command)
    ensures TrimSpace(command) == command != ""
  {
    if IsUse(blocks[i], VerificationTest(r)) && command == CommandOf(r, blocks[i]) {
      TrimSpaceTrims(r.command(blocks[i].input));
      TrimSpaceTrims(command);
    } else {
      var j :| Answers(blocks, VerificationTest(r), j, i) && command == CommandOf(r, blocks[j]);
      TrimSpaceTrims(r.command(blocks[j].input));
      TrimSpaceTrims(command);
    }
  }

  lemma DriftByPaths(lens: Lens, hint: bool, cfg: Config, r: RunResult)
    ensures var mutated := Listing(MutatedSet(lens.reader, AllBlocks(r.messages)));
      Summarize(lens, hint, cfg, Some(r)).warning == ScopeDrift <==>
      OutOfScopePaths(mutated, NormalizeScopePaths(cfg.allowed), NormalizeScopePaths(cfg.forbidden)) != []
  {
    WarningBySteps(lens, cfg, r, StatusOf(lens.reader, AllBlocks(r.messages)),
                   MutationObserved(lens.reader, AllBlocks(r.messages)));
  }

  // Scope drift is reported exactly when a mutated path matches a forbidden scope, or no allowed
  // one where there is any.
  lemma DriftIsExact(lens: Lens, hint: bool, cfg: Config, r: RunResult)
    ensures Summarize(lens, hint, cfg, Some(r)).warning == ScopeDrift <==>
      var allowed, forbidden := NormalizeScopePaths(cfg.allowed), NormalizeScopePaths(cfg.forbidden);
      exists y :: y in MutatedSet(lens.reader, AllBlocks(r.messages))
                  && ((exists scope :: scope in forbidden && PathMatchesScope(y, scope))
                      || (allowed != [] && forall scope :: scope in allowed ==> !PathMatchesScope(y, scope)))
  {
    DriftByPaths(lens, hint, cfg, r);
    OutOfScopeExists(MutatedSet(lens.reader, AllBlocks(r.messages)), NormalizeScopePaths(cfg.allowed),
                     NormalizeScopePaths(cfg.forbidden));
  }

  // edit_intent_without_mutation is reported only when no mutated path was seen.
  lemma NoMutationMeansNoPaths(lens: Lens, hint: bool, cfg: Config, r: RunResult)
    ensures var s := Summarize(lens, hint, cfg, Some(r));
      s.warning == EditIntentWithoutMutation ==>
        s.edits.scope.mutated == [] && MutatedSet(lens.reader, AllBlocks(r.messages)) == {}
  {
    PathsMeanObserved(lens.reader, AllBlocks(r.messages));
    WarningBySteps(lens, cfg, r, StatusOf(lens.reader, AllBlocks(r.messages)),
                   MutationObserved(lens.reader, AllBlocks(r.messages)));
    var mutated := Listing(MutatedSet(lens.reader, AllBlocks(r.messages)));
    assert forall i :: 0 <= i < |mutated| ==> mutated[i] in mutated;
  }

  // A verification failure is reported only when the last verification event of the transcript
  // is an error result.
  lemma FailureMeansFailedEvent(lens: Lens, hint: bool, cfg: Config, r: RunResult, i: int, command: string)
    requires AllHaveIds(lens.reader, AllBlocks(r.messages)) && LastEvent(lens.reader, AllBlocks(r.messages), i, command)
    ensures IsVerificationFailure(Summarize(lens, hint, cfg, Some(r)).warning) ==>
      AllBlocks(r.messages)[i].ToolResult? && AllBlocks(r.messages)[i].isError
    ensures (AllBlocks(r.messages)[i].ToolResult? && AllBlocks(r.messages)[i].isError && !ReportsIncomplete(lens, r)
             && Summarize(lens, hint, cfg, Some(r)).edits.scope.outOfScope == [])
      ==> IsVerificationFailure(Summarize(lens, hint, cfg, Some(r)).warning)
  {
    StatusIsLastEvent(lens.reader, AllBlocks(r.messages), i, command);
    WarningBySteps(lens, cfg, r, StatusOf(lens.reader, AllBlocks(r.messages)),
                   MutationObserved(lens.reader, AllBlocks(r.messages)));
  }

  // The kind of failure reported is that of the verification the summary records.
  lemma FailureKindMatches(lens: Lens, hint: bool, cfg: Config, r: RunResult)
    requires !lens.reader.isVerification("")
    ensures var s := Summarize(lens, hint, cfg, Some(r));
      && (s.warning == BroadVerificationFailed ==> s.verification.kind == Broad)
      && (s.warning == HarnessVerificationFailed ==>
            s.verification.kind != Broad && s.verification.ownership == ByHarness)
      && (s.warning == VerificationFailed ==> s.verification.kind != Broad && s.verification.ownership != ByHarness)
      && (IsVerificationFailure(s.warning) ==> s.verification.observed == Some(true))
  {
    if StatusOf(lens.reader, AllBlocks(r.messages)).command == "" {
      SilentScan(lens.reader, AllBlocks(r.messages));
    }
    WarningBySteps(lens, cfg, r, StatusOf(lens.reader, AllBlocks(r.messages)),
                   MutationObserved(lens.reader, AllBlocks(r.messages)));
  }

  lemma PlanCases(asks: bool, warning: Warning, observed: Option<bool>)
    ensures var plan := RetryPlan(asks, warning, observed);
      var closed := warning == ScopeDrift || warning == BroadVerificationFailed || warning == HarnessVerificationFailed;
      && (plan.decision == RetrySmallerScope <==> !asks && warning != NoWarning && !closed)
      && (plan.decision == RunVerification <==> !asks && warning == NoWarning && observed == Some(false))
      && plan.reason == match plan.decision {
                          case RetrySmallerScope => Because(warning)
                          case RunVerification => HintNotObserved
                          case NoDecision => NoReason
                        }
  {
  }

  lemma SummaryPlan(lens: Lens, hint: bool, cfg: Config, r: RunResult)
    ensures var s := Summarize(lens, hint, cfg, Some(r));
      && s.plan == RetryPlan(s.userInputRequired, s.warning, s.verification.observed)
      && (s.verification.observed == Some(false) <==> hint && s.verification.command == "")
  {
  }

  // The plan, exactly: a smaller scope for a warning that does not fail closed, verification where
  // a hint asked for it, nothing is warned of and none was seen, and no plan otherwise or while the
  // user is asked.
  lemma PlanIsExact(lens: Lens, hint: bool, cfg: Config, r: RunResult)
    ensures var s := Summarize(lens, hint, cfg, Some(r));
      && (s.plan.decision == RetrySmallerScope <==>
            (!s.userInputRequired && s.warning != NoWarning && s.warning != ScopeDrift
             && s.warning != BroadVerificationFailed && s.warning != HarnessVerificationFailed))
      && (s.plan.decision == RunVerification <==>
            !s.userInputRequired && s.warning == NoWarning && hint && s.verification.command == "")
      && s.plan.reason == match s.plan.decision {
                            case RetrySmallerScope => Because(s.warning)
                            case RunVerification => HintNotObserved
                            case NoDecision => NoReason
                          }
  {
    var s := Summarize(lens, hint, cfg, Some(r));
    SummaryPlan(lens, hint, cfg, r);
    PlanCases(s.userInputRequired, s.warning, s.verification.observed);
  }

  predicate ReportsNew(r: FooterParser.Receipt) {
    r.status == "new_diagnostics_found" || r.newCount > 0
  }

  lemma ReportedByReceipt(observed: seq<FooterParser.Receipt>, ms: seq<Option<MutationFooter.Mutation>>,
                          receipts: seq<FooterParser.Receipt>)
    requires receipts == DiagnosticRoutes.CombinedReceipts(observed,
      DiagnosticRoutes.StructuredReceipts(DiagnosticRoutes.LatestPerPath(ms)))
    requires DiagnosticRoutes.ReportsNewDiagnostics(receipts)
    ensures exists i :: 0 <= i < |receipts| && ReportsNew(receipts[i])
                        && (DiagnosticRoutes.LatestPerPath(ms) != [] ==> receipts[i].tool != FooterParser.VERIFIER)
  {
    var i :| 0 <= i < |receipts| && ReportsNew(receipts[i]);
    if DiagnosticRoutes.LatestPerPath(ms) != [] {
      DiagnosticRoutes.StructuredReplacesParsed(observed, ms, receipts[i]);
    }
  }

  // New diagnostics are reported only on a receipt that reports them. When the run brought
  // structured mutations, that receipt is one of theirs or comes from another tool than the
  // verifier: what the footer's text says no longer counts.
  lemma NewDiagnosticsHaveReceipt(lens: Lens, hint: bool, cfg: Config, r: RunResult)
    ensures var s := Summarize(lens, hint, cfg, Some(r));
      s.warning == NewDiagnosticsFound ==>
        exists i :: 0 <= i < |s.receipts| && ReportsNew(s.receipts[i])
                    && (DiagnosticRoutes.LatestPerPath(r.mutations) != [] ==>
                          s.receipts[i].tool != FooterParser.VERIFIER)
  {
    WarningBySteps(lens, cfg, r, StatusOf(lens.reader, AllBlocks(r.messages)),
                   MutationObserved(lens.reader, AllBlocks(r.messages)));
    if DiagnosticRoutes.ReportsNewDiagnostics(ReceiptsOf(lens, r)) {
      ReportedByReceipt(ObservedReceipts(lens, r.messages), r.mutations, ReceiptsOf(lens, r));
    }
  }

  // Block i is the accepted result of a question to the user.
  ghost predicate IsQuestion(lens: Lens, blocks: seq<Block>, i: int) {
    && ToolReceipts.ResultOf(blocks, i, ASK_USER)
    && lens.controlReceipt(blocks[i].content) == Some(ControlReceipt(ASK_USER, REQUEST))
  }

  lemma ControlIsRead(lens: Lens, name: string, output: string, x: ControlReceipt)
    ensures x in ControlReceipts(lens)(name, output) <==>
      x.tool == name && IsControlTool(name) && x.action != "" && lens.controlReceipt(output) == Some(x)
  {
  }

  // The control receipts of a run: those without an empty action that a control tool returned
  // under its own name.
  lemma ControlsAre(lens: Lens, r: RunResult, x: ControlReceipt)
    ensures x in ControlsOf(lens, r) <==>
      IsControlTool(x.tool) && x.action != ""
      && exists i :: ToolReceipts.ResultOf(AllBlocks(r.messages), i, x.tool)
                     && lens.controlReceipt(AllBlocks(r.messages)[i].content) == Some(x)
  {
    var blocks := AllBlocks(r.messages);
    ToolReceipts.ReadsResults(blocks, ControlReceipts(lens), x);
    if x in ControlsOf(lens, r) {
      var i, name :| ToolReceipts.ResultOf(blocks, i, name) && x in ControlReceipts(lens)(name, blocks[i].content);
      ControlIsRead(lens, name, blocks[i].content, x);
    }
    forall i | ToolReceipts.ResultOf(blocks, i, x.tool)
      ensures x in ControlReceipts(lens)(x.tool, blocks[i].content) <==>
        IsControlTool(x.tool) && x.action != "" && lens.controlReceipt(blocks[i].content) == Some(x)
    {
      ControlIsRead(lens, x.tool, blocks[i].content, x);
    }
  }

  lemma HasExactControl(receipts: seq<ControlReceipt>)
    ensures HasControl(receipts, ASK_USER, REQUEST) <==> ControlReceipt(ASK_USER, REQUEST) in receipts
  {
    assert REQUEST != "";
    forall i | 0 <= i < |receipts| && receipts[i].tool == ASK_USER && receipts[i].action == REQUEST
      ensures receipts[i] == ControlReceipt(ASK_USER, REQUEST) && receipts[i] in receipts
    {
    }
  }

  // The user is asked exactly when a call of the question tool returned such a request.
  lemma UserIsAskedExactly(lens: Lens, r: RunResult)
    ensures AsksUser(lens, r) <==> exists i :: IsQuestion(lens, AllBlocks(r.messages), i)
  {
    HasExactControl(ControlsOf(lens, r));
    assert IsControlTool(ASK_USER) && REQUEST != "";
    ControlsAre(lens, r, ControlReceipt(ASK_USER, REQUEST));
    forall i ensures IsQuestion(lens, AllBlocks(r.messages), i) <==>
      (ToolReceipts.ResultOf(AllBlocks(r.messages), i, ASK_USER)
       && lens.controlReceipt(AllBlocks(r.messages)[i].content) == Some(ControlReceipt(ASK_USER, REQUEST)))
    {
    }
  }

  // The receipts observed in the messages: those code_symbols returned, under its own name or
  // under none, and those of the footers.
  lemma ObservedReceiptsAre(lens: Lens, messages: seq<Message>, x: FooterParser.Receipt)
    ensures x in ObservedReceipts(lens, messages) <==>
      || x in FooterScan.FooterReceipts(lens.reader, messages)
      || (x.tool == "code_symbols"
          && exists i :: (ToolReceipts.ResultOf(AllBlocks(messages), i, "code_symbols")
                          && lens.symbolReceipt(AllBlocks(messages)[i].content).Some?
                          && var y := lens.symbolReceipt(AllBlocks(messages)[i].content).value;
                             (y.tool == "" || y.tool == "code_symbols") && x == y.(tool := "code_symbols")))
  {
    var blocks, read := AllBlocks(messages), SymbolReceipts(lens);
    ToolReceipts.ReadsResults(blocks, read, x);
    if i, name :| ToolReceipts.ResultOf(blocks, i, name) && x in read(name, blocks[i].content) {
      assert name == "code_symbols";
    }
    forall i | ToolReceipts.ResultOf(blocks, i, "code_symbols") && lens.symbolReceipt(blocks[i].content).Some?
      ensures x in read("code_symbols", blocks[i].content) <==>
        var y := lens.symbolReceipt(blocks[i].content).value;
        (y.tool == "" || y.tool == "code_symbols") && x == y.(tool := "code_symbols")
    {
    }
  }

  // The edits of a summary: whether one was asked for and, when it was or one was seen, whether one
  // took effect; and the paths written, each once, in order.
  lemma EditsAre(lens: Lens, hint: bool, cfg: Config, r: RunResult)
    ensures var e, blocks := Summarize(lens, hint, cfg, Some(r)).edits, AllBlocks(r.messages);
      var asked := TrimSpace(Join(UserTexts(r.messages), '\n'));
      && (e.intent <==> asked != "" && lens.saysEdit(asked))
      && (e.observed.Some? <==> e.intent || SomethingChanged(lens.reader, blocks))
      && (e.observed.Some? ==> (e.observed.value <==> SomethingChanged(lens.reader, blocks)))
      && Ordering.StrictlySorted(e.scope.mutated)
      && forall y :: y in e.scope.mutated <==> y in MutatedSet(lens.reader, blocks)
  {
    ObservedMeansEffect(lens.reader, AllBlocks(r.messages));
  }

  lemma SymbolHintsAre(lens: Lens, blocks: seq<Block>, h: HintParser.Hint)
    ensures h in ToolReceipts.ReadResults(blocks, SymbolHints(lens)) <==>
      exists i :: ToolReceipts.ResultOf(blocks, i, "code_symbols") && h in lens.symbolHints(blocks[i].content)
  {
    ToolReceipts.ReadsResults(blocks, SymbolHints(lens), h);
    if i, name :| ToolReceipts.ResultOf(blocks, i, name) && h in SymbolHints(lens)(name, blocks[i].content) {
      assert name == "code_symbols";
    }
    forall i | ToolReceipts.ResultOf(blocks, i, "code_symbols") && h in lens.symbolHints(blocks[i].content)
      ensures h in SymbolHints(lens)("code_symbols", blocks[i].content)
    {
    }
  }

  lemma SymbolIsOwn(lens: Lens, name: string, output: string, x: FooterParser.Receipt)
    requires x in SymbolReceipts(lens)(name, output)
    ensures x.tool == "code_symbols"
  {
    var found := SymbolReceipt(lens.symbolReceipt(output));
    assert SymbolReceipts(lens)(name, output) == if name == CODE_SYMBOLS then found else [];
    assert forall i :: 0 <= i < |found| ==> found[i].tool == CODE_SYMBOLS;
  }

  lemma SymbolReceiptsAreOwn(lens: Lens, blocks: seq<Block>)
    ensures forall x :: x in ToolReceipts.ReadResults(blocks, SymbolReceipts(lens)) ==> x.tool == "code_symbols"
  {
    var read := SymbolReceipts(lens);
    forall x: FooterParser.Receipt | x in ToolReceipts.ReadResults(blocks, read) ensures x.tool == "code_symbols" {
      ToolReceipts.ReadsResults(blocks, read, x);
      var i, name :| ToolReceipts.ResultOf(blocks, i, name) && x in read(name, blocks[i].content);
      SymbolIsOwn(lens, name, blocks[i].content, x);
    }
  }

  // Those of code_symbols come first.
  lemma FooterReceiptsComeLast(lens: Lens, messages: seq<Message>)
    ensures var observed, parsed := ObservedReceipts(lens, messages), FooterScan.FooterReceipts(lens.reader, messages);
      && |parsed| <= |observed| && observed[|observed| - |parsed|..] == parsed
      && forall i :: 0 <= i < |observed| - |parsed| ==> observed[i].tool == "code_symbols"
  {
    var own := ToolReceipts.ReadResults(AllBlocks(messages), SymbolReceipts(lens));
    SymbolReceiptsAreOwn(lens, AllBlocks(messages));
    assert forall i :: 0 <= i < |own| ==> own[i] in own;
  }

  // A hint that the messages bring: code_symbols returned it, or a footer prints it.
  ghost predicate IsObservedHint(lens: Lens, messages: seq<Message>, h: HintParser.Hint) {
    || h in FooterScan.FooterHints(lens.reader, messages)
    || exists i :: ToolReceipts.ResultOf(AllBlocks(messages), i, "code_symbols")
                   && h in lens.symbolHints(AllBlocks(messages)[i].content)
  }

  // The hints observed in the messages are tidied ones of those, and while there are fewer than
  // three of them, every usable one is among them under its key.
  lemma ObservedHintsAre(lens: Lens, messages: seq<Message>)
    ensures var found := ObservedHints(lens, messages);
      && (forall h :: h in found ==> exists g :: IsObservedHint(lens, messages, g) && h == HintParser.Tidy(g))
      && (|found| < 3 ==> forall g :: IsObservedHint(lens, messages, g) && HintRoutes.Usable(HintParser.Tidy(g)) ==>
            exists h :: h in found && HintParser.HintKey(h) == HintParser.HintKey(HintParser.Tidy(g)))
  {
    var read := ToolReceipts.ReadResults(AllBlocks(messages), SymbolHints(lens));
    var all := read + FooterScan.FooterHints(lens.reader, messages);
    forall g ensures g in all <==> IsObservedHint(lens, messages, g) {
      SymbolHintsAre(lens, AllBlocks(messages), g);
    }
    HintRoutes.NormalizedHints(all);
    forall h | h in ObservedHints(lens, messages)
      ensures exists g :: IsObservedHint(lens, messages, g) && h == HintParser.Tidy(g)
    {
      var i :| 0 <= i < |all| && h == HintParser.Tidy(all[i]);
      assert all[i] in all;
    }
    forall g | |ObservedHints(lens, messages)| < 3 && g in all && HintRoutes.Usable(HintParser.Tidy(g))
      ensures exists h :: h in ObservedHints(lens, messages)
                          && HintParser.HintKey(h) == HintParser.HintKey(HintParser.Tidy(g))
    {
      HintRoutes.NothingIsDropped(all, g);
    }
  }

  // The hints of a summary: at most three, with distinct keys, and once there are structured
  // receipts none of them read from the footer.
  lemma SummaryHintsAre(lens: Lens, hint: bool, cfg: Config, r: RunResult)
    ensures var hints := Summarize(lens, hint, cfg, Some(r)).hints;
      && |hints| <= 3 && HintRoutes.DistinctKeys(hints)
      && (forall h :: h in hints ==> HintRoutes.Usable(h))
      && (DiagnosticRoutes.LatestPerPath(r.mutations) != [] ==> HintRoutes.NoneParsed(hints))
  {
    HintRoutes.NormalizedSources(ToolReceipts.ReadResults(AllBlocks(r.messages), SymbolHints(lens))
                                 + FooterScan.FooterHints(lens.reader, r.messages));
    HintRoutes.CombinedHintsAre(ObservedHints(lens, r.messages), r.mutations);
  }
}
