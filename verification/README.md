# Elnath: verified models of the scheduler, the mutation verifier, the completion contract and plan mode

Elnath is an agent runtime. This project models four linked parts of it and proves what they
promise. `dafny verify dfyconfig.toml` checks all of it.

**The tool-call scheduler.** Every call of a response is checked, then the approved ones are cut
greedily into batches; the members of a batch run in parallel, batches run in order. `PathNames` and
`ToolScopes` show what the string tests on paths decide, `GreedyCuts` and `Batching` that the cut is
the shortest possible, `Interleaving` that every interleaving of the batches is equivalent to running
the list one call at a time, and `BatchExecution` which result slots a run fills and which error it
reports. `SlotResults` joins the two: every interleaving leaves the slots of the sequential run.
`Responses` puts the check in front: every call of a response gets one answer.

A call is any deterministic process over a store of path-named locations. Two things are hypotheses
on the tools: a call touches only what its scope declares (`Interleaving.Confined`), and a call
declared concurrency-safe writes nothing. They are about the file and network tools, whose code is
not part of this model. Three tools that are part of it do not meet them. `enter_plan_mode` and
`exit_plan_mode` declare an empty scope and set the permission mode, which no scope names: they share
batches (`Responses.PlanToolsShareBatches`) and do not commute (`Responses.PlanToolsDoNotCommute`).
`runtime_command` is declared concurrency-safe and can write (`Responses.RuntimeCommandCanWrite`).
What these three do in a response is stated by `Responses.EscapesExactly` and
`Responses.PlanModeHolds`, which assume neither hypothesis.

**The mutation verifier's footer.** One package prints verified disk changes as text
(`MutationFooter`), another parses them back (`FooterParser`, `HintParser`). `FooterRoundTrip` gives
the exact condition under which a line's receipt survives, and the inverse law for whole footers;
`HintRoundTrip` does the same for the repair hints; `DiagnosticRoutes` and `HintRoutes` compare what
is parsed with what is built from structured data. `FooterScan` finds the footers in a transcript,
and `AgentTurns` follows them from the turn that prints them to the scan that reads them, over whole
transcripts. `Text` and `Decimal` hold the string functions involved.

**The completion contract and its correction loop.** `Transcript` scans a transcript through
pending-id maps, and relates each scan to the history of events it summarises; `ToolReceipts` reads
the receipts tools return in their own output. `CompletionSummary` turns a finished run into one
warning and a retry plan, and says of each warning exactly when a run earns it
(`CompletionSummary.WarningIsExact`); `ScopePaths` keeps the sorted path sets and the scope test behind it.
`RetryLoop` is the bounded loop with its attempt log; `RetryRuns` states what every run of it keeps,
for arbitrary answers of the workflow, of the verification executor and of the changed-file snapshots
(`Iteration` is the general shape of such a run). `ScopeRuns` follows the scope record along those
runs.

**Plan mode.** `PlanMode` is the permission engine and the controller that switches it;
`RuntimeCommands` is the read-only gate in front of the slash commands and the handlers behind it.
`Responses` follows whole runs of responses: in plan mode nothing changes the runtime's settings, with
one exception that is stated exactly. `Staging` says which calls can run while a mode is on that other
calls of the same response switch.

## Results that go against the text of the program

- The parser lets a later `key=value` token overwrite an earlier one, so free text at the end of a
  footer line can change a receipt. `FooterRoundTrip.LineRoundTrip` says exactly when it does not;
  `FooterRoundTrip.ErrorTextCanChangeCounts` is an error text that does.
- The two routes to a receipt agree only on comparable lists; `DiagnosticRoutes.RoutesAgree` gives
  the exact condition. They part whenever one file is edited twice in a turn: the footer reports
  both edits, the structured route only the last (`DiagnosticRoutes.EditedTwiceDisagrees`, with
  `DiagnosticRoutes.EditedTwiceExample` as an input).
- `normalizeCompletionScopePath` is idempotent exactly on the paths named by
  `ScopePaths.IdempotentExactly`: blank ones, and those that stay relative once stripped and whose
  outer names carry no blank. A second leading slash (`ScopePaths.DoubleSlashDoesNotSettle`) and a
  blank behind the first one (`ScopePaths.HiddenBlankDoesNotSettle`) are the two ways to miss it.
  On exactly those paths the incremental scope record is the recomputed one
  (`ScopePaths.IncrementalIsRecomputed`).
- The comment above `Permission` says that the allow list always allows, and the one above
  `ModeDefault` that the prompter is asked for tools that are not read-only. The code looks at
  bypass and at dangerous bash commands before the allow list, and the default mode prompts for
  read-only tools as well. `PlanMode.AllowListRule` and `PlanMode.DefaultModeRule` say exactly when
  the two sentences hold; `PlanMode.AllowListedCanBeRefused` and `PlanMode.ReadOnlyCanBeRefused` are
  calls for which they do not.
- Plan mode is meant to let only read-only tools through, but a response is checked as a whole before
  any of its calls runs. A call checked under the old mode can run after an enter of the same
  response. `Responses.EscapesExactly` says exactly which calls can, `Responses.EnterThenEdit` is a
  response with one.
- The read-only gate compares with `EqualFold`, the handlers with `ToLower`. They differ on the long
  s (U+017F): `/model` and `/plan` accept "status" spelled with it and then change state.
  `RuntimeCommands.GateIsSound` says that this is the only failure,
  `RuntimeCommands.ToolIsHarmlessExactly` carries it to the tool, and `RuntimeCommands.PlanModeStep`
  shows that in plan mode it can set the model and nothing else.

## Model

| member | source | states |
|---|---|---|
| PathNames.CleanIsIdempotent | internal/agent/executor.go:110-123 | Cleaning any path twice changes nothing, and the second cleaning reads the same names. |
| PathNames.ComponentsOfChild | internal/agent/executor.go:110-123 | One more step behind a path: a name descends, nothing and a dot stay, and two dots climb, except above the root; a relative path goes on above its start. |
| PathNames.ParentTest | internal/agent/executor.go:125-137 | The two string tests on a relative path decide whether it starts with a parent step. |
| PathNames.SlashPrefixIsListPrefix | cmd/elnath/runtime_completion_observability.go:1972-1979 | On all strings, "equal, or starting with the scope and a slash" is the prefix order on slash-separated names. |
| ToolScopes.HasPathPrefixIsListPrefix | internal/agent/executor.go:125-137 | The test on the relative path is the prefix order on cleaned name lists. |
| ToolScopes.PathsIntersectExactly | internal/agent/executor.go:110-137 | Absolute paths overlap exactly when one cleaned name list is a prefix of the other. |
| ToolScopes.RelativePathsIntersectEverything | internal/agent/executor.go:110-119 | Empty and relative paths overlap everything. |
| ToolScopes.PathsIntersectSymmetric | internal/agent/executor.go:110-123 | Overlap is symmetric for all strings. |
| ToolScopes.DisjointPathsShareNoLocation | internal/agent/executor.go:110-137 | A negative answer separates: no location lies under both paths. |
| ToolScopes.PathsIntersectMeans | internal/agent/executor.go:110-137 | Two paths overlap exactly when some location lies under both. |
| ToolScopes.DisjointScopesSeparate | internal/agent/executor.go:86-108 | With disjoint scopes, what one call may write the other may not even read. |
| ToolScopes.ScopeDisjointExactly | internal/agent/executor.go:86-108 | Scopes are disjoint exactly when neither is conservative and no location that one may write may be read or written under the other. |
| ToolScopes.ScopeDisjointSymmetric | internal/agent/executor.go:86-108 | Disjointness of scopes is symmetric. |
| GreedyCuts.GreedyIsMinimal | internal/agent/executor.go:43-77 | No compatible cut of a list has fewer batches than a greedy cut of any of its suffixes. |
| GreedyCuts.GreedyIsOptimal | internal/agent/executor.go:43-77 | No compatible contiguous cut has fewer batches than the greedy one. |
| Batching.PartitionToolCalls | internal/agent/executor.go:43-77 | The batches concatenate to the approved list, are pairwise compatible, close only when the next call does not fit, and are as few as possible. |
| Batching.RunTogetherExactly | internal/agent/executor.go:43-84 | Two approved calls may share a batch exactly when both tools are known and declare the call safe, or both are known, neither scope is conservative and nothing one may write may be touched by the other. |
| Batching.CanRunTogetherSymmetric | internal/agent/executor.go:79-84 | Compatibility does not depend on the order of the two calls. |
| Batching.ConservativeCallRunsAlone | internal/agent/executor.go:79-97 | A call that is not concurrency-safe and has the conservative scope is alone in its batch. |
| Batching.UnregisteredCallRunsAlone | internal/agent/executor.go:51-56 | A call to a tool the registry does not know is alone in its batch. |
| Interleaving.StepsCommute | internal/agent/executor.go:79-84 | Steps of independent calls commute. |
| Interleaving.BatchIsSerializable | internal/agent/executor.go:139-232 | Any interleaving of one batch equals running its calls one by one, each for as many steps. |
| Interleaving.RunIsSerializable | internal/agent/executor.go:31-68 | When every call finishes, every interleaving of all batches ends with the store and outputs of every sequential run in list order. |
| Interleaving.EnoughTurnsFinish | internal/agent/executor.go:139-232 | An interleaving that grants each call its sequential number of steps finishes every call, with the sequential result. |
| BatchExecution.ExecuteToolBatch | internal/agent/executor.go:139-232 | Each call that does not cancel fills exactly its own slot. There is no fatal error exactly when every call that asks for its siblings to be cancelled returned a result that is present and no error; otherwise the error is that of the first such call, in finishing order, and says the error's text or the trimmed output of its error result. |
| BatchExecution.ExecuteApprovedToolCalls | internal/agent/executor.go:31-41 | Without a fatal error every approved slot is filled once; with one, it comes from the last batch that started and no later slot is touched. There is none exactly when every approved call to a tool that cancels its siblings succeeds. |
| BatchExecution.SlotsCarryTheirCalls | internal/agent/executor.go:165-226 | A filled slot holds the id and name of its own call, and what the hooks made of its result, its error or its missing result; or the finalizer's error. |
| BatchExecution.FatalErrorNamesItsCall | internal/agent/executor.go:196-213 | A fatal error names a call that asks for its siblings to be cancelled and did not succeed, and says how it failed. |
| SlotResults.InterleavingFillsSequentialSlots | internal/agent/executor.go:139-232 | When every call finishes and none cancels its siblings, the slots any interleaving of any compatible cut leaves are those of running the approved list one call at a time; that run finishes and cancels nothing either. |
| SlotResults.InterleavingsFillTheSameSlots | internal/agent/executor.go:31-68 | Two interleavings, even of different compatible cuts, leave the same slots, and if no call cancels in the one, none does in the other. |
| Staging.MeetsExactly | internal/agent/executor.go:31-41 | When batches run in order and their members in any order, a call can run while a mode is on exactly when another call switches it on, starts no later, and nothing that switches it off lies in a batch strictly between. |
| Staging.OrdersExtend | internal/agent/executor.go:31-41 | Every order in which calls have started goes on to one that runs all of them. |
| Responses.CollectApprovedToolCalls | internal/agent/agent.go:843-881 | Gives up exactly when some prompter fails, or the hook of a call the engine approves. Otherwise lists exactly the calls that the engine approves and whose hook passes, in order, and answers every other call under its own id with the refusal of the engine or of its hook. |
| Responses.ApprovedInOrder | internal/agent/agent.go:843-881 | The approved calls are exactly those accepted, in the order of the response. |
| Responses.ExecuteTools | internal/agent/agent.go:813-826 | There is no answer exactly when the check gives up or a call that runs cancels its siblings and does not succeed. Otherwise every call of the response gets exactly one answer, in order and under its own id: the refusal of the check, or its own result. |
| Decimal.ParsePrintedInt | cmd/elnath/runtime_completion_observability.go:936-942 | Reading a printed 64-bit integer gives it back. |
| Decimal.AtoiReads | cmd/elnath/runtime_completion_observability.go:936-942 | A number is read digit by digit with one sign or none, and is none when it is out of range. |
| Decimal.NoNumberIsZero | cmd/elnath/runtime_completion_observability.go:936-942 | What is no number counts as zero: nothing, a sign alone, or a character that is no digit. |
| Decimal.SignedReadsBack | internal/agent/mutation_footer.go:20-30 | A printed line delta always shows its sign, and reads back. |
| MutationFooter.FilterMutationRecords | internal/agent/mutation_footer.go:66-78 | Keeps exactly the records with an operation or a path, in order. |
| MutationFooter.WriteDiagnostics | internal/agent/mutation_footer.go:44-56 | Writes one numbered segment for each of the first three diagnostics, the error cut at 96 bytes. |
| MutationFooter.WriteLine | internal/agent/mutation_footer.go:20-61 | Writes one record's line token by token as the line function lays it out. |
| MutationFooter.FormatMutationVerifierFooter | internal/agent/mutation_footer.go:12-64 | Prints header, one line per kept record and trailer; nothing when no record is kept. |
| MutationFooter.CompactErrorFits | internal/agent/mutation_footer.go:96-108 | A printed error is non-empty, without line break or tab; it is the flattened text when that has at most 96 bytes, and otherwise its whole characters within 96 bytes, one replacement for each stray byte of a cut character, and an ellipsis. |
| MutationFooter.CompactKeepsShortErrors | internal/agent/mutation_footer.go:96-108 | A trimmed error of at most 96 bytes on one line is printed unchanged. |
| FooterParser.CompletionKeyValueFields | cmd/elnath/runtime_completion_observability.go:920-934 | Computes the map of the tokens in which later ones overwrite earlier ones. |
| FooterParser.GetIsLastValue | cmd/elnath/runtime_completion_observability.go:920-934 | Looking a key up in that map reads the last token that defines it. |
| FooterParser.PrintedToken | cmd/elnath/runtime_completion_observability.go:920-934 | A printed token is one word that defines its key with its value. |
| FooterParser.ReadLine | cmd/elnath/runtime_completion_observability.go:806-840 | Reads one line as a receipt, or nothing where the parser moves on. |
| FooterParser.ReadExactly | cmd/elnath/runtime_completion_observability.go:806-826 | A line gives a receipt exactly when it is an item of at least two words whose last diagnostics token after those has a value that is not blank. |
| FooterParser.MutationVerifierDiagnosticReceiptsFromText | cmd/elnath/runtime_completion_observability.go:800-845 | Yields the receipts of the lines of a text with the header, in order: a receipt is found exactly when the text starts with the header and one of its lines gives it. |
| FooterRoundTrip.LineReadsBack | cmd/elnath/runtime_completion_observability.go:806-820 | Each key of a printed line reads as the last free-text token that defines it, or else as printed. |
| FooterRoundTrip.EvidenceReadsBack | internal/agent/mutation_footer.go:20-33 | The printed flags, line counts, line delta and hashes read back under their keys wherever the free text does not redefine them; no hash is printed exactly when there is none. |
| FooterRoundTrip.FamilyReadsBack | internal/agent/mutation_footer.go:20-60 | The first two words of a printed line are operation and path, and a failure family of one word reads back whatever the free text before it. |
| FooterRoundTrip.LineRoundTrip | cmd/elnath/runtime_completion_observability.go:806-840 | A printed line gives its receipt back exactly when no free-text token redefines one of the five keys with another value. |
| FooterRoundTrip.FooterIsReadByLine | cmd/elnath/runtime_completion_observability.go:800-845 | Parsing a footer parses its lines and nothing of its frame. |
| FooterRoundTrip.FooterRoundTrips | internal/agent/mutation_footer.go:12-64 | With whitespace-free fields, one-line sources and free text that redefines none of the five keys, parsing a printed footer yields one receipt per record with a status, in order, with path, status, language and counts. |
| FooterRoundTrip.ErrorTextCanChangeCounts | internal/agent/mutation_footer.go:44-59 | An error text ending in a token keyed "new" changes the parsed count. |
| FooterScan.ObservedMutationVerifierDiagnosticReceipts | cmd/elnath/runtime_completion_observability.go:733-767 | Computes the receipts of the footers the scan finds. |
| FooterScan.ObservedMutationVerifierDiagnosticRepairHints | cmd/elnath/runtime_completion_observability.go:769-798 | Computes the normalised hints of those footers. |
| FooterScan.FootersFollowSuccess | cmd/elnath/runtime_completion_observability.go:733-767 | The scan reads exactly the user messages that directly follow a message with the successful result of an open mutating use, in order. |
| AgentTurns.AppendToolResult | internal/llm/toolconv.go:10-31 | Adds a result to the last message exactly if that is the user's and holds results, and starts a new one otherwise. |
| AgentTurns.AppendToolResults | internal/agent/agent.go:883-899 | Appends the results that have an id, then the footer of their mutations when there is one. |
| AgentTurns.NamelessLeaveNothing | internal/agent/agent.go:883-899 | Results without an id leave no trace in the transcript, neither a block nor a record in the footer. |
| AgentTurns.ExchangeShape | internal/agent/agent.go:883-899 | An exchange whose calls have ids appends the response, one message with all results, and the footer. |
| AgentTurns.SucceedsExactly | cmd/elnath/runtime_completion_observability.go:745-760 | When the results answer the calls of their own response, the exchange counts as a change exactly when one of its mutating calls came back without an error and not as a no-op. |
| AgentTurns.TranscriptIsRead | cmd/elnath/runtime_completion_observability.go:733-798 | From a transcript of any number of exchanges the scan reads the footers of those that count as a change, in order, and nothing else. |
| AgentTurns.TranscriptGivesReceipts | internal/agent/agent.go:883-899 | When every exchange with records counts as a change and the records print as lines that keep their receipts, the scan gives one receipt per record with a status of the whole transcript, in order. |
| HintParser.HintHasText | cmd/elnath/runtime_completion_observability.go:899-918 | A value gives a hint only with an error text and on a line with a path. |
| HintParser.FindNextValue | cmd/elnath/runtime_completion_observability.go:871-893 | Finds the next segment's value and where the search goes on. |
| HintParser.DiagnosticRepairHintsFromNewDiagFields | cmd/elnath/runtime_completion_observability.go:868-897 | Collects the hints of all segments of a line. |
| HintParser.NormalizeCompletionDiagnosticRepairHints | cmd/elnath/runtime_completion_observability.go:1049-1089 | Keeps the first three tidied hints with distinct keys, guidance filled in. |
| HintParser.MutationVerifierDiagnosticRepairHintsFromText | cmd/elnath/runtime_completion_observability.go:847-866 | Yields the normalised hints of all lines of a text with the header. |
| HintRoundTrip.ValueRoundTrip | cmd/elnath/runtime_completion_observability.go:899-918 | A printed value reads back with source, line, column and compacted error exactly when its source holds no colon. |
| HintRoundTrip.SegmentRoundTrip | cmd/elnath/runtime_completion_observability.go:871-893 | A printed segment is cut out whole exactly when its value holds no stop marker. |
| HintRoundTrip.LineHintsRoundTrip | cmd/elnath/runtime_completion_observability.go:868-897 | When no text of a line but its segment labels can be taken for a label or a stop marker and sources hold no colon, searching the printed line yields its printed diagnostics in order. |
| HintRoundTrip.KeyIsInjective | cmd/elnath/runtime_completion_observability.go:1070-1076 | Without NUL characters before the error the joined key tells hints apart. |
| HintRoundTrip.NormalizeIsFirstDistinct | cmd/elnath/runtime_completion_observability.go:1049-1089 | Normalising hints that tidying completes gives the first three distinct tidied ones. |
| HintRoundTrip.FooterHintsRoundTrip | internal/agent/mutation_footer.go:44-59 | Under that condition on every line, and with paths that normalise at once, searching a printed footer gives the first three distinct printed diagnostics, with path, line, column, source, compacted error, suggested tools and stop condition. |
| LatestByKey.LatestInOrder | cmd/elnath/runtime_completion_observability.go:684-714 | The loop over a map and an order list keeps the latest item of each key. |
| LatestByKey.LatestPerKeyKeepsLast | cmd/elnath/runtime_completion_observability.go:684-714 | What is kept is exactly the last item of every key, each once, in the order in which keys first appear. |
| DiagnosticRoutes.LatestDiagnosticMutationsByPath | cmd/elnath/runtime_completion_observability.go:684-714 | Keeps exactly the last eligible mutation of each path, in first-seen path order. |
| DiagnosticRoutes.OneKeyPerFile | cmd/elnath/runtime_completion_observability.go:684-714 | Two mutations whose paths have a normal form are filed under one key exactly when the normal forms are equal. |
| DiagnosticRoutes.DiagnosticDeltaReceiptsFromMutations | cmd/elnath/runtime_completion_observability.go:628-657 | Builds one receipt from each mutation kept. |
| DiagnosticRoutes.SameReceipt | cmd/elnath/runtime_completion_observability.go:635-652 | Both routes give a record with a path the same receipt exactly when it has a language. |
| DiagnosticRoutes.EligiblesArePrinted | cmd/elnath/runtime_completion_observability.go:690-700 | Every eligible mutation is a printed record with a status, and all such records are eligible exactly when they are changed and have a path. |
| DiagnosticRoutes.RoutesAgree | cmd/elnath/runtime_completion_observability.go:628-714 | Parsed and structured receipts agree, up to tool and policy names, exactly when the printed records with a status are changed, have path and language, and differ in path. |
| DiagnosticRoutes.EditedTwiceDisagrees | cmd/elnath/runtime_completion_observability.go:684-714 | For every two records of one path with a status, whose lines keep their receipts, the two routes differ. |
| DiagnosticRoutes.EditedTwiceExample | cmd/elnath/runtime_completion_observability.go:684-714 | Two clean edits of one file, whatever its content hashes, are such an input. |
| DiagnosticRoutes.CombineReceipts | cmd/elnath/runtime_completion_observability.go:343-352 | Without structured receipts the observed ones are unchanged; with some, exactly those not of the verifier and the structured ones are left. |
| DiagnosticRoutes.StructuredReplacesParsed | cmd/elnath/runtime_completion_observability.go:716-731 | After that no receipt of the verifier is left, and exactly the other observed and the structured ones are. |
| DiagnosticRoutes.DiagnosticDeltaReceiptsContainNewDiagnostics | cmd/elnath/runtime_completion_observability.go:1108-1115 | Answers whether some receipt reports new diagnostics. |
| AgentTurns.TranscriptRoutesAgree | cmd/elnath/runtime_completion_observability.go:733-767 | Over such a transcript the receipts read from it agree with those built from all recorded mutations exactly on comparable records. |
| HintRoutes.DiagnosticRepairHintsFromMutations | cmd/elnath/runtime_completion_observability.go:659-682 | Builds the normalised hints of the mutations kept. |
| HintRoutes.StructuredHintsAre | cmd/elnath/runtime_completion_observability.go:659-682 | The structured hints come from the diagnostics of the mutations kept that count new ones, and while there are fewer than three, from every such diagnostic that gives a usable hint, up to its key. |
| HintRoutes.CombineHints | cmd/elnath/runtime_completion_observability.go:342-353 | Once there are structured receipts, drops the hints read from the footer and adds the structured ones. |
| HintRoutes.SameHint | cmd/elnath/runtime_completion_observability.go:659-682 | Both routes make the same hint of a diagnostic, up to the tool's name, exactly when it has a source and its error survives compaction: the same path, line, column, source, error and guidance. |
| HintRoutes.SameHints | cmd/elnath/runtime_completion_observability.go:659-682 | Of a changed record with a status and a path both routes make the same hints, in order, exactly when it has at most three diagnostics, counts new ones if it has any, and each has a source and an error that survives compaction. |
| HintRoutes.HintRoutesAgree | cmd/elnath/runtime_completion_observability.go:659-682 | The hints read back from a printed footer are the structured ones, up to the tool's name, when lines read back, no file is recorded twice and both routes read the same diagnostics of each record. |
| HintRoutes.CombinedHintsAre | cmd/elnath/runtime_completion_observability.go:342-353 | What is kept: at most three usable hints with distinct keys, none read from the footer once there are structured receipts. |
| HintRoutes.CandidatesAreKept | cmd/elnath/runtime_completion_observability.go:342-353 | Every hint kept is a tidied candidate, and while fewer than three are kept every usable candidate is kept under its key; candidates are the observed hints, or, once there are structured receipts, the structured ones and the observed ones not read from the footer. |
| HintRoutes.NothingIsLost | cmd/elnath/runtime_completion_observability.go:1049-1089 | While fewer than three hints are kept, every usable hint has its key kept. |
| HintRoutes.NormalizeTwice | cmd/elnath/runtime_completion_observability.go:1049-1089 | Normalising hints a second time changes nothing exactly when the paths of the hints kept are canonical. |
| Ordering.OneListing | cmd/elnath/runtime_completion_observability.go:1901-1917 | A set of strings has only one strictly sorted listing, so the walk order of the map does not matter. |
| ScopePaths.CanonicalExactly | cmd/elnath/runtime_completion_observability.go:1919-1932 | The fixed points of normalisation are exactly the non-empty trimmed relative paths without backslash that are their own cleaning, other than the dot. |
| ScopePaths.IdempotentExactly | cmd/elnath/runtime_completion_observability.go:1919-1932 | Normalising twice is normalising once exactly when the path is blank, or is relative once stripped and its cleaned names begin and end without a blank. |
| ScopePaths.DoubleSlashDoesNotSettle | cmd/elnath/runtime_completion_observability.go:1919-1932 | A second leading slash is stripped only by the second normalisation. |
| ScopePaths.HiddenBlankDoesNotSettle | cmd/elnath/runtime_completion_observability.go:1919-1932 | A blank behind the leading slash is trimmed only by the second normalisation. |
| ScopePaths.SlashesAreAlike | cmd/elnath/runtime_completion_observability.go:1919-1932 | Backslashes and slashes stand for one another, and outer blanks do not matter. |
| ScopePaths.RelativeIsCleaned | cmd/elnath/runtime_completion_observability.go:1919-1932 | A trimmed relative path stands for its cleaned names, with or without a leading slash or dot-slash. |
| ScopePaths.NormalizeCompletionScopePaths | cmd/elnath/runtime_completion_observability.go:1901-1917 | The result is strictly sorted and holds exactly the non-empty normal forms of the paths. |
| ScopePaths.MergeIsUnion | cmd/elnath/runtime_completion_diff.go:98-109 | Merging lists the union, strictly sorted. |
| ScopePaths.MatchesByNames | cmd/elnath/runtime_completion_observability.go:1972-1979 | A path matches a scope exactly when the scope's names are a prefix of the path's. |
| ScopePaths.OutOfScopeMutatingPaths | cmd/elnath/runtime_completion_observability.go:1934-1970 | A path is in the result exactly when it is mutated and matches a forbidden scope, or matches no allowed one where there is any; the result is sorted. |
| ScopePaths.OutOfScopeIsFilter | cmd/elnath/runtime_completion_observability.go:1934-1970 | The paths out of scope are exactly the mutated ones that match a forbidden scope, or no allowed one where there is any; of a sorted list they are its filter. |
| ScopePaths.CompletionChangedFilesDelta | cmd/elnath/runtime_completion_diff.go:40-63 | Computes the sorted files of the second snapshot that were not in the first. |
| ScopePaths.DeltaIsDifference | cmd/elnath/runtime_completion_diff.go:40-63 | The delta is exactly after minus before, and empty unless both snapshots are available and of one working directory. |
| ScopePaths.IncrementalIsRecomputed | cmd/elnath/runtime_completion_diff.go:111-123 | Merging changed files into an up-to-date record gives the record recomputed from all mutated paths exactly when normalisation is idempotent on every changed file. |
| ScopeRuns.ScopeStaysUpToDate | cmd/elnath/runtime_completion_diff.go:111-123 | In every state of every run of the correction loop whose paths normalise at once, the out-of-scope files are those a recomputation from all mutated paths gives. |
| Transcript.PendingIsOpen | cmd/elnath/runtime_completion_observability.go:1625-1658 | The pending map holds exactly the uses whose result has not arrived and whose id was not used again. |
| Transcript.ObservedVerificationCommandStatus | cmd/elnath/runtime_completion_observability.go:1625-1658 | The scan returns the status function of the transcript, early return included. |
| Transcript.StatusIsLastEvent | cmd/elnath/runtime_completion_observability.go:1625-1658 | With ids on all verification uses the scan reports the last verification event, failed exactly when that is an error result. |
| Transcript.NoEventNoStatus | cmd/elnath/runtime_completion_observability.go:1625-1658 | Without a verification event it reports nothing. |
| Transcript.ReportsExactly | cmd/elnath/runtime_completion_observability.go:1625-1658 | The scan reports a command exactly when there is a verification event: a bash call that runs a verification command, or the result of one. |
| Transcript.FailsExactly | cmd/elnath/runtime_completion_observability.go:1625-1658 | It reports failure exactly when every verification use has an id and the last verification event is an error result. |
| Transcript.UseWithoutIdEndsScan | cmd/elnath/runtime_completion_observability.go:1640-1642 | The first verification use without an id ends the scan with its command, not failed. |
| Transcript.MutationObservedInMessages | cmd/elnath/runtime_completion_observability.go:1810-1835 | Answers whether some mutating use is shown to have taken effect. |
| Transcript.ObservedMutatingPaths | cmd/elnath/runtime_completion_observability.go:1837-1879 | Lists the mutated paths, strictly sorted. |
| Transcript.ObservedMeansEffect | cmd/elnath/runtime_completion_observability.go:1810-1835 | A mutation is observed exactly when a use of write_file, edit_file or wiki_write, or one that looks mutating, has no id or was answered by a result that is neither an error nor a no-op. |
| Transcript.MutatedMeansEffect | cmd/elnath/runtime_completion_observability.go:1837-1899 | The mutated paths are exactly the non-empty normal forms of the files named by the uses of write_file and edit_file that took effect; the name is the first of the two fields that is not empty. |
| Transcript.PathsMeanObserved | cmd/elnath/runtime_completion_observability.go:1810-1899 | A non-empty list of mutated paths forces edit-observed to be true. |
| ToolReceipts.ObserveToolResults | cmd/elnath/runtime_completion_observability.go:1422-1448 | The scan over remembered tool names computes what the results hold. |
| ToolReceipts.NamesAreLast | cmd/elnath/runtime_completion_observability.go:1422-1448 | The name remembered for an id is that of the last use with it. |
| ToolReceipts.ReadsResults | cmd/elnath/runtime_completion_observability.go:578-604 | Exactly the results without an error are read, each under the tool of the last use with its id. |
| ToolReceipts.ReadsInOrder | cmd/elnath/runtime_completion_observability.go:578-604 | Every block adds what it holds behind what was read before it: a result without an error under its tool's name, and any other block nothing. |
| Transcript.UserMessageText | cmd/elnath/runtime_completion_observability.go:2039-2050 | Joins the non-blank texts of the user messages. |
| Transcript.UserTextsAre | cmd/elnath/runtime_completion_observability.go:2039-2050 | The texts joined are exactly the trimmed non-blank texts of the user's messages. |
| Transcript.FinalAssistantText | cmd/elnath/runtime_completion_observability.go:2061-2069 | Finds the text of the last message of the assistant. |
| Transcript.FinalTextIsLast | cmd/elnath/runtime_completion_observability.go:2061-2069 | The final text is the trimmed text of the last message of the assistant, and empty when there is none. |
| CompletionSummary.SummarizeCompletionContract | cmd/elnath/runtime_completion_observability.go:308-402 | The step-by-step summary equals the one built from the scans of the messages; effort level, mode and reason are those of the run, or else configured, and a run without a result earns no warning and no plan. What the summary means is stated by the rows that follow. |
| CompletionSummary.SummarizeVerification | cmd/elnath/runtime_completion_observability.go:356-378 | Whether verification was seen is open exactly without a hint and a command; class and ownership of a command are those of the policy, or else broad exactly when it looks broad, the harness's exactly when broad. |
| CompletionSummary.WarningIsExact | cmd/elnath/runtime_completion_observability.go:379-400 | Which warning a run earns, in both directions for each, over the transcript: drift; an incomplete answer; a last verification event that is an error result; a claim of success without any verification event; edit intent without a use that took effect; budget exceeded after one; a receipt that reports new diagnostics. |
| CompletionSummary.FailureKindExactly | cmd/elnath/runtime_completion_observability.go:1674-1694 | A reported verification failure is broad exactly when the policy says so or leaves it open and the last command looks broad, and the harness's exactly when it is not broad and the policy says so. |
| CompletionSummary.PlanIsExact | cmd/elnath/runtime_completion_observability.go:1582-1614 | A smaller scope is planned exactly for a warning that does not fail closed, verification exactly without a warning, with a hint and no command seen, and nothing otherwise or while the user is asked; the reason is the warning, or the missing verification. |
| CompletionSummary.EditsAre | cmd/elnath/runtime_completion_observability.go:1785-1879 | Edit intent, whether an edit was observed, and the mutated paths of a summary, in terms of the transcript. |
| CompletionSummary.ObservedReceiptsAre | cmd/elnath/runtime_completion_observability.go:578-604 | The observed receipts are exactly those code_symbols returned, under its own name or none, and those of the footers. |
| CompletionSummary.FooterReceiptsComeLast | cmd/elnath/runtime_completion_observability.go:578-604 | The receipts of the footers stand behind those of code_symbols, in order. |
| CompletionSummary.ObservedHintsAre | cmd/elnath/runtime_completion_observability.go:606-626 | The observed hints are tidied ones of code_symbols or of a footer, and while fewer than three are kept every usable one is kept under its key. |
| CompletionSummary.ControlsAre | cmd/elnath/runtime_completion_observability.go:1422-1448 | The control receipts are exactly those with an action that a control tool returned under its own name. |
| CompletionSummary.CollectWarning | cmd/elnath/runtime_completion_observability.go:379-396 | The cascade of guarded assignments yields exactly the first complaint in order: incomplete answer, failed verification, a claim of verification without a command, edit intent without mutation, budget exceeded after edit intent, new diagnostics. |
| CompletionSummary.ControlToolReceiptsContain | cmd/elnath/runtime_completion_observability.go:404-411 | Answers whether some receipt is of that control tool and, where an action is given, of that action. |
| CompletionSummary.DriftIsExact | cmd/elnath/runtime_completion_observability.go:397-400 | Scope drift is reported exactly when a mutated path matches a forbidden scope, or matches no allowed one where there is any. |
| CompletionSummary.NoMutationMeansNoPaths | cmd/elnath/runtime_completion_observability.go:388-390 | An edit intent without mutation is reported only when no mutated path was seen. |
| CompletionSummary.FailureMeansFailedEvent | cmd/elnath/runtime_completion_observability.go:356-384 | A verification failure is reported only when the last verification event is an error result, and then it is, unless drift or a self-reported incomplete answer comes first. |
| CompletionSummary.FailureKindMatches | cmd/elnath/runtime_completion_observability.go:1674-1694 | The kind of failure reported is that of the recorded verification class and ownership, and the verification was observed. |
| CompletionSummary.NewDiagnosticsHaveReceipt | cmd/elnath/runtime_completion_observability.go:340-350 | New diagnostics are reported only with a receipt in the summary that reports them, and once structured mutations exist that receipt is not one parsed from the footer. |
| CompletionSummary.UserIsAskedExactly | cmd/elnath/runtime_completion_observability.go:354-354 | The user is asked exactly when a result of the question tool, without an error, returned such a request. |
| CompletionSummary.SummaryHintsAre | cmd/elnath/runtime_completion_observability.go:342-353 | The hints of a summary are at most three, usable, with distinct keys, and none is read from the footer once there are structured receipts. |
| RetryLoop.RunSmallerScopeCompletionRetry | cmd/elnath/runtime_completion_retry.go:54-120 | One retry with a smaller scope: its summary, judged status, escalated effort and log entry. |
| RetryLoop.JudgeRetry | cmd/elnath/runtime_completion_retry.go:82-119 | Judging a retry sets status, plan, effort and log entry as one update of the new summary. |
| RetryLoop.RunVerificationCompletionRetry | cmd/elnath/runtime_completion_retry.go:209-278 | One verification attempt with its skipped, failed and successful outcomes. |
| RetryLoop.RunAttempt | cmd/elnath/runtime_completion_retry.go:32-48 | One round of the loop dispatches on the planned decision, and a state with a plan has a result to go on from. |
| RetryLoop.MaybeRunCompletionRetry | cmd/elnath/runtime_completion_retry.go:16-52 | The loop returns the last state of the run; without attempts or without a result it changes nothing. |
| RetryRuns.AttemptIsSound | cmd/elnath/runtime_completion_retry.go:54-189 | Every attempt keeps the log, planning, fail-closed and no-dangling invariants, whatever the outside world answers. |
| RetryRuns.RunIsReachable | cmd/elnath/runtime_completion_retry.go:16-52 | Every state of every run satisfies those invariants and has a result wherever it has a plan. |
| RetryRuns.AttemptsAreBounded | cmd/elnath/runtime.go:732-741 | At most the configured number of attempts run, clamped to two. |
| RetryRuns.LogOnlyGrows | cmd/elnath/runtime_completion_retry.go:182-189 | Each attempt appends exactly one entry, with its number, the planned decision and reason, and the resulting status. |
| RetryRuns.FinalLogIsSound | cmd/elnath/runtime_completion_retry.go:48-51 | The final log is numbered 1..n, only its last entry can be failed or skipped, and it carries the final status. |
| RetryRuns.AttemptsFollowThePlan | cmd/elnath/runtime_completion_observability.go:1582-1614 | Verification runs only without a warning and with verification observed as false; a smaller scope only for a warning that does not fail closed. |
| RetryRuns.NoDanglingRetry | cmd/elnath/runtime_completion_retry.go:82-103 | The loop ends retrying only when the user is asked, and otherwise without a plan, with all attempts used, or failed or skipped. |
| RetryRuns.DriftFailsClosed | cmd/elnath/runtime_completion_retry.go:82-130 | A state with out-of-scope files reports drift, has no plan and is the last; broad and harness failures end the loop too. |
| RetryRuns.RetryOutcome | cmd/elnath/runtime_completion_retry.go:71-119 | A smaller-scope attempt fails exactly on a workflow error, a fail-closed warning or a warning left by the last attempt, succeeds exactly without a warning, is skipped without a workflow, and logs its failure family, warning, changed and out-of-scope files. Its summary is that of its own run alone, hinted when the previous one was or had verification at issue, with the changed files added to its scope. |
| RetryRuns.VerificationIsLast | cmd/elnath/runtime_completion_retry.go:209-267 | A verification attempt is always the last. It succeeds exactly with a command, an executor and no failure, is skipped exactly without a command or an executor, and otherwise fails with the family of the executor or of the command's class and ownership; command, classification and log entry are stated too. |
| RetryRuns.EscalationsAreApart | cmd/elnath/runtime_completion_retry.go:191-207 | Manual mode never escalates, and no two consecutive attempts both do. |
| RetryRuns.EscalationSetsManual | cmd/elnath/runtime_completion_retry.go:62-108 | An escalating attempt that runs leaves manual mode with the raised level and its reason; one that does not run leaves the effort as it was. |
| RetryRuns.EscalationRaises | cmd/elnath/runtime_completion_retry.go:191-207 | Effort is escalated exactly when the provider can use it and the mode is not manual. The level below the highest is raised to the highest, any lower level to the one below it, and the highest is kept, each with its own reason. |
| RetryRuns.AtMostOneEscalation | cmd/elnath/runtime_completion_retry.go:62-70 | Under the clamp at most one attempt of a run escalates. |
| PlanMode.Permission.Check | internal/agent/permission.go:110-164 | The verdict, case by case over the lists, the mode and the prompter: denied tools are refused, bypass approves the rest, dangerous bash is asked about or refused, allow-listed tools are approved, plan mode approves read-only tools only, default mode gives the prompter's answer, accept-edits approves read-only tools and the three editing ones and gives the prompter's answer on the rest, and without a prompter the rest is approved. |
| PlanMode.AskedExactly | internal/agent/permission.go:110-164 | The prompter's answer is the verdict exactly when there is a prompter, the tool is not denied, the mode is not bypass, and the call is dangerous bash or neither allow-listed nor let through by the mode; elsewhere the answer changes nothing. |
| PlanMode.Permission.SetMode | internal/agent/permission.go:100-107 | Changes the mode and nothing else. |
| PlanMode.AllowListRule | internal/agent/permission.go:30-37 | An allow-listed tool that is not denied is approved exactly in bypass mode, for calls that are not dangerous bash, and when the prompter accepts. |
| PlanMode.AllowListedCanBeRefused | internal/agent/permission.go:130-143 | An allow-listed dangerous bash command is refused without a prompter. |
| PlanMode.DefaultModeRule | internal/agent/permission.go:15-16 | In default mode a read-only tool that is not denied is approved exactly when it is allow-listed, nobody can be asked, or the prompter accepts. |
| PlanMode.ReadOnlyCanBeRefused | internal/agent/permission.go:158-164 | In default mode the prompter can refuse a read-only tool. |
| PlanMode.PlanModeController.Enter | internal/agent/plan_mode_tools.go:28-41 | Switches to plan mode, remembers the mode before the first enter, and leaves the lists alone. |
| PlanMode.PlanModeController.Exit | internal/agent/plan_mode_tools.go:43-58 | Restores the remembered mode once, and does nothing when plan mode is not active. |
| PlanMode.PlanModeConfines | internal/agent/permission.go:110-164 | From an enter until the first exit a call is approved exactly when it is not denied and is allow-listed, read-only, or dangerous bash the prompter accepted; the mode stays plan. |
| PlanMode.ModesAreOrdered | internal/agent/permission.go:110-164 | Plan and default approve no call that accept-edits refuses, and accept-edits none that bypass refuses, which refuses exactly the deny list. |
| PlanMode.ExitRestores | internal/agent/plan_mode_tools.go:28-58 | Any number of enters, then one exit, restores the mode before the first enter; more exits change nothing. |
| PlanMode.DeniedStaysDenied | internal/agent/permission.go:118-123 | A deny-listed tool is refused in every state a run reaches. |
| PlanMode.ActiveMeansPlan | internal/agent/plan_mode_tools.go:28-58 | In every run from an inactive controller, an active one holds plan mode and remembers the mode before the first enter, an inactive one has left that mode; unless that mode was plan itself, active and plan mode go together. |
| CaseFolding.FoldMeansLower | cmd/elnath/runtime_command_execute_tool.go:213-229 | A string that folds to an ASCII literal also lowers to it exactly when it holds no long s. |
| CaseFolding.LowerMeansFold | cmd/elnath/runtime_command_execute_tool.go:213-229 | A string that lowers to an ASCII literal also folds to it exactly when it holds no dotted capital I. |
| RuntimeCommands.ArgsMatchAny | cmd/elnath/runtime_command_execute_tool.go:213-229 | Decides whether the arguments match one of the options word by word. |
| RuntimeCommands.CatalogArgsAreReadOnly | cmd/elnath/runtime_command_execute_tool.go:185-195 | Decides whether every catalog argument is one of the known flags. |
| RuntimeCommands.CommandsByName | cmd/elnath/runtime_command_execute_tool.go:142-151 | A name stands for a command exactly when it is the command's word, trimmed, with or without the slash. |
| RuntimeCommands.NormalizedAre | cmd/elnath/runtime_command_execute_tool.go:153-162 | The arguments passed on are exactly the trimmed ones that are not blank. |
| RuntimeCommands.GateAccepts | cmd/elnath/runtime_command_execute_tool.go:164-229 | /model and /effort are let through without an argument or with one query word in any case, /plan only with one. |
| RuntimeCommands.QueryGateAccepts | cmd/elnath/runtime_command_execute_tool.go:164-183 | /version and /status are let through without an argument, as JSON or with one help word. |
| RuntimeCommands.CatalogGateAccepts | cmd/elnath/runtime_command_execute_tool.go:185-195 | The catalogs are let through exactly with any of their six flags. |
| RuntimeCommands.ProviderGateAccepts | cmd/elnath/runtime_command_execute_tool.go:197-211 | /provider is let through exactly alone, with one query word, with a report perhaps as JSON, or with a check of one provider. |
| RuntimeCommands.QueryReplies | cmd/elnath/runtime_version.go:45-65 | /version and /status report exactly without an argument or with --json, and explain themselves exactly on one help word. |
| RuntimeCommands.CatalogReplies | cmd/elnath/runtime_commands.go:47-72 | A catalog reports on flags alone; the first other word makes it explain itself or refuse. |
| RuntimeCommands.ExecutionRuntime.ApplyModelCommand | cmd/elnath/runtime_model.go:44-66 | Changes only the model: the unset words clear it, any other single word but the query words becomes it, and everything else leaves it. |
| RuntimeCommands.ExecutionRuntime.ApplyEffortCommand | cmd/elnath/runtime_effort.go:44-74 | Changes only effort and effort mode: auto and unset clear the level, max means xhigh, a level is set as it is named in manual mode, and everything else changes nothing. |
| RuntimeCommands.ExecutionRuntime.ApplyPlanCommand | cmd/elnath/runtime_plan.go:44-91 | exit and off leave plan mode, the query words and options change nothing, and everything else enters it. |
| RuntimeCommands.ExecutionRuntime.ParseProviderName | cmd/elnath/runtime_provider.go:176-199 | Finds a provider exactly when there are one or two arguments and just one of them is neither blank nor --json. |
| RuntimeCommands.NamedExactly | cmd/elnath/runtime_provider.go:176-199 | A provider is named exactly when there are one or two arguments and it is the only one that is neither blank nor --json. |
| RuntimeCommands.ExecutionRuntime.SwitchProviderForSession | cmd/elnath/runtime_provider.go:224-243 | Succeeds exactly when the selection passes the check, can be built and the session may switch; then provider, model and compression budget are those built and the conversation manager, if there is one, is told; otherwise nothing changes. |
| RuntimeCommands.ExecutionRuntime.ApplyProviderCommand | cmd/elnath/runtime_provider.go:47-76 | Changes state exactly for use and switch with one named provider whose switch succeeds. |
| RuntimeCommands.ExecutionRuntime.ApplyReadOnlyRuntimeCommand | cmd/elnath/runtime_command_execute_tool.go:116-140 | Behind the gate the runtime's state is unchanged for every argument list without a long s. |
| RuntimeCommands.CommandsChangeTheirOwn | cmd/elnath/runtime_command_execute_tool.go:116-140 | Gated or not, each command changes at most its own settings. |
| RuntimeCommands.ProviderSwitchIsWhole | cmd/elnath/runtime_provider.go:224-243 | Provider, model, compression budget and what the conversation manager knows change together, to those of one checked selection, or not at all. |
| RuntimeCommands.EffortStaysValid | cmd/elnath/runtime_effort.go:44-74 | Every command keeps effort mode and level as the configuration accepts them, and one that changes them leaves automatic mode without a level or manual mode with one. |
| RuntimeCommands.ProviderIsHarmless | cmd/elnath/runtime_command_execute_tool.go:197-211 | The provider gate never admits a switch, for any argument list. |
| RuntimeCommands.GateIsSound | cmd/elnath/runtime_command_execute_tool.go:164-229 | An accepted command changes no state, in any state, exactly unless it is /model or /plan with one argument holding a long s. |
| RuntimeCommands.AsciiGateIsSound | cmd/elnath/runtime_command_execute_tool.go:164-229 | Every accepted ASCII argument list is safe. |
| RuntimeCommands.LongStatusEscapes | cmd/elnath/runtime_command_execute_tool.go:164-183 | "status" spelled with the long s passes the gate of /model and /plan and changes state. |
| RuntimeCommands.ToolIsHarmlessExactly | cmd/elnath/runtime_command_execute_tool.go:71-107 | For every name and raw argument list the runtime_command tool changes no state, in any state, exactly unless it passes on the long s to /model or /plan. |
| RuntimeCommands.ToolIsHarmless | cmd/elnath/runtime_command_execute_tool.go:71-107 | It changes nothing for arguments without the long s. |
| RuntimeCommands.PlanModeStep | internal/agent/permission.go:144-151 | In plan mode a call other than exit_plan_mode changes nothing, unless it is /model with the long s, and then only the model, to that spelling. |
| Responses.ApprovedInPlanMode | internal/agent/agent.go:843-881 | In plan mode a response gets only calls approved that plan mode allows, even if it asks to leave plan mode. |
| Responses.PlanModeHolds | internal/agent/agent.go:813-826 | In plan mode, until exit_plan_mode is asked for, no run of responses, in whatever order their calls run, changes any setting but the model, nor the model unless one of the calls is that leak; every call approved on the way is one plan mode allows. |
| Responses.EscapesExactly | internal/agent/agent.go:813-881 | An approved call that plan mode does not allow can run while plan mode is on exactly when another approved call of its response enters plan mode, starts no later, and no exit lies in a batch strictly between. |
| Responses.EnterThenEdit | internal/agent/agent.go:813-881 | A response that enters plan mode and then edits a file is such a case: in default mode without a prompter both are approved, and the edit can run in plan mode. |
| Responses.PlanToolsShareBatches | internal/agent/plan_mode_tools.go:78-82 | The plan-mode tools can run beside every call whose scope is not conservative. |
| Responses.PlanToolsDoNotCommute | internal/agent/plan_mode_tools.go:28-58 | Entering and leaving plan mode do not commute in any state. |
| Responses.RuntimeCommandCanWrite | cmd/elnath/runtime_command_execute_tool.go:38-42 | The runtime_command tool is declared concurrency-safe with an empty scope, and can change state. |

## Left out

- Interleaving.RunIsSerializable: concerns runs in which no call cancels its siblings, as a cancelled batch leaves an arbitrary part of its work done.
- SlotResults.InterleavingFillsSequentialSlots: likewise; once a call cancels, what its siblings put into their slots depends on who finishes first.
- BatchExecution.ExecuteToolBatch: the goroutines' writes are taken in their finishing order, one slot at a time; the waiting group, the mutexes and the cancelled context are not modelled.
- CompletionSummary.SummarizeCompletionContract: the receipts that are only copied into the summary (skills, commands, shell, tool search) are not modelled; keyword lists and the decoding of outputs are uninterpreted functions.
- HintRoutes.HintRoutesAgree: one direction, for records a caller can check beforehand; of a run with more than three hints both routes keep three, which can hide where they differ. For one record `HintRoutes.SameHints` is exact.
- MutationFooter.WriteDiagnostics: the bytes left of a character that the 96-byte cut divides are the replacement character here, as a reader of the text sees them.
- Texts are sequences of Unicode scalar values; invalid UTF-8 is not modelled.
- Hooks, events, heartbeats, timings, tool statistics and logging of the executor: side channels outside declared scopes.
- JSON decoding of tool inputs and outputs, and the regular expressions and keyword lists that classify commands and texts: they are uninterpreted functions, and no claim depends on them.
- AgentTurns.TranscriptIsRead: the agent's later truncation of long tool results is not modelled; it changes their text, not their ids or error flags.
- Responses.CollectApprovedToolCalls: the quotes around a tool's name in a refusal are left out.
- Responses.EscapesExactly: a call takes effect at one moment; a call that lasts while its siblings run can only meet more switches of its own batch, which the condition counts.
- Reply texts of the slash commands: only which kind of answer is given, and what changes.
- The constants Action, ReadOnly and Operation of a receipt, equal on both routes.
- Parsing of git's output and the git processes: a changed-file snapshot is an arbitrary input.
- The error branches of filepath.Rel and json.Marshal that cannot be taken, and the loop's branch for an unknown retry decision, which the planner never produces.
- The mutexes of the permission engine and of the controller: each of their operations is one atomic step.
- Config loading, storage, IPC, Telegram, provider clients, rendering, flag parsing, hook ordering, command recommendation, skill arguments, doctor checks and probe statistics: plumbing, or easy members only.
