// The structured route to diagnostic receipts, and its agreement with the printed one
// (diagnosticDeltaReceiptsFromMutations and latestDiagnosticMutationsByPath,
// cmd/elnath/runtime_completion_observability.go).
module DiagnosticRoutes {
  import opened Wrappers
  import opened Text
  import opened LatestByKey
  import opened Lists
  import ScopePaths
  import opened MutationFooter
  import opened FooterParser
  import opened FooterRoundTrip

  const STRUCTURED_TOOL := "structured_mutation_receipt"
  const STRUCTURED_POLICY := "agent_structured_mutation_receipt"

  // The key under which a mutation is filed.
  function PathKey(m: Mutation): string {
    var key := ScopePaths.NormalizeScopePath(m.path);
    if key == "" then TrimSpace(m.path) else key
  }

  // However it is spelled, a file has one key.
  lemma OneKeyPerFile(a: Mutation, b: Mutation)
    requires ScopePaths.NormalizeScopePath(a.path) != "" && ScopePaths.NormalizeScopePath(b.path) != ""
    ensures PathKey(a) == PathKey(b) <==>
      ScopePaths.NormalizeScopePath(a.path) == ScopePaths.NormalizeScopePath(b.path)
  {
  }

  predicate Eligible(m: Mutation) {
    m.changed && TrimSpace(m.status) != "" && PathKey(m) != ""
  }

  function Eligibles(ms: seq<Option<Mutation>>): seq<Mutation> {
    Select(ms, Eligible)
  }

  function LatestPerPath(ms: seq<Option<Mutation>>): seq<Mutation> {
    LatestPerKey(Eligibles(ms), PathKey)
  }

  method LatestDiagnosticMutationsByPath(ms: seq<Option<Mutation>>) returns (out: seq<Mutation>)
    ensures out == LatestPerPath(ms)
    ensures KeepsLast(Eligibles(ms), PathKey, out)
  {
    out := LatestInOrder(ms, Eligible, PathKey);
    LatestPerKeyKeepsLast(Eligibles(ms), PathKey);
  }

  // ---- Receipts ----------------------------------------------------------------------------

  function StructuredReceipt(m: Mutation): Receipt {
    NewReceipt(STRUCTURED_TOOL, STRUCTURED_POLICY, TrimSpace(m.status), TrimSpace(m.language), m.path,
               m.newCount, m.existingCount, m.resolvedCount)
  }

  function StructuredReceipts(ms: seq<Mutation>): seq<Receipt> {
    MapEach(ms, StructuredReceipt)
  }

  method DiagnosticDeltaReceiptsFromMutations(ms: seq<Option<Mutation>>) returns (receipts: seq<Receipt>)
    ensures receipts == StructuredReceipts(LatestPerPath(ms))
  {
    var latest := LatestDiagnosticMutationsByPath(ms);
    receipts := ForEach(latest, StructuredReceipt);
  }

  // ---- Which receipts a summary keeps ------------------------------------------------------

  function WithoutTool(receipts: seq<Receipt>, tool: string): seq<Receipt> {
    if receipts == [] then []
    else
      var last := receipts[|receipts| - 1];
      WithoutTool(receipts[..|receipts| - 1], tool) + if last.tool == tool then [] else [last]
  }

  // Structured receipts, when there are any, replace the parsed ones.
  function CombinedReceipts(observed: seq<Receipt>, structured: seq<Receipt>): seq<Receipt> {
    if structured == [] then observed else WithoutTool(observed, VERIFIER) + structured
  }

  method WithoutDiagnosticDeltaReceiptsFromTool(receipts: seq<Receipt>, tool: string) returns (out: seq<Receipt>)
    ensures out == WithoutTool(receipts, tool)
  {
    out := [];
    for i := 0 to |receipts|
      invariant out == WithoutTool(receipts[..i], tool)
    {
      assert receipts[..i + 1][..i] == receipts[..i];
      if receipts[i].tool == tool {
        continue;
      }
      out := out + [receipts[i]];
    }
    assert receipts[..|receipts|] == receipts;
  }

  method CombineReceipts(observed: seq<Receipt>, mutations: seq<Option<Mutation>>) returns (out: seq<Receipt>)
    ensures out == CombinedReceipts(observed, StructuredReceipts(LatestPerPath(mutations)))
    ensures LatestPerPath(mutations) == [] ==> out == observed
    ensures LatestPerPath(mutations) != [] ==> forall r ::
      r in out <==> (r in observed && r.tool != VERIFIER) || r in StructuredReceipts(LatestPerPath(mutations))
  {
    WithoutToolKeeps(observed, VERIFIER);
    out := observed;
    var structured := DiagnosticDeltaReceiptsFromMutations(mutations);
    if |structured| > 0 {
      out := WithoutDiagnosticDeltaReceiptsFromTool(observed, VERIFIER);
      out := out + structured;
    }
  }

  predicate ReportsNewDiagnostics(receipts: seq<Receipt>) {
    exists i :: 0 <= i < |receipts| && (receipts[i].status == "new_diagnostics_found" || receipts[i].newCount > 0)
  }

  method DiagnosticDeltaReceiptsContainNewDiagnostics(receipts: seq<Receipt>) returns (found: bool)
    ensures found <==> ReportsNewDiagnostics(receipts)
  {
    for i := 0 to |receipts|
      invariant forall k :: 0 <= k < i ==> receipts[k].status != "new_diagnostics_found" && receipts[k].newCount <= 0
    {
      if receipts[i].status == "new_diagnostics_found" || receipts[i].newCount > 0 {
        return true;
      }
    }
    found := false;
  }

  lemma {:induction false} WithoutToolKeeps(receipts: seq<Receipt>, tool: string)
    ensures forall r :: r in WithoutTool(receipts, tool) <==> r in receipts && r.tool != tool
  {
    if receipts != [] {
      WithoutToolKeeps(receipts[..|receipts| - 1], tool);
      assert receipts == receipts[..|receipts| - 1] + [receipts[|receipts| - 1]];
    }
  }

  lemma StructuredNames(ms: seq<Mutation>)
    ensures forall r :: r in StructuredReceipts(ms) ==> r.tool == STRUCTURED_TOOL
  {
  }

  // Once there are structured receipts, none of the verifier's parsed ones is left, and every
  // other receipt is kept.
  lemma StructuredReplacesParsed(observed: seq<Receipt>, mutations: seq<Option<Mutation>>, r: Receipt)
    requires LatestPerPath(mutations) != []
    ensures var structured := StructuredReceipts(LatestPerPath(mutations));
      && (r in CombinedReceipts(observed, structured) <==> (r in observed && r.tool != VERIFIER) || r in structured)
      && (r in CombinedReceipts(observed, structured) ==> r.tool != VERIFIER)
  {
    WithoutToolKeeps(observed, VERIFIER);
    StructuredNames(LatestPerPath(mutations));
    assert |STRUCTURED_TOOL| != |VERIFIER|;
  }

  // ---- The two routes ----------------------------------------------------------------------

  // A receipt of the printed route under the names the structured route uses.
  function Renamed(r: Receipt): Receipt {
    r.(tool := STRUCTURED_TOOL, policy := STRUCTURED_POLICY)
  }

  function AllRenamed(rs: seq<Receipt>): seq<Receipt> {
    MapEach(rs, Renamed)
  }

  // The records the printer gives a diagnostic status.
  predicate HasStatus(m: Mutation) {
    IsRecord(Some(m)) && m.status != ""
  }

  function WithStatus(ms: seq<Option<Mutation>>): seq<Mutation> {
    Select(ms, HasStatus)
  }

  // What a caller can check beforehand: the printed records with a status are changed ones with
  // a path and a language, no two of the same path.
  predicate Comparable(ms: seq<Mutation>) {
    && DistinctKeys(ms, PathKey)
    && forall i :: 0 <= i < |ms| ==> ms[i].changed && TrimSpace(ms[i].path) != "" && TrimSpace(ms[i].language) != ""
  }

  // The receipt the parser makes of a record with a status.
  function PrintedReceipt(m: Mutation): Receipt {
    NewReceipt(VERIFIER, VERIFIER, m.status, EmptyAsUnknown(m.language), EmptyAsUnknown(m.path),
               m.newCount, m.existingCount, m.resolvedCount)
  }

  // Both routes give a record the same receipt exactly when it has a language.
  lemma SameReceipt(m: Mutation)
    requires WellFormed(m) && m.status != "" && TrimSpace(m.path) != ""
    ensures Renamed(PrintedReceipt(m)) == StructuredReceipt(m) <==> TrimSpace(m.language) != ""
  {
  }

  function PrintedReceipts(es: seq<Mutation>): seq<Receipt> {
    MapEach(es, PrintedReceipt)
  }

  lemma WithStatusHaveStatus(ms: seq<Option<Mutation>>)
    ensures forall i :: 0 <= i < |WithStatus(ms)| ==> HasStatus(WithStatus(ms)[i]) && Some(WithStatus(ms)[i]) in ms
  {
    SelectedSatisfy(ms, HasStatus);
    assert forall i :: 0 <= i < |WithStatus(ms)| ==> HasStatus(WithStatus(ms)[i]);
  }

  lemma ExpectedSnoc(ms: seq<Mutation>, m: Mutation)
    ensures ExpectedReceipts(ms + [m])
         == ExpectedReceipts(ms) + if m.status == "" then [] else [PrintedReceipt(m)]
  {
  }

  lemma KeptSnoc(front: seq<Option<Mutation>>, last: Option<Mutation>)
    ensures Kept(front + [last]) == if IsRecord(last) then Kept(front) + [last.value] else Kept(front)
    ensures WithStatus(front + [last])
         == if IsRecord(last) && last.value.status != "" then WithStatus(front) + [last.value] else WithStatus(front)
  {
  }

  lemma PrintedStep(front: seq<Option<Mutation>>, last: Option<Mutation>, kept: seq<Mutation>, es: seq<Mutation>)
    requires kept == Kept(front) && es == WithStatus(front)
    requires ExpectedReceipts(kept) == PrintedReceipts(es)
    ensures ExpectedReceipts(Kept(front + [last])) == PrintedReceipts(WithStatus(front + [last]))
  {
    KeptSnoc(front, last);
    if last.Some? {
      ExpectedSnoc(kept, last.value);
      MapEachSnoc(es, last.value, PrintedReceipt);
    }
  }

  predicate MatchesStatus(ms: seq<Option<Mutation>>) {
    ExpectedReceipts(Kept(ms)) == PrintedReceipts(WithStatus(ms))
  }

  // The printed route yields one receipt per record with a status.
  lemma ExpectedByStatus(ms: seq<Option<Mutation>>)
    ensures MatchesStatus(ms)
  {
    forall front, last | MatchesStatus(front) ensures MatchesStatus(front + [last]) {
      PrintedStep(front, last, Kept(front), WithStatus(front));
    }
    SnocInduction(MatchesStatus, ms);
  }

  lemma EligibleHasStatus(m: Mutation)
    ensures Eligible(m) ==> HasStatus(m)
    ensures HasStatus(m) && NoSpace(m.status) ==> (Eligible(m) <==> m.changed && TrimSpace(m.path) != "")
  {
  }

  // Every eligible mutation is a printed record with a status; all of them are when each such
  // record is a changed one with a path.
  lemma EligiblesArePrinted(ms: seq<Option<Mutation>>)
    requires forall i :: 0 <= i < |WithStatus(ms)| ==> NoSpace(WithStatus(ms)[i].status)
    ensures |Eligibles(ms)| <= |WithStatus(ms)|
    ensures |Eligibles(ms)| == |WithStatus(ms)| ==> Eligibles(ms) == WithStatus(ms)
    ensures Eligibles(ms) == WithStatus(ms) <==>
      forall i :: 0 <= i < |WithStatus(ms)| ==> WithStatus(ms)[i].changed && TrimSpace(WithStatus(ms)[i].path) != ""
  {
    forall i | 0 <= i < |ms| && ms[i].Some? ensures Eligible(ms[i].value) ==> HasStatus(ms[i].value) {
      EligibleHasStatus(ms[i].value);
    }
    SelectFewer(ms, Eligible, HasStatus);
    WithStatusHaveStatus(ms);
    SelectedSatisfy(ms, Eligible);
    forall i | 0 <= i < |WithStatus(ms)|
      ensures Eligible(WithStatus(ms)[i]) <==> WithStatus(ms)[i].changed && TrimSpace(WithStatus(ms)[i].path) != ""
    {
      EligibleHasStatus(WithStatus(ms)[i]);
    }
  }

  lemma SameReceipts(es: seq<Mutation>)
    requires forall i :: 0 <= i < |es| ==> WellFormed(es[i]) && es[i].status != "" && TrimSpace(es[i].path) != ""
    ensures AllRenamed(PrintedReceipts(es)) == StructuredReceipts(es)
       <==> forall i :: 0 <= i < |es| ==> TrimSpace(es[i].language) != ""
  {
  }

  lemma ReceiptsAgree(ms: seq<Option<Mutation>>, printed: seq<Mutation>, es: seq<Mutation>)
    requires printed == WithStatus(ms) && es == Eligibles(ms)
    requires forall i :: 0 <= i < |printed| ==> WellFormed(printed[i]) && printed[i].status != ""
    ensures AllRenamed(PrintedReceipts(printed)) == StructuredReceipts(LatestPerKey(es, PathKey))
       <==> Comparable(printed)
  {
    EligiblesArePrinted(ms);
    DistinctAreLatest(es, PathKey);
    if es == printed {
      SameReceipts(printed);
    }
  }

  lemma ExpectedAgree(ms: seq<Option<Mutation>>)
    requires forall i :: 0 <= i < |Kept(ms)| ==> WellFormed(Kept(ms)[i])
    ensures AllRenamed(ExpectedReceipts(Kept(ms))) == StructuredReceipts(LatestPerPath(ms))
       <==> Comparable(WithStatus(ms))
  {
    ExpectedByStatus(ms);
    WithStatusHaveStatus(ms);
    forall i | 0 <= i < |WithStatus(ms)| ensures WithStatus(ms)[i] in Kept(ms) {
      KeptAre(ms, WithStatus(ms)[i]);
    }
    ReceiptsAgree(ms, WithStatus(ms), Eligibles(ms));
  }

  // The printed and the structured route agree, up to tool and policy names, exactly on the
  // lists a caller would call comparable.
  lemma RoutesAgree(ms: seq<Option<Mutation>>)
    requires forall i :: 0 <= i < |Kept(ms)| ==>
      WellFormed(Kept(ms)[i]) && SingleLine(Kept(ms)[i]) && KeepsReceipt(Kept(ms)[i])
    ensures AllRenamed(ReceiptsFromText(Footer(Kept(ms)))) == StructuredReceipts(LatestPerPath(ms))
       <==> Comparable(WithStatus(ms))
  {
    FooterRoundTrips(Kept(ms));
    ExpectedAgree(ms);
  }

  // ---- Where the routes part ---------------------------------------------------------------

  // A record without diagnostics to print and without a failure family has no free text.
  lemma PlainRecordKeepsReceipt(m: Mutation)
    requires m.newDiagnostics == [] && m.failureFamily == ""
    ensures SingleLine(m) && KeepsReceipt(m)
  {
    assert SegmentList(DiagnosticValues(Printed(m)), 1) == [];
    assert Tail(m) == "";
  }

  lemma SelectOne(a: Mutation)
    requires IsRecord(Some(a)) && a.status != ""
    ensures Kept([Some(a)]) == [a] && WithStatus([Some(a)]) == [a]
  {
    KeptSnoc([], Some(a));
    assert [] + [Some(a)] == [Some(a)];
  }

  lemma SelectTwo(a: Mutation, b: Mutation)
    requires IsRecord(Some(a)) && IsRecord(Some(b)) && a.status != "" && b.status != ""
    ensures Kept([Some(a), Some(b)]) == [a, b] && WithStatus([Some(a), Some(b)]) == [a, b]
  {
    SelectOne(a);
    KeptSnoc([Some(a)], Some(b));
    assert [Some(a)] + [Some(b)] == [Some(a), Some(b)];
  }

  lemma SamePathIsNotComparable(a: Mutation, b: Mutation)
    requires PathKey(a) == PathKey(b)
    ensures !Comparable([a, b])
  {
    var es := [a, b];
    assert PathKey(es[0]) == PathKey(es[1]);
  }

  // One file edited twice in a turn: the printed route reports both edits, the structured route
  // only the last one.
  lemma EditedTwiceDisagrees(a: Mutation, b: Mutation)
    requires IsRecord(Some(a)) && IsRecord(Some(b)) && a.status != "" && b.status != "" && PathKey(a) == PathKey(b)
    requires forall m :: m == a || m == b ==> WellFormed(m) && SingleLine(m) && KeepsReceipt(m)
    ensures var ms := [Some(a), Some(b)];
      AllRenamed(ReceiptsFromText(Footer(Kept(ms)))) != StructuredReceipts(LatestPerPath(ms))
  {
    SelectTwo(a, b);
    RoutesAgree([Some(a), Some(b)]);
    SamePathIsNotComparable(a, b);
  }

  lemma CleanStatusIsWord()
    ensures IsWord("diagnostic_delta_clean")
  {
  }

  lemma CleanEditIsWellFormed(m: Mutation)
    requires m.operation == "edit_file" && m.path == "a.go" && IsWord(m.beforeHash) && IsWord(m.afterHash)
    requires m.language == "go" && m.status == "diagnostic_delta_clean"
    requires m.newDiagnostics == [] && m.failureFamily == ""
    ensures WellFormed(m) && SingleLine(m) && KeepsReceipt(m) && IsRecord(Some(m)) && m.status != ""
  {
    ExampleWords();
    CleanStatusIsWord();
    TrimSpaceTrims(m.operation);
    TrimSpaceTrims(m.path);
    TrimSpaceTrims(m.beforeHash);
    TrimSpaceTrims(m.afterHash);
    TrimSpaceTrims("go");
    PlainRecordKeepsReceipt(m);
  }

  // Such an input: two clean edits of one Go file, whatever the three content hashes.
  lemma EditedTwiceExample(a: Mutation, b: Mutation, first: string, second: string, third: string)
    requires IsWord(first) && IsWord(second) && IsWord(third)
    requires a == Mutation("edit_file", "a.go", true, true, true, first, second, 10, 11, 1, "go",
                           "diagnostic_delta_clean", 0, 0, 0, [], "")
    requires b == a.(beforeHash := second, afterHash := third, beforeLines := 11, afterLines := 12)
    ensures forall m :: m == a || m == b ==> WellFormed(m) && SingleLine(m) && KeepsReceipt(m)
    ensures var ms := [Some(a), Some(b)];
      AllRenamed(ReceiptsFromText(Footer(Kept(ms)))) != StructuredReceipts(LatestPerPath(ms))
  {
    CleanEditIsWellFormed(a);
    CleanEditIsWellFormed(b);
    EditedTwiceDisagrees(a, b);
  }
}
