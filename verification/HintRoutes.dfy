// Repair hints built from recorded mutations, and which hints a summary keeps
// (diagnosticRepairHintsFromMutations and summarizeCompletionContract,
// cmd/elnath/runtime_completion_observability.go).
module HintRoutes {
  import opened Wrappers
  import opened Lists
  import opened Text
  import opened ScopePaths
  import opened MutationFooter
  import FooterParser
  import opened HintParser
  import LatestByKey
  import FooterRoundTrip
  import HintRoundTrip
  import opened DiagnosticRoutes

  function StructuredHint(path: string, d: Diagnostic): Hint {
    Hint(NormalizeScopePath(path), d.line, d.column, TrimSpace(d.source), TrimSpace(d.error), STRUCTURED_TOOL, [], "")
  }

  function HintOf(m: Mutation): Diagnostic -> Hint {
    d => StructuredHint(m.path, d)
  }

  function HintsOf(m: Mutation): seq<Hint> {
    if m.newCount <= 0 then [] else MapEach(m.newDiagnostics, HintOf(m))
  }

  function StructuredHints(ms: seq<Option<Mutation>>): seq<Hint> {
    Normalize(Collect(LatestPerPath(ms), HintsOf))
  }

  method CollectHints(latest: seq<Mutation>) returns (hints: seq<Hint>)
    ensures hints == Collect(latest, HintsOf)
  {
    hints := [];
    for i := 0 to |latest|
      invariant hints == Collect(latest[..i], HintsOf)
    {
      assert latest[..i + 1][..i] == latest[..i];
      if latest[i].newCount <= 0 {
        continue;
      }
      var added := ForEach(latest[i].newDiagnostics, HintOf(latest[i]));
      hints := hints + added;
    }
    assert latest[..|latest|] == latest;
  }

  method DiagnosticRepairHintsFromMutations(ms: seq<Option<Mutation>>) returns (out: seq<Hint>)
    ensures out == StructuredHints(ms)
  {
    var latest := LatestDiagnosticMutationsByPath(ms);
    var hints := CollectHints(latest);
    out := NormalizeCompletionDiagnosticRepairHints(hints);
  }

  function WithoutSource(hints: seq<Hint>, tool: string): seq<Hint> {
    if hints == [] then []
    else
      var last := hints[|hints| - 1];
      WithoutSource(hints[..|hints| - 1], tool) + if last.sourceTool == tool then [] else [last]
  }

  // Structured receipts, when there are any, drop the hints read from the footer.
  function CombinedHints(observed: seq<Hint>, ms: seq<Option<Mutation>>): seq<Hint> {
    Normalize(if LatestPerPath(ms) == [] then observed
              else WithoutSource(observed, FooterParser.VERIFIER) + StructuredHints(ms))
  }

  method WithoutDiagnosticRepairHintsFromSourceTool(hints: seq<Hint>, tool: string) returns (out: seq<Hint>)
    ensures out == WithoutSource(hints, tool)
  {
    out := [];
    for i := 0 to |hints|
      invariant out == WithoutSource(hints[..i], tool)
    {
      assert hints[..i + 1][..i] == hints[..i];
      if hints[i].sourceTool == tool {
        continue;
      }
      out := out + [hints[i]];
    }
    assert hints[..|hints|] == hints;
  }

  method CombineHints(observed: seq<Hint>, ms: seq<Option<Mutation>>) returns (out: seq<Hint>)
    ensures out == CombinedHints(observed, ms)
  {
    out := observed;
    var receipts := DiagnosticDeltaReceiptsFromMutations(ms);
    if |receipts| > 0 {
      out := WithoutDiagnosticRepairHintsFromSourceTool(observed, FooterParser.VERIFIER);
      var structured := DiagnosticRepairHintsFromMutations(ms);
      if |structured| > 0 {
        out := out + structured;
      } else {
        assert out + structured == out;
      }
    }
    out := NormalizeCompletionDiagnosticRepairHints(out);
  }

  // ---- What a summary's hints are ----------------------------------------------------------

  predicate DistinctKeys(hints: seq<Hint>) {
    forall i, j :: 0 <= i < j < |hints| ==> HintKey(hints[i]) != HintKey(hints[j])
  }

  predicate Usable(h: Hint) {
    h.path != "" && h.error != ""
  }

  // What is kept: at most three usable hints with distinct keys, all from the list.
  lemma {:induction false} KeptHints(hints: seq<Hint>)
    ensures |KeepAll(hints)| <= MAX_HINTS && DistinctKeys(KeepAll(hints))
    ensures forall h :: h in KeepAll(hints) ==> h in hints && Usable(h)
  {
    if hints != [] {
      var front, last := hints[..|hints| - 1], hints[|hints| - 1];
      KeptHints(front);
      var kept := KeepAll(front);
      assert HintKey(last) !in Keys(kept) ==> forall i :: 0 <= i < |kept| ==> HintKey(kept[i]) != HintKey(last);
    }
  }

  lemma NormalizedHints(hints: seq<Hint>)
    ensures |Normalize(hints)| <= MAX_HINTS && DistinctKeys(Normalize(hints))
    ensures forall h :: h in Normalize(hints) ==> Usable(h) && exists i :: 0 <= i < |hints| && h == Tidy(hints[i])
  {
    KeptHints(MapEach(hints, Tidy));
    forall h | h in Normalize(hints) ensures exists i :: 0 <= i < |hints| && h == Tidy(hints[i]) {
      assert h in MapEach(hints, Tidy);
    }
  }

  lemma {:induction false} WithoutSourceKeeps(hints: seq<Hint>, tool: string)
    ensures forall h :: h in WithoutSource(hints, tool) <==> h in hints && h.sourceTool != tool
  {
    if hints != [] {
      WithoutSourceKeeps(hints[..|hints| - 1], tool);
      assert hints == hints[..|hints| - 1] + [hints[|hints| - 1]];
    }
  }

  lemma KeepsKeys(out: seq<Hint>, h: Hint)
    ensures Keys(out) <= Keys(Keep(out, h))
  {
    KeysSnoc(out, h);
  }

  // Below the limit no usable hint is lost: its key is kept.
  lemma {:induction false} NothingIsLost(hints: seq<Hint>, h: Hint)
    requires |KeepAll(hints)| < MAX_HINTS && h in hints && Usable(h)
    ensures HintKey(h) in Keys(KeepAll(hints))
  {
    var front, last := hints[..|hints| - 1], hints[|hints| - 1];
    KeepsKeys(KeepAll(front), last);
    if h in front {
      NothingIsLost(front, h);
    } else {
      KeysSnoc(KeepAll(front), last);
    }
  }

  lemma NothingIsDropped(hints: seq<Hint>, g: Hint)
    requires |Normalize(hints)| < MAX_HINTS && g in hints && Usable(Tidy(g))
    ensures exists h :: h in Normalize(hints) && HintKey(h) == HintKey(Tidy(g))
  {
    var k :| 0 <= k < |hints| && hints[k] == g;
    assert MapEach(hints, Tidy)[k] == Tidy(g);
    NothingIsLost(MapEach(hints, Tidy), Tidy(g));
  }

  // ---- Normalising hints twice -------------------------------------------------------------

  lemma KeepGrows(out: seq<Hint>, h: Hint)
    ensures |Keep(out, h)| <= |out| + 1 && (|Keep(out, h)| == |out| + 1 ==> Keep(out, h) == out + [h])
  {
  }

  lemma WholeGrows(front: seq<Hint>, last: Hint, kept: seq<Hint>, all: seq<Hint>)
    requires all == Keep(kept, last) && |kept| <= |front| && (|kept| == |front| ==> kept == front)
    ensures |all| <= |front| + 1 && (|all| == |front| + 1 ==> all == front + [last])
  {
    KeepGrows(kept, last);
  }

  lemma {:induction false} KeptWhole(hints: seq<Hint>)
    ensures |KeepAll(hints)| <= |hints|
    ensures |KeepAll(hints)| == |hints| ==> KeepAll(hints) == hints
  {
    if hints != [] {
      var front, last := hints[..|hints| - 1], hints[|hints| - 1];
      assert front + [last] == hints;
      KeptWhole(front);
      WholeGrows(front, last, KeepAll(front), KeepAll(hints));
    }
  }

  lemma DistinctParts(front: seq<Hint>, last: Hint, hints: seq<Hint>)
    requires front + [last] == hints && DistinctKeys(hints) && forall i :: 0 <= i < |hints| ==> Usable(hints[i])
    ensures DistinctKeys(front) && forall i :: 0 <= i < |front| ==> Usable(front[i])
    ensures Usable(last) && forall i :: 0 <= i < |front| ==> HintKey(front[i]) != HintKey(last)
  {
    assert hints[|front|] == last && forall i :: 0 <= i < |front| ==> front[i] == hints[i];
  }

  lemma FreshIsAppended(out: seq<Hint>, h: Hint)
    requires |out| < MAX_HINTS && Usable(h) && forall i :: 0 <= i < |out| ==> HintKey(out[i]) != HintKey(h)
    ensures Keep(out, h) == out + [h]
  {
  }

  lemma {:induction false} DistinctAreKept(hints: seq<Hint>)
    requires |hints| <= MAX_HINTS && DistinctKeys(hints) && forall i :: 0 <= i < |hints| ==> Usable(hints[i])
    ensures KeepAll(hints) == hints
  {
    if hints != [] {
      var front, last := hints[..|hints| - 1], hints[|hints| - 1];
      assert front + [last] == hints;
      DistinctParts(front, last, hints);
      DistinctAreKept(front);
      FreshIsAppended(front, last);
    }
  }

  // Tidying trims, fills in guidance where there is none, and leaves place and guidance otherwise.
  lemma TidyFields(h: Hint)
    ensures var t := Tidy(h);
      && t.path == NormalizeScopePath(h.path) && t.line == h.line && t.column == h.column
      && (h.suggestedTools != [] ==> t.suggestedTools == h.suggestedTools)
      && (h.stopCondition != "" ==> t.stopCondition == h.stopCondition)
      && (h.suggestedTools == [] ==> t.suggestedTools == ["read_file", "edit_file", "code_symbols diagnostics_delta"])
      && TrimSpace(t.source) == t.source && TrimSpace(t.error) == t.error && TrimSpace(t.sourceTool) == t.sourceTool
      && t.suggestedTools != [] && t.stopCondition != ""
  {
    TrimSpaceTrims(h.source);
    TrimSpaceTrims(h.error);
    TrimSpaceTrims(h.sourceTool);
    TrimSpaceTrims(TrimSpace(h.source));
    TrimSpaceTrims(TrimSpace(h.error));
    TrimSpaceTrims(TrimSpace(h.sourceTool));
  }

  lemma TidyAgain(h: Hint)
    ensures Tidy(Tidy(h)) == Tidy(h) <==> NormalizeScopePath(Tidy(h).path) == Tidy(h).path
  {
    TidyFields(h);
  }

  lemma MappedToItself(hints: seq<Hint>)
    ensures MapEach(hints, Tidy) == hints <==> forall i :: 0 <= i < |hints| ==> Tidy(hints[i]) == hints[i]
  {
  }

  // Hints pass through the normalisation more than once. The second time changes nothing exactly
  // when the paths of the hints kept are canonical.
  lemma NormalizeTwice(hints: seq<Hint>)
    ensures Normalize(Normalize(hints)) == Normalize(hints) <==>
      forall i :: 0 <= i < |Normalize(hints)| ==> Canonical(Normalize(hints)[i].path)
  {
    var out := Normalize(hints);
    NormalizedHints(hints);
    forall i | 0 <= i < |out|
      ensures Usable(out[i]) && (Tidy(out[i]) == out[i] <==> NormalizeScopePath(out[i].path) == out[i].path)
    {
      assert out[i] in out;
      var k :| 0 <= k < |hints| && out[i] == Tidy(hints[k]);
      TidyAgain(hints[k]);
    }
    KeptWhole(MapEach(out, Tidy));
    MappedToItself(out);
    DistinctAreKept(out);
  }

  lemma {:induction false} CollectedSource(latest: seq<Mutation>)
    ensures forall h :: h in Collect(latest, HintsOf) ==> h.sourceTool == STRUCTURED_TOOL
  {
    if latest != [] {
      CollectedSource(latest[..|latest| - 1]);
    }
  }

  lemma NamesDiffer()
    ensures Trimmed(STRUCTURED_TOOL) && STRUCTURED_TOOL != FooterParser.VERIFIER
  {
    assert |STRUCTURED_TOOL| != |FooterParser.VERIFIER|;
  }

  lemma StructuredSource(ms: seq<Option<Mutation>>, h: Hint)
    requires h in StructuredHints(ms)
    ensures h.sourceTool == STRUCTURED_TOOL
  {
    var found := Collect(LatestPerPath(ms), HintsOf);
    NormalizedHints(found);
    CollectedSource(LatestPerPath(ms));
    var i :| 0 <= i < |found| && h == Tidy(found[i]);
    assert found[i] in found;
    NamesDiffer();
    TrimSpaceTrims(STRUCTURED_TOOL);
  }

  lemma NormalizedSources(hints: seq<Hint>)
    ensures forall h :: h in Normalize(hints) ==> Trimmed(h.sourceTool)
  {
    NormalizedHints(hints);
    forall h | h in Normalize(hints) ensures Trimmed(h.sourceTool) {
      var i :| 0 <= i < |hints| && h == Tidy(hints[i]);
      TrimSpaceTrims(hints[i].sourceTool);
    }
  }

  // No hint in the list comes from the footer.
  predicate NoneParsed(hints: seq<Hint>) {
    forall h :: h in hints ==> Trimmed(h.sourceTool) && h.sourceTool != FooterParser.VERIFIER
  }

  lemma StructuredAreNotParsed(observed: seq<Hint>, ms: seq<Option<Mutation>>)
    requires forall h :: h in observed ==> Trimmed(h.sourceTool)
    ensures NoneParsed(WithoutSource(observed, FooterParser.VERIFIER) + StructuredHints(ms))
  {
    WithoutSourceKeeps(observed, FooterParser.VERIFIER);
    NamesDiffer();
    forall h | h in StructuredHints(ms) ensures h.sourceTool == STRUCTURED_TOOL {
      StructuredSource(ms, h);
    }
  }

  lemma NormalizedAreNotParsed(hints: seq<Hint>)
    requires NoneParsed(hints)
    ensures NoneParsed(Normalize(hints))
  {
    NormalizedHints(hints);
    forall h | h in Normalize(hints) ensures Trimmed(h.sourceTool) && h.sourceTool != FooterParser.VERIFIER {
      var i :| 0 <= i < |hints| && h == Tidy(hints[i]);
      assert hints[i] in hints;
      TrimSpaceTrims(hints[i].sourceTool);
    }
  }

  // What a summary keeps: at most three usable hints with distinct keys, none of them from the
  // footer's text once there are structured receipts.
  lemma CombinedHintsAre(observed: seq<Hint>, ms: seq<Option<Mutation>>)
    requires forall h :: h in observed ==> Trimmed(h.sourceTool)
    ensures var out := CombinedHints(observed, ms);
      && |out| <= 3 && DistinctKeys(out) && (forall h :: h in out ==> Usable(h))
      && (LatestPerPath(ms) != [] ==> NoneParsed(out))
  {
    if LatestPerPath(ms) == [] {
      NormalizedHints(observed);
    } else {
      var all := WithoutSource(observed, FooterParser.VERIFIER) + StructuredHints(ms);
      NormalizedHints(all);
      StructuredAreNotParsed(observed, ms);
      NormalizedAreNotParsed(all);
    }
  }

  // A diagnostic that a structured hint can come from: a kept mutation brings it, and counts it.
  predicate IsReported(ms: seq<Option<Mutation>>, m: Mutation, d: Diagnostic) {
    m in LatestPerPath(ms) && m.newCount > 0 && d in m.newDiagnostics
  }

  lemma ReportedHints(ms: seq<Option<Mutation>>, g: Hint)
    ensures g in Collect(LatestPerPath(ms), HintsOf) <==>
      exists m, d :: IsReported(ms, m, d) && g == StructuredHint(m.path, d)
  {
    var latest := LatestPerPath(ms);
    CollectMembers(latest, HintsOf, g);
    if i :| 0 <= i < |latest| && g in HintsOf(latest[i]) {
      var k :| 0 <= k < |latest[i].newDiagnostics| && g == HintOf(latest[i])(latest[i].newDiagnostics[k]);
      assert IsReported(ms, latest[i], latest[i].newDiagnostics[k]);
    }
    forall m, d | IsReported(ms, m, d) && g == StructuredHint(m.path, d) ensures g in Collect(latest, HintsOf) {
      var i :| 0 <= i < |latest| && latest[i] == m;
      var k :| 0 <= k < |m.newDiagnostics| && m.newDiagnostics[k] == d;
      assert HintsOf(m)[k] == g;
    }
  }

  // The structured hints come from such diagnostics, and while there are fewer than three of them,
  // from every one that gives a usable hint, up to its key.
  lemma StructuredHintsAre(ms: seq<Option<Mutation>>)
    ensures var out := StructuredHints(ms);
      && (forall h :: h in out ==> exists m, d :: IsReported(ms, m, d) && h == Tidy(StructuredHint(m.path, d)))
      && (|out| < 3 ==> forall m, d :: IsReported(ms, m, d) && Usable(Tidy(StructuredHint(m.path, d))) ==>
            exists h :: h in out && HintKey(h) == HintKey(Tidy(StructuredHint(m.path, d))))
  {
    var all := Collect(LatestPerPath(ms), HintsOf);
    NormalizedHints(all);
    forall h | h in Normalize(all)
      ensures exists m, d :: IsReported(ms, m, d) && h == Tidy(StructuredHint(m.path, d))
    {
      var i :| 0 <= i < |all| && h == Tidy(all[i]);
      ReportedHints(ms, all[i]);
    }
    forall m, d | |Normalize(all)| < 3 && IsReported(ms, m, d) && Usable(Tidy(StructuredHint(m.path, d)))
      ensures exists h :: h in Normalize(all) && HintKey(h) == HintKey(Tidy(StructuredHint(m.path, d)))
    {
      ReportedHints(ms, StructuredHint(m.path, d));
      NothingIsDropped(all, StructuredHint(m.path, d));
    }
  }

  // What the hints kept are chosen from: the observed ones until there are structured receipts, and
  // after that the structured ones and the observed ones that were not read from the footer.
  predicate IsCandidate(observed: seq<Hint>, ms: seq<Option<Mutation>>, h: Hint) {
    if LatestPerPath(ms) == [] then h in observed
    else (h in observed && h.sourceTool != FooterParser.VERIFIER) || h in StructuredHints(ms)
  }

  // Every hint kept is a tidied candidate, and while fewer than three are kept, every usable
  // candidate is kept under its key.
  lemma CandidatesAreKept(observed: seq<Hint>, ms: seq<Option<Mutation>>)
    ensures var out := CombinedHints(observed, ms);
      && (forall h :: h in out ==> exists g :: IsCandidate(observed, ms, g) && h == Tidy(g))
      && (|out| < 3 ==> forall g :: IsCandidate(observed, ms, g) && Usable(Tidy(g)) ==>
            exists h :: h in out && HintKey(h) == HintKey(Tidy(g)))
  {
    var all := if LatestPerPath(ms) == [] then observed
               else WithoutSource(observed, FooterParser.VERIFIER) + StructuredHints(ms);
    WithoutSourceKeeps(observed, FooterParser.VERIFIER);
    assert forall g :: g in all <==> IsCandidate(observed, ms, g);
    NormalizedHints(all);
    forall h | h in Normalize(all) ensures exists g :: IsCandidate(observed, ms, g) && h == Tidy(g) {
      var i :| 0 <= i < |all| && h == Tidy(all[i]);
      assert all[i] in all;
    }
    forall g | |Normalize(all)| < 3 && g in all && Usable(Tidy(g))
      ensures exists h :: h in Normalize(all) && HintKey(h) == HintKey(Tidy(g))
    {
      NothingIsDropped(all, g);
    }
  }

  // ---- The two routes to a hint ------------------------------------------------------------

  // A hint read from the footer under the name the structured route uses.
  function AsStructured(h: Hint): Hint {
    h.(sourceTool := STRUCTURED_TOOL)
  }

  // The diagnostic survives printing: it has a source, and its error is short and on one line.
  predicate PrintsWhole(d: Diagnostic) {
    TrimSpace(d.source) != "" && CompactError(d.error) == TrimSpace(d.error)
  }

  // Both routes make the same hint of a diagnostic, up to the tool's name, exactly when it
  // survives printing: the same path, line, column, source and error.
  lemma SameHint(m: Mutation, d: Diagnostic)
    requires TrimSpace(m.path) != "" && HintRoundTrip.HasStablePath(m)
    ensures Tidy(HintOf(m)(d)) == AsStructured(HintRoundTrip.ExpectedHint(HintRoundTrip.PathOf(m), d)) <==>
      PrintsWhole(d)
  {
    TrimSpaceTrims(m.path);
    TrimSpaceTrims(TrimSpace(m.path));
    IdempotentExactly(EmptyAsUnknown(m.path));
    TrimSpaceTrims(d.source);
    TrimSpaceTrims(d.error);
    TrimSpaceTrims(TrimSpace(d.source));
    TrimSpaceTrims(TrimSpace(d.error));
    NamesDiffer();
    TrimSpaceTrims(STRUCTURED_TOOL);
    HintRoundTrip.CompactIsTrimmed(d.error);
  }

  // What a caller can check: both routes read the same diagnostics of a record with a status.
  predicate SameDiagnostics(m: Mutation) {
    && m.changed && TrimSpace(m.path) != "" && |m.newDiagnostics| <= 3
    && (m.newDiagnostics != [] ==> m.newCount > 0)
    && forall i :: 0 <= i < |m.newDiagnostics| ==> PrintsWhole(m.newDiagnostics[i])
  }

  function TidyHintsOf(m: Mutation): seq<Hint> {
    MapEach(HintsOf(m), Tidy)
  }

  // Of a changed record with a path and a status both routes read the same hints exactly then.
  lemma SameHints(m: Mutation)
    requires m.status != "" && m.changed && TrimSpace(m.path) != "" && HintRoundTrip.HasStablePath(m)
    ensures MapEach(HintRoundTrip.PrintedHints(m), AsStructured) == TidyHintsOf(m) <==> SameDiagnostics(m)
  {
    var ds := m.newDiagnostics;
    forall i | 0 <= i < |ds|
      ensures Tidy(HintOf(m)(ds[i])) == AsStructured(HintRoundTrip.ExpectedHint(HintRoundTrip.PathOf(m), ds[i]))
         <==> PrintsWhole(ds[i])
    {
      SameHint(m, ds[i]);
    }
    var printed, built := MapEach(HintRoundTrip.PrintedHints(m), AsStructured), TidyHintsOf(m);
    assert |printed| == if |ds| > 3 then 3 else |ds|;
    assert |built| == if m.newCount <= 0 then 0 else |ds|;
    if |printed| == |built| {
      assert forall i :: 0 <= i < |ds| ==> (printed[i] == built[i] <==> PrintsWhole(ds[i]));
    }
  }

  // Renaming the tool changes nothing of what is kept.
  lemma {:induction false} RenamingKeeps(hints: seq<Hint>)
    ensures KeepAll(MapEach(hints, AsStructured)) == MapEach(KeepAll(hints), AsStructured)
  {
    if hints != [] {
      var front, last := hints[..|hints| - 1], hints[|hints| - 1];
      RenamingKeeps(front);
      var kept := KeepAll(front);
      assert MapEach(hints, AsStructured)[..|hints| - 1] == MapEach(front, AsStructured);
      assert Keys(MapEach(kept, AsStructured)) == Keys(kept);
      MapEachSnoc(kept, last, AsStructured);
    }
  }

  lemma PrintsSnoc(records: seq<Mutation>, m: Mutation)
    ensures HintRoundTrip.AllHints(records + [m])
         == HintRoundTrip.AllHints(records) + HintRoundTrip.PrintedHints(m)
    ensures m.status == "" ==> HintRoundTrip.PrintedHints(m) == []
  {
    assert (records + [m])[..|records|] == records;
  }

  predicate StatusSuffices(ms: seq<Option<Mutation>>) {
    HintRoundTrip.AllHints(Kept(ms)) == HintRoundTrip.AllHints(WithStatus(ms))
  }

  lemma StatusStep(front: seq<Option<Mutation>>, last: Option<Mutation>)
    requires StatusSuffices(front)
    ensures StatusSuffices(front + [last])
  {
    KeptSnoc(front, last);
    if IsRecord(last) {
      PrintsSnoc(Kept(front), last.value);
      PrintsSnoc(WithStatus(front), last.value);
    }
  }

  // A record without a status prints no diagnostics.
  lemma StatusPrints(ms: seq<Option<Mutation>>)
    ensures StatusSuffices(ms)
  {
    forall front, last | StatusSuffices(front) ensures StatusSuffices(front + [last]) {
      StatusStep(front, last);
    }
    SnocInduction(StatusSuffices, ms);
  }

  lemma LatestAreWithStatus(ms: seq<Option<Mutation>>)
    requires LatestByKey.DistinctKeys(WithStatus(ms), PathKey)
    requires forall i :: 0 <= i < |WithStatus(ms)| ==>
      SameDiagnostics(WithStatus(ms)[i]) && NoSpace(WithStatus(ms)[i].status)
    ensures LatestPerPath(ms) == WithStatus(ms)
  {
    EligiblesArePrinted(ms);
    LatestByKey.DistinctAreLatest(Eligibles(ms), PathKey);
  }

  lemma CollectedAgree(records: seq<Mutation>)
    requires forall i :: 0 <= i < |records| ==>
      records[i].status != "" && SameDiagnostics(records[i]) && HintRoundTrip.HasStablePath(records[i])
    ensures MapEach(HintRoundTrip.AllHints(records), AsStructured) == MapEach(Collect(records, HintsOf), Tidy)
  {
    forall i | 0 <= i < |records|
      ensures MapEach(HintRoundTrip.PrintedHints(records[i]), AsStructured) == TidyHintsOf(records[i])
    {
      SameHints(records[i]);
    }
    MapOfCollect(records, HintRoundTrip.PrintedHints, AsStructured, TidyHintsOf);
    MapOfCollect(records, HintsOf, Tidy, TidyHintsOf);
  }

  // The hints read back from a printed footer are the structured ones, up to the tool's name,
  // when no file is recorded twice and both routes read the same diagnostics of each record.
  lemma HintRoutesAgree(ms: seq<Option<Mutation>>)
    requires forall i :: 0 <= i < |Kept(ms)| ==>
      (FooterRoundTrip.WellFormed(Kept(ms)[i]) && FooterRoundTrip.SingleLine(Kept(ms)[i])
       && HintRoundTrip.Readable(Kept(ms)[i]) && HintRoundTrip.HasStablePath(Kept(ms)[i]))
    requires LatestByKey.DistinctKeys(WithStatus(ms), PathKey)
    requires forall i :: 0 <= i < |WithStatus(ms)| ==> SameDiagnostics(WithStatus(ms)[i])
    ensures MapEach(HintsFromText(Footer(Kept(ms))), AsStructured) == StructuredHints(ms)
  {
    var printed, records := Kept(ms), WithStatus(ms);
    HintRoundTrip.FooterHintsRoundTrip(printed);
    HintRoundTrip.AllAreGuided(printed);
    HintRoundTrip.KeptAreFirstDistinct(HintRoundTrip.AllHints(printed));
    StatusPrints(ms);
    WithStatusHaveStatus(ms);
    forall i | 0 <= i < |records| ensures records[i] in printed {
      KeptAre(ms, records[i]);
    }
    LatestAreWithStatus(ms);
    CollectedAgree(records);
    RenamingKeeps(HintRoundTrip.AllHints(records));
  }
}
