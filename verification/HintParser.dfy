// Repair hints: the parser's search for new_diag_ segments and the normalisation that keeps
// the first three distinct hints (diagnosticRepairHintsFromNewDiagFields and
// normalizeCompletionDiagnosticRepairHints, cmd/elnath/runtime_completion_observability.go).
module HintParser {
  import opened Lists
  import opened Wrappers
  import opened Text
  import opened Decimal
  import ScopePaths
  import opened FooterParser

  datatype Hint = Hint(path: string, line: Int, column: Int, source: string, error: string, sourceTool: string,
                       suggestedTools: seq<string>, stopCondition: string)

  const SUGGESTED_TOOLS: seq<string> := ["read_file", "edit_file", "code_symbols diagnostics_delta"]
  const STOP_CONDITION := "diagnostic_delta_clean_or_no_" + "new_diagnostics"

  const MARKER := "new_diag_"
  const NEXT_SEGMENT := " new_diag_"
  const FAILURE_SEGMENT := " failure_family="
  const STOPS := [NEXT_SEGMENT, FAILURE_SEGMENT]
  const MAX_HINTS := 3

  // strings.SplitN(s, ":", 4), None when fewer than four parts come out.
  datatype Parts = Parts(source: string, line: string, column: string, error: string)

  function SplitFour(s: string): Option<Parts> {
    var a := IndexOf(s, ':');
    if a == |s| then None
    else
      var s1 := s[a + 1..];
      var b := IndexOf(s1, ':');
      if b == |s1| then None
      else
        var s2 := s1[b + 1..];
        var c := IndexOf(s2, ':');
        if c == |s2| then None else Some(Parts(s[..a], s1[..b], s2[..c], s2[c + 1..]))
  }

  function HintFromValue(raw: string, path: string): Option<Hint> {
    var parts := SplitFour(TrimSpace(raw));
    if parts.None? then None
    else
      var error := TrimSpace(parts.value.error);
      if TrimSpace(path) == "" || error == "" then None
      else Some(Hint(ScopePaths.NormalizeScopePath(path), ParseReceiptInt(parts.value.line),
                     ParseReceiptInt(parts.value.column), TrimSpace(parts.value.source), error, VERIFIER, [], ""))
  }

  // A value gives a hint only with an error text and on a line with a path.
  lemma HintHasText(raw: string, path: string)
    ensures HintFromValue(raw, path).Some? ==>
      var error := HintFromValue(raw, path).value.error;
      TrimSpace(path) != "" && error != "" && Trimmed(error)
  {
    var parts := SplitFour(TrimSpace(raw));
    if parts.Some? {
      TrimSpaceTrims(parts.value.error);
    }
  }

  function AsSeq(h: Option<Hint>): seq<Hint> {
    if h.Some? then [h.value] else []
  }

  // Where the value at the start of s ends: before the nearest of the stop markers.
  function ValueEnd(s: string, stops: seq<string>): (n: nat)
    ensures n <= |s|
  {
    if stops == [] then |s|
    else
      var end, candidate := ValueEnd(s, stops[..|stops| - 1]), Find(s, stops[|stops| - 1]);
      if candidate < end then candidate else end
  }

  method FindValueEnd(s: string, stops: seq<string>) returns (end: nat)
    ensures end == ValueEnd(s, stops)
  {
    end := |s|;
    for i := 0 to |stops|
      invariant end == ValueEnd(s, stops[..i])
    {
      assert stops[..i + 1][..i] == stops[..i];
      var candidate := Find(s, stops[i]);
      if candidate < end {
        end := candidate;
      }
    }
    assert stops[..|stops|] == stops;
  }

  // The next value in the rest of a line, with what follows it.
  datatype Step = Step(value: string, rest: string)

  function NextValue(s: string, marker: string, stops: seq<string>): (step: Option<Step>)
    ensures step.Some? ==> |step.value.rest| < |s|
  {
    var start := Find(s, marker);
    if start == |s| then None
    else
      var rest := s[start..];
      var eq := IndexOf(rest, '=');
      if eq == |rest| then None
      else
        var values := rest[eq + 1..];
        var end := ValueEnd(values, stops);
        Some(Step(values[..end], values[end..]))
  }

  // The hints found in the rest of a line.
  function ScanHints(s: string, path: string): seq<Hint>
    decreases |s|
  {
    var step := NextValue(s, MARKER, STOPS);
    if step.None? then [] else AsSeq(HintFromValue(step.value.value, path)) + ScanHints(step.value.rest, path)
  }

  lemma SliceOfDrop(s: string, from: nat, i: nat, j: nat)
    requires i <= j && from + j <= |s|
    ensures s[from..][i..j] == s[from + i..from + j]
    ensures s[from..][j..] == s[from + j..]
  {
  }

  // Where the next value of a text starts and ends.
  method LocateValue(text: string, marker: string, stops: seq<string>) returns (found: bool, start: nat, end: nat)
    ensures found <==> NextValue(text, marker, stops).Some?
    ensures found ==> 0 < start <= end <= |text|
    ensures found ==> NextValue(text, marker, stops) == Some(Step(text[start..end], text[end..]))
  {
    var relative := Find(text, marker);
    if relative == |text| {
      return false, 0, 0;
    }
    var rest := text[relative..];
    var eqRelative := IndexOf(rest, '=');
    if eqRelative == |rest| {
      return false, 0, 0;
    }
    var values := rest[eqRelative + 1..];
    var length := FindValueEnd(values, stops);
    start := relative + eqRelative + 1;
    SliceOfDrop(text, relative, eqRelative + 1, |rest|);
    assert values == text[start..];
    SliceOfDrop(text, start, 0, length);
    found, end := true, start + length;
  }

  // One round of the search, in positions of the whole line.
  method FindNextValue(line: string, searchFrom: nat, marker: string, stops: seq<string>)
    returns (found: bool, valueStart: nat, valueEnd: nat)
    requires searchFrom <= |line|
    ensures found <==> NextValue(line[searchFrom..], marker, stops).Some?
    ensures found ==> searchFrom < valueStart <= valueEnd <= |line|
    ensures found ==>
      NextValue(line[searchFrom..], marker, stops) == Some(Step(line[valueStart..valueEnd], line[valueEnd..]))
  {
    var start, end;
    found, start, end := LocateValue(line[searchFrom..], marker, stops);
    if !found {
      return false, 0, 0;
    }
    SliceOfDrop(line, searchFrom, start, end);
    valueStart, valueEnd := searchFrom + start, searchFrom + end;
  }

  method DiagnosticRepairHintsFromNewDiagFields(line: string, path: string) returns (hints: seq<Hint>)
    ensures hints == ScanHints(line, path)
  {
    hints := [];
    var searchFrom := 0;
    assert line[0..] == line;
    while true
      invariant 0 <= searchFrom <= |line|
      invariant hints + ScanHints(line[searchFrom..], path) == ScanHints(line, path)
      decreases |line| - searchFrom
    {
      var found, valueStart, valueEnd := FindNextValue(line, searchFrom, MARKER, STOPS);
      if !found {
        break;
      }
      hints := hints + AsSeq(HintFromValue(line[valueStart..valueEnd], path));
      searchFrom := valueEnd;
    }
  }

  function HintsFromLine(line: string): seq<Hint> {
    var fields := LineFields(line);
    if |fields| < 2 then [] else ScanHints(TrimSpace(line), ScopePaths.NormalizeScopePath(fields[1]))
  }

  function HintsFromLines(lines: seq<string>): seq<Hint> {
    Collect(lines, HintsFromLine)
  }

  // ---- Normalisation -----------------------------------------------------------------------

  // Trimmed, with the standard guidance where a hint brings none.
  function Tidy(h: Hint): Hint {
    Hint(ScopePaths.NormalizeScopePath(h.path), h.line, h.column, TrimSpace(h.source), TrimSpace(h.error),
         TrimSpace(h.sourceTool),
         if h.suggestedTools == [] then SUGGESTED_TOOLS else h.suggestedTools,
         if h.stopCondition == "" then STOP_CONDITION else h.stopCondition)
  }

  // The key under which duplicates are recognised: five fields joined by NUL characters.
  function HintKey(h: Hint): string {
    h.path + ['\0'] + (Format(h.line) + ['\0'] + (Format(h.column) + ['\0'] + (h.source + ['\0'] + h.error)))
  }

  function Keys(hints: seq<Hint>): set<string> {
    set i | 0 <= i < |hints| :: HintKey(hints[i])
  }

  function Keep(out: seq<Hint>, h: Hint): seq<Hint> {
    if |out| >= MAX_HINTS || h.path == "" || h.error == "" || HintKey(h) in Keys(out) then out else out + [h]
  }

  function KeepAll(hints: seq<Hint>): seq<Hint> {
    if hints == [] then [] else Keep(KeepAll(hints[..|hints| - 1]), hints[|hints| - 1])
  }

  function Normalize(hints: seq<Hint>): seq<Hint> {
    KeepAll(MapEach(hints, Tidy))
  }

  lemma {:induction false} FullStaysFull(hints: seq<Hint>, k: nat)
    requires k <= |hints| && |KeepAll(hints[..k])| >= MAX_HINTS
    ensures KeepAll(hints) == KeepAll(hints[..k])
    decreases |hints| - k
  {
    if k < |hints| {
      assert hints[..k + 1][..k] == hints[..k];
      FullStaysFull(hints, k + 1);
    } else {
      assert hints[..k] == hints;
    }
  }

  lemma KeepNext(hints: seq<Hint>, i: nat)
    requires i < |hints|
    ensures KeepAll(hints[..i + 1]) == Keep(KeepAll(hints[..i]), hints[i])
  {
    assert hints[..i + 1][..i] == hints[..i];
  }

  lemma KeysSnoc(hints: seq<Hint>, h: Hint)
    ensures Keys(hints + [h]) == Keys(hints) + {HintKey(h)}
  {
    var all := hints + [h];
    assert all[|hints|] == h && forall i :: 0 <= i < |hints| ==> all[i] == hints[i];
    forall key | key in Keys(hints) + {HintKey(h)} ensures key in Keys(all) {
      if key in Keys(hints) {
        var i :| 0 <= i < |hints| && HintKey(hints[i]) == key;
        assert HintKey(all[i]) == key;
      } else {
        assert HintKey(all[|hints|]) == key;
      }
    }
  }

  // The loop, for any way of tidying a hint.
  method KeepFirstDistinct(hints: seq<Hint>, tidy: Hint -> Hint) returns (out: seq<Hint>)
    ensures out == KeepAll(MapEach(hints, tidy))
  {
    ghost var tidied := MapEach(hints, tidy);
    var seen: set<string> := {};
    out := [];
    for i := 0 to |hints|
      invariant out == KeepAll(tidied[..i]) && |out| < MAX_HINTS
      invariant seen == Keys(out)
    {
      KeepNext(tidied, i);
      var hint := tidy(hints[i]);
      if hint.path == "" || hint.error == "" {
        continue;
      }
      var key := HintKey(hint);
      if key in seen {
        continue;
      }
      KeysSnoc(out, hint);
      seen := seen + {key};
      out := out + [hint];
      if |out| >= MAX_HINTS {
        FullStaysFull(tidied, i + 1);
        break;
      }
    }
    assert tidied[..|hints|] == tidied;
  }

  method NormalizeCompletionDiagnosticRepairHints(hints: seq<Hint>) returns (out: seq<Hint>)
    ensures out == Normalize(hints)
  {
    out := KeepFirstDistinct(hints, Tidy);
  }

  function HintsFromText(text: string): seq<Hint> {
    if HasHeader(text) then Normalize(HintsFromLines(Split(TrimSpace(text), '\n'))) else []
  }

  // The body of the parser's loop.
  method ReadHintLine(line: string) returns (hints: seq<Hint>)
    ensures hints == HintsFromLine(line)
  {
    var fields := LineFields(line);
    if |fields| < 2 {
      return [];
    }
    hints := DiagnosticRepairHintsFromNewDiagFields(TrimSpace(line), ScopePaths.NormalizeScopePath(fields[1]));
  }

  method ReadHintLines(lines: seq<string>) returns (hints: seq<Hint>)
    ensures hints == HintsFromLines(lines)
  {
    hints := [];
    for i := 0 to |lines|
      invariant hints == HintsFromLines(lines[..i])
    {
      assert lines[..i + 1][..i] == lines[..i];
      var found := ReadHintLine(lines[i]);
      hints := hints + found;
    }
    assert lines[..|lines|] == lines;
  }

  method MutationVerifierDiagnosticRepairHintsFromText(text: string) returns (hints: seq<Hint>)
    ensures hints == HintsFromText(text)
  {
    if !HasHeader(text) {
      return [];
    }
    hints := ReadHintLines(Split(TrimSpace(text), '\n'));
    hints := NormalizeCompletionDiagnosticRepairHints(hints);
  }
}
