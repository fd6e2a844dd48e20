// The printer of verified disk-delta evidence (internal/agent/mutation_footer.go).
module MutationFooter {
  import opened Wrappers
  import opened Text
  import opened Decimal

  datatype Diagnostic = Diagnostic(line: Int, column: Int, error: string, source: string)

  datatype Mutation = Mutation(
    operation: string,
    path: string,
    changed: bool,
    beforeExists: bool,
    afterExists: bool,
    beforeHash: string,
    afterHash: string,
    beforeLines: Int,
    afterLines: Int,
    lineDelta: Int,
    language: string,
    status: string,
    newCount: Int,
    existingCount: Int,
    resolvedCount: Int,
    newDiagnostics: seq<Diagnostic>,
    failureFamily: string)

  const HEADER := "[Filesystem mutation verifier]"
  const TRAILER :=
    "Use this verified disk-delta evidence "
    + "before claiming file changes. "
    + "If an intended edit has no matching "
    + "changed=true mutation, continue with "
    + "the smallest corrective action "
    + "or report incomplete work."
  const MAX_ERROR_BYTES := 96
  const MAX_PRINTED_DIAGNOSTICS := 3

  function EmptyAs(value: string, placeholder: string): string {
    var trimmed := TrimSpace(value);
    if trimmed == "" then placeholder else trimmed
  }

  function EmptyAsUnknown(value: string): string {
    EmptyAs(value, "(unknown)")
  }

  function EmptyAsNone(value: string): string {
    EmptyAs(value, "none")
  }

  function CompactError(value: string): string {
    var flat := ReplaceChar(ReplaceChar(TrimSpace(value), '\n', ' '), '\t', ' ');
    if flat == "" then "(unknown)"
    else if ByteLength(flat) <= MAX_ERROR_BYTES then flat
    else CutBytes(flat, MAX_ERROR_BYTES) + "..."
  }

  function FormatBool(b: bool): string {
    if b then "true" else "false"
  }

  // A key=value token.
  datatype Entry = Entry(key: string, value: string)

  function Token(e: Entry): string {
    e.key + "=" + e.value
  }

  function Tokens(entries: seq<Entry>): (tokens: seq<string>)
    ensures |tokens| == |entries| && forall i :: 0 <= i < |entries| ==> tokens[i] == Token(entries[i])
  {
    seq(|entries|, i requires 0 <= i < |entries| => Token(entries[i]))
  }

  function Arrow(before: string, after: string): string {
    before + ("->" + after)
  }

  function EvidenceEntries(m: Mutation): seq<Entry> {
    [ Entry("changed", FormatBool(m.changed)),
      Entry("before_exists", FormatBool(m.beforeExists)),
      Entry("after_exists", FormatBool(m.afterExists)),
      Entry("lines", Arrow(Format(m.beforeLines), Format(m.afterLines))),
      Entry("line_delta", FormatSigned(m.lineDelta)) ]
    + (if m.beforeHash != "" || m.afterHash != ""
       then [Entry("hash", Arrow(EmptyAsNone(m.beforeHash), EmptyAsNone(m.afterHash)))] else [])
  }

  function DiagnosticEntries(m: Mutation): seq<Entry> {
    if m.status == "" then []
    else
      [ Entry("diagnostics", m.status),
        Entry("language", EmptyAsUnknown(m.language)),
        Entry("new", Format(m.newCount)),
        Entry("existing", Format(m.existingCount)),
        Entry("resolved", Format(m.resolvedCount)) ]
  }

  function FirstThree(ds: seq<Diagnostic>): seq<Diagnostic> {
    if |ds| > MAX_PRINTED_DIAGNOSTICS then ds[..MAX_PRINTED_DIAGNOSTICS] else ds
  }

  function Printed(m: Mutation): seq<Diagnostic> {
    if m.status == "" then [] else FirstThree(m.newDiagnostics)
  }

  function DiagnosticValue(d: Diagnostic): string {
    EmptyAsUnknown(d.source) + ":" + (Format(d.line) + ":" + (Format(d.column) + ":" + CompactError(d.error)))
  }

  function DiagnosticValues(ds: seq<Diagnostic>): (values: seq<string>)
    ensures |values| == |ds| && forall i :: 0 <= i < |ds| ==> values[i] == DiagnosticValue(ds[i])
  {
    seq(|ds|, i requires 0 <= i < |ds| => DiagnosticValue(ds[i]))
  }

  function Segment(k: nat, value: string): string {
    " new_diag_" + (Format(k) + ("=" + value))
  }

  // One segment per value, numbered from k.
  function SegmentList(values: seq<string>, k: nat): (parts: seq<string>)
    ensures |parts| == |values| && forall i :: 0 <= i < |parts| ==> parts[i] == Segment(k + i, values[i])
  {
    seq(|values|, i requires 0 <= i < |values| => Segment(k + i, values[i]))
  }

  function Segments(values: seq<string>, k: nat): string {
    Concat(SegmentList(values, k))
  }

  function FailureText(m: Mutation): string {
    if m.failureFamily == "" then "" else " failure_family=" + m.failureFamily
  }

  // The key=value tokens of a line, in printing order.
  function Entries(m: Mutation): seq<Entry> {
    EvidenceEntries(m) + DiagnosticEntries(m)
  }

  // The part of the line that may hold free text.
  function Tail(m: Mutation): string {
    Segments(DiagnosticValues(Printed(m)), 1) + FailureText(m)
  }

  function LineOf(operation: string, path: string, entries: seq<Entry>, tail: string): string {
    "- " + (operation + (Spaced([path] + Tokens(entries)) + tail))
  }

  // One line, without its final newline.
  function Line(m: Mutation): string {
    LineOf(EmptyAsUnknown(m.operation), EmptyAsUnknown(m.path), Entries(m), Tail(m))
  }

  function LineList(ms: seq<Mutation>): (lines: seq<string>)
    ensures |lines| == |ms| && forall i :: 0 <= i < |ms| ==> lines[i] == Line(ms[i])
  {
    seq(|ms|, i requires 0 <= i < |ms| => Line(ms[i]))
  }

  function WithNewlines(lines: seq<string>): (parts: seq<string>)
    ensures |parts| == |lines| && forall i :: 0 <= i < |parts| ==> parts[i] == lines[i] + "\n"
  {
    seq(|lines|, i requires 0 <= i < |lines| => lines[i] + "\n")
  }

  function Unlines(lines: seq<string>): string {
    Concat(WithNewlines(lines))
  }

  function Footer(ms: seq<Mutation>): string {
    if ms == [] then "" else HEADER + ("\n" + (Unlines(LineList(ms)) + TRAILER))
  }

  predicate IsRecord(m: Option<Mutation>) {
    m.Some? && !(TrimSpace(m.value.operation) == "" && TrimSpace(m.value.path) == "")
  }

  function Kept(ms: seq<Option<Mutation>>): seq<Mutation> {
    if ms == [] then []
    else
      var last := ms[|ms| - 1];
      Kept(ms[..|ms| - 1]) + if IsRecord(last) then [last.value] else []
  }

  // Records are kept for themselves, whatever stands around them, so their order stays.
  lemma {:induction false} KeptConcat(a: seq<Option<Mutation>>, b: seq<Option<Mutation>>)
    ensures Kept(a + b) == Kept(a) + Kept(b)
  {
    if b == [] {
      assert a + b == a;
    } else {
      var front := b[..|b| - 1];
      assert (a + b)[..|a + b| - 1] == a + front && (a + b)[|a + b| - 1] == b[|b| - 1];
      KeptConcat(a, front);
    }
  }

  lemma {:induction false} KeptAre(ms: seq<Option<Mutation>>, m: Mutation)
    ensures m in Kept(ms) <==> Some(m) in ms && (TrimSpace(m.operation) != "" || TrimSpace(m.path) != "")
  {
    if ms != [] {
      KeptAre(ms[..|ms| - 1], m);
    }
  }

  // What is kept is every record with an operation or a path, in order.
  method FilterMutationRecords(ms: seq<Option<Mutation>>) returns (out: seq<Mutation>)
    ensures out == Kept(ms)
    ensures forall m :: m in out <==> Some(m) in ms && (TrimSpace(m.operation) != "" || TrimSpace(m.path) != "")
  {
    forall m ensures m in Kept(ms) <==> Some(m) in ms && (TrimSpace(m.operation) != "" || TrimSpace(m.path) != "") {
      KeptAre(ms, m);
    }
    out := [];
    for i := 0 to |ms|
      invariant out == Kept(ms[..i])
    {
      assert ms[..i + 1][..i] == ms[..i];
      if IsRecord(ms[i]) {
        out := out + [ms[i].value];
      }
    }
    assert ms[..|ms|] == ms;
  }

  lemma NextSegment(values: seq<string>, i: nat, value: string)
    requires i < |values| && values[i] == value
    ensures Segments(values[..i + 1], 1) == Segments(values[..i], 1) + Segment(i + 1, value)
  {
    assert SegmentList(values[..i + 1], 1) == SegmentList(values[..i], 1) + [Segment(i + 1, value)];
    ConcatSnoc(SegmentList(values[..i], 1), Segment(i + 1, value));
  }

  lemma NextLine(prefix: string, lines: seq<string>, i: nat, line: string)
    requires i < |lines| && lines[i] == line
    ensures prefix + Unlines(lines[..i + 1]) == (prefix + Unlines(lines[..i])) + (line + "\n")
  {
    assert WithNewlines(lines[..i + 1]) == WithNewlines(lines[..i]) + [line + "\n"];
    ConcatSnoc(WithNewlines(lines[..i]), line + "\n");
    Assoc(prefix, Unlines(lines[..i]), line + "\n");
  }

  lemma FirstValues(ds: seq<Diagnostic>, n: nat)
    requires n == |FirstThree(ds)|
    ensures DiagnosticValues(FirstThree(ds)) == DiagnosticValues(ds)[..n]
  {
  }

  // Numbered segments for at most three diagnostics, appended one at a time.
  method WriteDiagnostics(ds: seq<Diagnostic>) returns (b: string)
    ensures b == Segments(DiagnosticValues(FirstThree(ds)), 1)
  {
    ghost var values := DiagnosticValues(ds);
    b := "";
    var i := 0;
    while i < |ds|
      invariant 0 <= i <= |ds| && i <= MAX_PRINTED_DIAGNOSTICS
      invariant b == Segments(values[..i], 1)
      decreases |ds| - i
    {
      if i >= MAX_PRINTED_DIAGNOSTICS {
        break;
      }
      var value := DiagnosticValue(ds[i]);
      NextSegment(values, i, value);
      b := b + Segment(i + 1, value);
      i := i + 1;
    }
    FirstValues(ds, i);
  }

  lemma Regroup(p: string, op: string, a: string, d: string, s: string, f: string)
    ensures ((p + (op + a)) + (d + s)) + f == p + (op + ((a + d) + (s + f)))
    ensures f == "" ==> (p + (op + a)) + (d + s) == p + (op + ((a + d) + (s + f)))
    ensures d == "" && s == "" ==> (p + (op + a)) + f == p + (op + ((a + d) + (s + f)))
    ensures d == "" && s == "" && f == "" ==> p + (op + a) == p + (op + ((a + d) + (s + f)))
  {
  }

  lemma LineInParts(op: string, path: string, evidence: seq<Entry>, diagnostics: seq<Entry>, s: string, f: string)
    ensures var a, d := Spaced([path] + Tokens(evidence)), Spaced(Tokens(diagnostics));
      && LineOf(op, path, evidence + diagnostics, s + f) == (("- " + (op + a)) + (d + s)) + f
      && (f == "" ==> LineOf(op, path, evidence + diagnostics, s + f) == ("- " + (op + a)) + (d + s))
      && (d == "" && s == "" ==> LineOf(op, path, evidence + diagnostics, s + f) == ("- " + (op + a)) + f)
      && (d == "" && s == "" && f == "" ==> LineOf(op, path, evidence + diagnostics, s + f) == "- " + (op + a))
  {
    var a, d := Spaced([path] + Tokens(evidence)), Spaced(Tokens(diagnostics));
    assert [path] + Tokens(evidence + diagnostics) == ([path] + Tokens(evidence)) + Tokens(diagnostics);
    SpacedConcat([path] + Tokens(evidence), Tokens(diagnostics));
    Regroup("- ", op, a, d, s, f);
  }

  method WriteLine(m: Mutation) returns (line: string)
    ensures line == Line(m)
  {
    var operation, path := EmptyAsUnknown(m.operation), EmptyAsUnknown(m.path);
    line := "- " + (operation + Spaced([path] + Tokens(EvidenceEntries(m))));
    ghost var segments := "";
    if m.status != "" {
      var diagnostics := WriteDiagnostics(m.newDiagnostics);
      line := line + (Spaced(Tokens(DiagnosticEntries(m))) + diagnostics);
      segments := diagnostics;
    }
    if m.failureFamily != "" {
      line := line + (" failure_family=" + m.failureFamily);
    }
    LineInParts(operation, path, EvidenceEntries(m), DiagnosticEntries(m), segments, FailureText(m));
  }

  method WriteLines(prefix: string, records: seq<Mutation>) returns (b: string)
    ensures b == prefix + Unlines(LineList(records))
  {
    ghost var lines := LineList(records);
    b := prefix;
    for i := 0 to |records|
      invariant b == prefix + Unlines(lines[..i])
    {
      var line := WriteLine(records[i]);
      NextLine(prefix, lines, i, line);
      b := b + (line + "\n");
    }
    assert lines[..|records|] == lines;
  }

  method FormatMutationVerifierFooter(ms: seq<Option<Mutation>>) returns (text: string)
    ensures text == Footer(Kept(ms))
  {
    var records := FilterMutationRecords(ms);
    if |records| == 0 {
      return "";
    }
    var b := WriteLines(HEADER + "\n", records);
    Assoc(HEADER + "\n", Unlines(LineList(records)), TRAILER);
    Assoc(HEADER, "\n", Unlines(LineList(records)) + TRAILER);
    text := b + TRAILER;
  }

  // A printed error is never empty and has no line break or tab. It is the flattened text itself
  // when that fits in the limit; otherwise exactly the limit's bytes of it, with an ellipsis.
  lemma CompactErrorFits(error: string)
    ensures CompactError(error) != "" && '\n' !in CompactError(error) && '\t' !in CompactError(error)
    ensures var flat := ReplaceChar(ReplaceChar(TrimSpace(error), '\n', ' '), '\t', ' ');
      flat != "" ==>
        if ByteLength(flat) <= 96 then CompactError(error) == flat
        else
          var k := WholeCharacters(flat, 96);
          && k < |flat| && flat[..k] <= CompactError(error)
          && ByteLength(flat[..k]) <= 96 < ByteLength(flat[..k]) + Utf8Width(flat[k])
          && |CompactError(error)| == k + (96 - ByteLength(flat[..k])) + 3
  {
    var flat := ReplaceChar(ReplaceChar(TrimSpace(error), '\n', ' '), '\t', ' ');
    assert forall i :: 0 <= i < |flat| ==> flat[i] != '\n' && flat[i] != '\t';
    if ByteLength(flat) > 96 {
      WholeCharactersFit(flat, 96);
    }
  }

  // A short error on one line is printed as it is.
  lemma CompactKeepsShortErrors(error: string)
    requires error != "" && Trimmed(error) && ByteLength(error) <= 96 && '\n' !in error && '\t' !in error
    ensures CompactError(error) == error
  {
    TrimSpaceTrims(error);
    assert ReplaceChar(error, '\n', ' ') == error && ReplaceChar(error, '\t', ' ') == error;
  }
}
