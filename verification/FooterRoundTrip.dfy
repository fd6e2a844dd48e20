// What parsing a printed footer gives back: exactly when one line's receipt is restored, and
// the receipts of a whole footer.
module FooterRoundTrip {
  import opened Wrappers
  import opened Text
  import opened Decimal
  import ScopePaths
  import opened MutationFooter
  import opened FooterParser

  // The fields printed as single tokens hold no inner whitespace.
  predicate WellFormed(m: Mutation) {
    && NoSpace(TrimSpace(m.operation)) && NoSpace(TrimSpace(m.path))
    && NoSpace(TrimSpace(m.beforeHash)) && NoSpace(TrimSpace(m.afterHash))
    && NoSpace(m.status) && NoSpace(TrimSpace(m.language))
  }

  // The free text printed at the end of a line does not break it.
  predicate SingleLine(m: Mutation) {
    && '\n' !in m.failureFamily
    && forall i :: 0 <= i < |Printed(m)| ==> '\n' !in EmptyAsUnknown(Printed(m)[i].source)
  }

  predicate KeepsText(override: Option<string>, text: string) {
    override.None? || TrimSpace(override.value) == text
  }

  predicate KeepsNumber(override: Option<string>, n: Int) {
    override.None? || ParseReceiptInt(override.value) == n
  }

  // No token of the list overwrites a diagnostic value with a different one.
  predicate TokensKeep(tokens: seq<string>, status: string, language: string,
                       newCount: Int, existingCount: Int, resolvedCount: Int) {
    if status == "" then KeepsText(LastValue(tokens, "diagnostics"), "")
    else
      && KeepsText(LastValue(tokens, "diagnostics"), status)
      && KeepsText(LastValue(tokens, "language"), language)
      && KeepsNumber(LastValue(tokens, "new"), newCount)
      && KeepsNumber(LastValue(tokens, "existing"), existingCount)
      && KeepsNumber(LastValue(tokens, "resolved"), resolvedCount)
  }

  // The tokens of the free text, the only ones that can do so.
  predicate KeepsReceipt(m: Mutation) {
    TokensKeep(Fields(Tail(m)), m.status, EmptyAsUnknown(m.language), m.newCount, m.existingCount, m.resolvedCount)
  }

  function VerifierReceipt(path: string, status: string, language: string,
                           newCount: Int, existingCount: Int, resolvedCount: Int): Option<Receipt> {
    if status == "" then None
    else Some(Receipt(VERIFIER, VERIFIER, status, language, ScopePaths.NormalizeScopePath(path),
                      Add(newCount, existingCount), newCount, newCount, existingCount, resolvedCount))
  }

  function ExpectedReceipt(m: Mutation): Option<Receipt> {
    VerifierReceipt(EmptyAsUnknown(m.path), m.status, EmptyAsUnknown(m.language),
                    m.newCount, m.existingCount, m.resolvedCount)
  }

  // ---- Tokens of a printed line ------------------------------------------------------------

  predicate IsKey(key: string) {
    IsWord(key) && '=' !in key
  }

  predicate IsEntry(e: Entry) {
    IsKey(e.key) && NoSpace(e.value)
  }

  predicate AreEntries(entries: seq<Entry>) {
    forall i :: 0 <= i < |entries| ==> IsEntry(entries[i])
  }

  function EntryValue(entries: seq<Entry>, key: string): Option<string> {
    if entries == [] then None
    else
      var last := entries[|entries| - 1];
      if last.key == key then Some(last.value) else EntryValue(entries[..|entries| - 1], key)
  }

  lemma {:induction false} TokensDefineEntries(entries: seq<Entry>, key: string)
    requires AreEntries(entries)
    ensures LastValue(Tokens(entries), key) == EntryValue(entries, key)
    ensures forall t :: t in Tokens(entries) ==> IsWord(t)
  {
    if entries != [] {
      var front, last := entries[..|entries| - 1], entries[|entries| - 1];
      assert Tokens(entries)[..|entries| - 1] == Tokens(front);
      PrintedToken(last.key, last.value);
      TokensDefineEntries(front, key);
      assert Tokens(entries) == Tokens(front) + [Token(last)];
    }
  }

  lemma TrimItem(body: string)
    requires body != "" && !IsSpace(body[0])
    ensures TrimSpace("- " + body) == "- " + TrimRight(body)
  {
    TrimRightKeepsHead(body);
    TrimRightSuffix("- ", body);
    assert ("- " + body)[0] == '-' && TrimLeft("- " + body) == "- " + body;
  }

  lemma FieldsOfItem(body: string)
    requires body != "" && !IsSpace(body[0])
    ensures LineFields("- " + body) == Fields(body)
  {
    TrimItem(body);
    FieldsTrimRight(body);
    assert ("- " + TrimRight(body))[2..] == TrimRight(body);
  }

  lemma StartsWithWord(word: string, rest: string)
    requires IsWord(word)
    ensures word + rest != "" && !IsSpace((word + rest)[0])
  {
    assert (word + rest)[0] == word[0];
  }

  lemma RestStartsBlank(tokens: seq<string>, tail: string)
    requires tail == [] || tail[0] == ' '
    ensures Spaced(tokens) + tail == [] || (Spaced(tokens) + tail)[0] == ' '
  {
  }

  lemma PutFirst(a: string, b: seq<string>, c: seq<string>)
    ensures [a] + (b + c) == [a] + b + c
  {
  }

  lemma FieldsAfterWord(word: string, tokens: seq<string>, tail: string)
    requires IsWord(word) && forall t :: t in tokens ==> IsWord(t)
    requires tail == [] || tail[0] == ' '
    ensures Fields(word + (Spaced(tokens) + tail)) == [word] + tokens + Fields(tail)
  {
    RestStartsBlank(tokens, tail);
    FieldsWord(word, Spaced(tokens) + tail);
    FieldsSpaced(tokens, tail);
    PutFirst(word, tokens, Fields(tail));
  }

  lemma FieldsOfLine(word: string, tokens: seq<string>, tail: string)
    requires IsWord(word) && forall t :: t in tokens ==> IsWord(t)
    requires tail == [] || tail[0] == ' '
    ensures LineFields("- " + (word + (Spaced(tokens) + tail))) == [word] + tokens + Fields(tail)
  {
    var rest := Spaced(tokens) + tail;
    StartsWithWord(word, rest);
    FieldsOfItem(word + rest);
    FieldsAfterWord(word, tokens, tail);
  }

  lemma DropTwo(a: string, b: string, c: seq<string>, d: seq<string>)
    ensures var all := [a] + ([b] + c) + d;
      |all| >= 2 && all[1] == b && all[2..] == c + d
  {
  }

  // What the parser reads from a line: the printed entries, overruled by the tail.
  lemma LineReadsBack(op: string, path: string, entries: seq<Entry>, tail: string, key: string)
    requires IsWord(op) && IsWord(path) && AreEntries(entries)
    requires tail == [] || tail[0] == ' '
    ensures var fields := LineFields(LineOf(op, path, entries, tail));
      && |fields| >= 2 && fields[1] == path
      && Get(KeyValues(fields[2..]), key)
         == LastValue(Fields(tail), key).GetOr(EntryValue(entries, key).GetOr(""))
  {
    var rest := Tokens(entries) + Fields(tail);
    TokensDefineEntries(entries, key);
    FieldsOfLine(op, [path] + Tokens(entries), tail);
    DropTwo(op, path, Tokens(entries), Fields(tail));
    GetIsLastValue(rest, key);
    LastValueConcat(Tokens(entries), Fields(tail), key);
  }

  lemma TailStartsBlank(m: Mutation)
    ensures Tail(m) == [] || Tail(m)[0] == ' '
  {
  }

  lemma EmptyAsIsWord(value: string, placeholder: string)
    requires NoSpace(TrimSpace(value)) && IsWord(placeholder)
    ensures IsWord(EmptyAs(value, placeholder))
  {
  }

  lemma ArrowIsWord(before: string, after: string)
    requires NoSpace(before) && NoSpace(after)
    ensures NoSpace(Arrow(before, after))
  {
  }

  lemma LongKeys()
    ensures IsKey("before_exists") && IsKey("after_exists")
  {
  }

  lemma EvidenceKeys()
    ensures IsKey("changed") && IsKey("lines") && IsKey("line_delta") && IsKey("hash")
    ensures IsKey("before_exists") && IsKey("after_exists")
  {
    LongKeys();
  }

  lemma Placeholders()
    ensures NoSpace("true") && NoSpace("false") && IsWord("none") && IsWord("(unknown)")
  {
  }

  lemma DiagnosticKeys()
    ensures IsKey("diagnostics") && IsKey("language") && IsKey("new") && IsKey("existing") && IsKey("resolved")
  {
  }

  lemma EvidenceAt(entries: seq<Entry>, a: string, b: string, c: string, d: string, e: string, f: string)
    requires entries == [Entry("changed", a), Entry("before_exists", b), Entry("after_exists", c),
                         Entry("lines", d), Entry("line_delta", e)]
      || entries == [Entry("changed", a), Entry("before_exists", b), Entry("after_exists", c),
                     Entry("lines", d), Entry("line_delta", e)]
                    + [Entry("hash", f)]
    requires NoSpace(a) && NoSpace(b) && NoSpace(c) && NoSpace(d) && NoSpace(e) && NoSpace(f)
    ensures AreEntries(entries)
    ensures forall i :: 0 <= i < |entries| ==> entries[i].key != "diagnostics"
  {
    EvidenceKeys();
  }

  lemma EvidenceIsEntries(m: Mutation)
    requires WellFormed(m)
    ensures AreEntries(EvidenceEntries(m))
    ensures forall i :: 0 <= i < |EvidenceEntries(m)| ==> EvidenceEntries(m)[i].key != "diagnostics"
  {
    Placeholders();
    EmptyAsIsWord(m.beforeHash, "none");
    EmptyAsIsWord(m.afterHash, "none");
    FormatShape(m.beforeLines);
    FormatShape(m.afterLines);
    FormatShape(m.lineDelta);
    ArrowIsWord(Format(m.beforeLines), Format(m.afterLines));
    ArrowIsWord(EmptyAsNone(m.beforeHash), EmptyAsNone(m.afterHash));
    EvidenceAt(EvidenceEntries(m), FormatBool(m.changed), FormatBool(m.beforeExists), FormatBool(m.afterExists),
               Arrow(Format(m.beforeLines), Format(m.afterLines)), FormatSigned(m.lineDelta),
               Arrow(EmptyAsNone(m.beforeHash), EmptyAsNone(m.afterHash)));
  }

  lemma DiagnosticsAreEntries(m: Mutation)
    requires WellFormed(m)
    ensures AreEntries(DiagnosticEntries(m))
  {
    Placeholders();
    DiagnosticKeys();
    EmptyAsIsWord(m.language, "(unknown)");
    FormatShape(m.newCount);
    FormatShape(m.existingCount);
    FormatShape(m.resolvedCount);
  }

  lemma EntriesAreEntries(m: Mutation)
    requires WellFormed(m)
    ensures AreEntries(Entries(m))
  {
    EvidenceIsEntries(m);
    DiagnosticsAreEntries(m);
  }

  lemma {:induction false} EntryAt(entries: seq<Entry>, i: nat, key: string)
    requires i < |entries| && entries[i].key == key
    requires forall j :: i < j < |entries| ==> entries[j].key != key
    ensures EntryValue(entries, key) == Some(entries[i].value)
  {
    if i < |entries| - 1 {
      EntryAt(entries[..|entries| - 1], i, key);
    }
  }

  lemma {:induction false} NoEntry(entries: seq<Entry>, key: string)
    requires forall j :: 0 <= j < |entries| ==> entries[j].key != key
    ensures EntryValue(entries, key).None?
  {
    if entries != [] {
      NoEntry(entries[..|entries| - 1], key);
    }
  }

  lemma PrintedValues(m: Mutation)
    requires WellFormed(m)
    ensures EntryValue(Entries(m), "diagnostics") == if m.status == "" then None else Some(m.status)
    ensures m.status != "" ==>
      && EntryValue(Entries(m), "language") == Some(EmptyAsUnknown(m.language))
      && EntryValue(Entries(m), "new") == Some(Format(m.newCount))
      && EntryValue(Entries(m), "existing") == Some(Format(m.existingCount))
      && EntryValue(Entries(m), "resolved") == Some(Format(m.resolvedCount))
  {
    var entries, n := Entries(m), |EvidenceEntries(m)|;
    if m.status == "" {
      EvidenceIsEntries(m);
      assert entries == EvidenceEntries(m);
      NoEntry(entries, "diagnostics");
    } else {
      EntryAt(entries, n, "diagnostics");
      EntryAt(entries, n + 1, "language");
      EntryAt(entries, n + 2, "new");
      EntryAt(entries, n + 3, "existing");
      EntryAt(entries, n + 4, "resolved");
    }
  }

  lemma FlagValues(m: Mutation, key: string)
    ensures var value := EntryValue(Entries(m), key);
      && (key == "changed" ==> value == Some(FormatBool(m.changed)))
      && (key == "before_exists" ==> value == Some(FormatBool(m.beforeExists)))
      && (key == "after_exists" ==> value == Some(FormatBool(m.afterExists)))
  {
    if key == "changed" {
      EntryAt(Entries(m), 0, key);
    } else if key == "before_exists" {
      EntryAt(Entries(m), 1, key);
    } else if key == "after_exists" {
      EntryAt(Entries(m), 2, key);
    }
  }

  lemma LineValues(m: Mutation, key: string)
    ensures var value := EntryValue(Entries(m), key);
      && (key == "lines" ==> value == Some(Arrow(Format(m.beforeLines), Format(m.afterLines))))
      && (key == "line_delta" ==> value == Some(FormatSigned(m.lineDelta)))
  {
    if key == "lines" {
      EntryAt(Entries(m), 3, key);
    } else if key == "line_delta" {
      EntryAt(Entries(m), 4, key);
    }
  }

  lemma HashValue(m: Mutation)
    ensures EntryValue(Entries(m), "hash")
         == if m.beforeHash == "" && m.afterHash == "" then None
            else Some(Arrow(EmptyAsNone(m.beforeHash), EmptyAsNone(m.afterHash)))
  {
    var entries := Entries(m);
    EvidenceKeys();
    if m.beforeHash == "" && m.afterHash == "" {
      assert forall j :: 0 <= j < 5 ==> entries[j] == EvidenceEntries(m)[j];
      assert forall j :: 5 <= j < |entries| ==> entries[j] == DiagnosticEntries(m)[j - 5];
      NoEntry(entries, "hash");
    } else {
      assert forall j :: 6 <= j < |entries| ==> entries[j] == DiagnosticEntries(m)[j - 6];
      EntryAt(entries, 5, "hash");
    }
  }

  lemma FamilyIsLastWord(segments: string, family: string)
    requires family != "" && NoSpace(family)
    ensures LastValue(Fields(segments + (" failure_family=" + family)), "failure_family") == Some(family)
  {
    var token := "failure_family" + "=" + family;
    assert IsKey("failure_family");
    PrintedToken("failure_family", family);
    assert " failure_family=" + family == " " + token;
    FieldsAppendWord(segments, token);
    var words := Fields(segments);
    assert (words + [token])[|words + [token]| - 1] == token;
  }

  // The other printed facts read back too, wherever the free text does not redefine them.
  lemma EvidenceReadsBack(m: Mutation, key: string)
    requires WellFormed(m) && LastValue(Fields(Tail(m)), key).None?
    ensures |LineFields(Line(m))| >= 2
    ensures var read := Get(KeyValues(LineFields(Line(m))[2..]), key);
      && (key == "changed" ==> read == FormatBool(m.changed))
      && (key == "before_exists" ==> read == FormatBool(m.beforeExists))
      && (key == "after_exists" ==> read == FormatBool(m.afterExists))
      && (key == "lines" ==> read == Arrow(Format(m.beforeLines), Format(m.afterLines)))
      && (key == "line_delta" ==> read == FormatSigned(m.lineDelta))
      && (key == "hash" ==> read == if m.beforeHash == "" && m.afterHash == "" then ""
                                    else Arrow(EmptyAsNone(m.beforeHash), EmptyAsNone(m.afterHash)))
  {
    Placeholders();
    EntriesAreEntries(m);
    TailStartsBlank(m);
    LineReadsBack(EmptyAsUnknown(m.operation), EmptyAsUnknown(m.path), Entries(m), Tail(m), key);
    FlagValues(m, key);
    LineValues(m, key);
    HashValue(m);
  }

  // The failure family is the last thing on a line, so nothing redefines it; the first two words
  // are the operation and the path.
  lemma FamilyReadsBack(m: Mutation)
    requires WellFormed(m)
    ensures var words := LineFields(Line(m));
      && |words| >= 2
      && words[0] == (if TrimSpace(m.operation) == "" then "(unknown)" else TrimSpace(m.operation))
      && words[1] == (if TrimSpace(m.path) == "" then "(unknown)" else TrimSpace(m.path))
      && (m.failureFamily != "" && NoSpace(m.failureFamily) ==>
            LastValue(words[2..], "failure_family") == Some(m.failureFamily))
  {
    Placeholders();
    EntriesAreEntries(m);
    TailStartsBlank(m);
    var op, path, family := EmptyAsUnknown(m.operation), EmptyAsUnknown(m.path), m.failureFamily;
    TokensDefineEntries(Entries(m), "failure_family");
    FieldsOfLine(op, [path] + Tokens(Entries(m)), Tail(m));
    DropTwo(op, path, Tokens(Entries(m)), Fields(Tail(m)));
    if family != "" && NoSpace(family) {
      FamilyIsLastWord(Segments(DiagnosticValues(Printed(m)), 1), family);
      LastValueConcat(Tokens(Entries(m)), Fields(Tail(m)), "failure_family");
    }
  }

  // ---- One line ----------------------------------------------------------------------------

  lemma WordsAreTrimmed(s: string)
    requires NoSpace(s)
    ensures TrimSpace(s) == s
  {
  }

  lemma ValuesDecideReceipt(path: string, values: map<string, string>, tokens: seq<string>, status: string,
                            language: string, newCount: Int, existingCount: Int, resolvedCount: Int)
    requires NoSpace(status) && NoSpace(language)
    requires Get(values, "diagnostics") == LastValue(tokens, "diagnostics").GetOr(status)
    requires status != "" ==>
      && Get(values, "language") == LastValue(tokens, "language").GetOr(language)
      && Get(values, "new") == LastValue(tokens, "new").GetOr(Format(newCount))
      && Get(values, "existing") == LastValue(tokens, "existing").GetOr(Format(existingCount))
      && Get(values, "resolved") == LastValue(tokens, "resolved").GetOr(Format(resolvedCount))
    ensures ReceiptFromValues(path, values)
         == VerifierReceipt(path, status, language, newCount, existingCount, resolvedCount)
       <==> TokensKeep(tokens, status, language, newCount, existingCount, resolvedCount)
  {
    ParsePrintedInt(newCount);
    ParsePrintedInt(existingCount);
    ParsePrintedInt(resolvedCount);
    WordsAreTrimmed(status);
    WordsAreTrimmed(language);
  }

  lemma LineDecidesReceipt(op: string, path: string, entries: seq<Entry>, tail: string, status: string,
                           language: string, newCount: Int, existingCount: Int, resolvedCount: Int)
    requires IsWord(op) && IsWord(path) && AreEntries(entries)
    requires tail == [] || tail[0] == ' '
    requires NoSpace(status) && NoSpace(language)
    requires EntryValue(entries, "diagnostics") == if status == "" then None else Some(status)
    requires status != "" ==>
      && EntryValue(entries, "language") == Some(language)
      && EntryValue(entries, "new") == Some(Format(newCount))
      && EntryValue(entries, "existing") == Some(Format(existingCount))
      && EntryValue(entries, "resolved") == Some(Format(resolvedCount))
    ensures ReceiptFromLine(LineOf(op, path, entries, tail))
              == VerifierReceipt(path, status, language, newCount, existingCount, resolvedCount)
       <==> TokensKeep(Fields(tail), status, language, newCount, existingCount, resolvedCount)
  {
    LineReadsBack(op, path, entries, tail, "diagnostics");
    LineReadsBack(op, path, entries, tail, "language");
    LineReadsBack(op, path, entries, tail, "new");
    LineReadsBack(op, path, entries, tail, "existing");
    LineReadsBack(op, path, entries, tail, "resolved");
    ValuesDecideReceipt(path, KeyValues(LineFields(LineOf(op, path, entries, tail))[2..]), Fields(tail),
                        status, language, newCount, existingCount, resolvedCount);
  }

  // Exactly when a line gives its receipt back: the parser lets later tokens overwrite earlier
  // ones, so the free text at the end of the line must not redefine one of the five keys with
  // another value. A mutation without diagnostics gives none, under the same condition.
  lemma LineRoundTrip(m: Mutation)
    requires WellFormed(m)
    ensures ReceiptFromLine(Line(m)) == ExpectedReceipt(m) <==> KeepsReceipt(m)
  {
    Placeholders();
    EntriesAreEntries(m);
    TailStartsBlank(m);
    PrintedValues(m);
    LineDecidesReceipt(EmptyAsUnknown(m.operation), EmptyAsUnknown(m.path), Entries(m), Tail(m), m.status,
                       EmptyAsUnknown(m.language), m.newCount, m.existingCount, m.resolvedCount);
  }

  // ---- The whole footer --------------------------------------------------------------------

  lemma PartsLackNewline(source: string, line: string, column: string, error: string)
    requires '\n' !in source && '\n' !in line && '\n' !in column && '\n' !in error
    ensures '\n' !in source + ":" + (line + ":" + (column + ":" + error))
  {
  }

  lemma ValueIsSingleLine(d: Diagnostic)
    requires '\n' !in EmptyAsUnknown(d.source)
    ensures '\n' !in DiagnosticValue(d)
  {
    FormatShape(d.line);
    FormatShape(d.column);
    CompactErrorFits(d.error);
    PartsLackNewline(EmptyAsUnknown(d.source), Format(d.line), Format(d.column), CompactError(d.error));
  }

  lemma SegmentLacksNewline(number: string, value: string)
    requires '\n' !in number && '\n' !in value
    ensures '\n' !in " new_diag_" + (number + ("=" + value))
  {
  }

  lemma SegmentIsSingleLine(k: nat, value: string)
    requires '\n' !in value
    ensures '\n' !in Segment(k, value)
  {
    FormatShape(k);
    SegmentLacksNewline(Format(k), value);
  }

  lemma FailureIsSingleLine(m: Mutation)
    requires '\n' !in m.failureFamily
    ensures '\n' !in FailureText(m)
  {
  }

  lemma SegmentsAreSingleLine(ds: seq<Diagnostic>)
    requires forall i :: 0 <= i < |ds| ==> '\n' !in EmptyAsUnknown(ds[i].source)
    ensures '\n' !in Segments(DiagnosticValues(ds), 1)
  {
    var values := DiagnosticValues(ds);
    forall i | 0 <= i < |values| ensures '\n' !in SegmentList(values, 1)[i] {
      ValueIsSingleLine(ds[i]);
      SegmentIsSingleLine(1 + i, values[i]);
    }
    ConcatLacks(SegmentList(values, 1), '\n');
  }

  lemma TailIsSingleLine(m: Mutation)
    requires SingleLine(m)
    ensures '\n' !in Tail(m)
  {
    SegmentsAreSingleLine(Printed(m));
    FailureIsSingleLine(m);
  }

  lemma EntriesAreSingleLine(op: string, path: string, entries: seq<Entry>, tail: string)
    requires IsWord(op) && IsWord(path) && AreEntries(entries) && '\n' !in tail
    ensures '\n' !in LineOf(op, path, entries, tail)
  {
    var tokens := [path] + Tokens(entries);
    TokensDefineEntries(entries, "");
    WordsLackNewlines(op);
    forall t | t in tokens ensures '\n' !in t {
      WordsLackNewlines(t);
    }
    SpacedLacks(tokens, '\n');
  }

  lemma LineIsSingleLine(m: Mutation)
    requires WellFormed(m) && SingleLine(m)
    ensures '\n' !in Line(m)
  {
    Placeholders();
    EntriesAreEntries(m);
    TailIsSingleLine(m);
    EntriesAreSingleLine(EmptyAsUnknown(m.operation), EmptyAsUnknown(m.path), Entries(m), Tail(m));
  }

  lemma UnlinesFirst(lines: seq<string>, trailer: string)
    requires lines != []
    ensures Unlines(lines) + trailer == lines[0] + ['\n'] + (Unlines(lines[1..]) + trailer)
  {
    assert WithNewlines(lines)[1..] == WithNewlines(lines[1..]);
    Assoc(lines[0] + "\n", Unlines(lines[1..]), trailer);
  }

  lemma Prepended(line: string, lines: seq<string>, rest: seq<string>)
    requires lines != [] && line == lines[0]
    ensures [line] + (lines[1..] + rest) == lines + rest
  {
  }

  lemma {:induction false} SplitUnlines(lines: seq<string>, trailer: string)
    requires forall i :: 0 <= i < |lines| ==> '\n' !in lines[i]
    ensures Split(Unlines(lines) + trailer, '\n') == lines + Split(trailer, '\n')
  {
    if lines == [] {
      assert Unlines(lines) + trailer == trailer;
    } else {
      var line, rest := lines[0], Unlines(lines[1..]) + trailer;
      UnlinesFirst(lines, trailer);
      SplitAt(line, '\n', rest);
      SplitUnlines(lines[1..], trailer);
      Prepended(line, lines, Split(trailer, '\n'));
    }
  }

  lemma FramedTextSplits(text: string, header: string, lines: seq<string>, trailer: string)
    requires '\n' !in header && '\n' !in trailer
    requires header != "" && trailer != "" && !IsSpace(header[0]) && !IsSpace(trailer[|trailer| - 1])
    requires forall i :: 0 <= i < |lines| ==> '\n' !in lines[i]
    requires text == header + ("\n" + (Unlines(lines) + trailer))
    ensures TrimSpace(text) == text && header + "\n" <= text
    ensures Split(text, '\n') == [header] + lines + [trailer]
  {
    var rest := Unlines(lines) + trailer;
    assert text[0] == header[0] && text[|text| - 1] == trailer[|trailer| - 1];
    TrimSpaceTrims(text);
    assert text == header + ['\n'] + rest;
    SplitAt(header, '\n', rest);
    SplitUnlines(lines, trailer);
    SplitSeparatorFree(trailer, '\n');
  }

  lemma HeaderShape()
    ensures '\n' !in HEADER && |HEADER| > 2 && HEADER[0] == '[' && HEADER[|HEADER| - 1] == ']'
  {
  }

  lemma TrailerOpening()
    ensures '\n' !in "Use this verified disk-delta evidence " && '\n' !in "before claiming file changes. "
  {
  }

  lemma TrailerMiddle()
    ensures '\n' !in "If an intended edit has no matching " && '\n' !in "changed=true mutation, continue with "
  {
  }

  lemma TrailerClosing()
    ensures '\n' !in "the smallest corrective action " && '\n' !in "or report incomplete work."
  {
  }

  lemma TrailerIsSingleLine()
    ensures '\n' !in TRAILER
  {
    TrailerOpening();
    TrailerMiddle();
    TrailerClosing();
  }

  lemma TrailerEnds()
    ensures TRAILER != "" && TRAILER[0] == 'U' && TRAILER[|TRAILER| - 1] == '.'
  {
  }

  lemma NotAListItem(line: string)
    requires Trimmed(line) && line != "" && line[0] != '-'
    ensures ReceiptFromLine(line).None? && LineFields(line) == []
  {
  }

  lemma {:induction false} ReceiptsConcat(a: seq<string>, b: seq<string>)
    ensures ReceiptsFromLines(a + b) == ReceiptsFromLines(a) + ReceiptsFromLines(b)
    decreases |b|
  {
    if b == [] {
      assert a + b == a;
    } else {
      assert (a + b)[..|a + b| - 1] == a + b[..|b| - 1];
      ReceiptsConcat(a, b[..|b| - 1]);
    }
  }

  lemma FramedReceipts(header: string, lines: seq<string>, trailer: string)
    requires ReceiptFromLine(header).None? && ReceiptFromLine(trailer).None?
    ensures ReceiptsFromLines([header] + lines + [trailer]) == ReceiptsFromLines(lines)
  {
    ReceiptsConcat([header] + lines, [trailer]);
    ReceiptsConcat([header], lines);
    assert ReceiptsFromLines([header]) == ReceiptsFromLines([]) && [header][..0] == [];
    assert ReceiptsFromLines([trailer]) == ReceiptsFromLines([]) && [trailer][..0] == [];
  }

  function ExpectedReceipts(ms: seq<Mutation>): seq<Receipt> {
    if ms == [] then []
    else
      var last := ExpectedReceipt(ms[|ms| - 1]);
      ExpectedReceipts(ms[..|ms| - 1]) + if last.Some? then [last.value] else []
  }

  lemma KeptLineReadsBack(m: Mutation)
    requires WellFormed(m) && KeepsReceipt(m)
    ensures ReceiptFromLine(Line(m)) == ExpectedReceipt(m)
  {
    LineRoundTrip(m);
  }

  lemma {:induction false} LinesGiveExpected(ms: seq<Mutation>, lines: seq<string>)
    requires forall i :: 0 <= i < |ms| ==> WellFormed(ms[i]) && KeepsReceipt(ms[i])
    requires |lines| == |ms| && forall i :: 0 <= i < |ms| ==> lines[i] == Line(ms[i])
    ensures ReceiptsFromLines(lines) == ExpectedReceipts(ms)
  {
    if ms != [] {
      var n := |ms| - 1;
      LinesGiveExpected(ms[..n], lines[..n]);
      KeptLineReadsBack(ms[n]);
    }
  }

  lemma LinesAreSingle(ms: seq<Mutation>)
    requires forall i :: 0 <= i < |ms| ==> WellFormed(ms[i]) && SingleLine(ms[i])
    ensures forall i :: 0 <= i < |ms| ==> '\n' !in LineList(ms)[i]
  {
    forall i | 0 <= i < |ms| ensures '\n' !in LineList(ms)[i] {
      LineIsSingleLine(ms[i]);
    }
  }

  lemma FrameReadsNothing(parts: seq<string>, header: string, lines: seq<string>, trailer: string)
    requires parts == [header] + lines + [trailer]
    requires header != "" && header[0] == '[' && header[|header| - 1] == ']'
    requires trailer != "" && trailer[0] == 'U' && trailer[|trailer| - 1] == '.'
    ensures ReceiptsFromLines(parts) == ReceiptsFromLines(lines)
  {
    NotAListItem(header);
    NotAListItem(trailer);
    FramedReceipts(header, lines, trailer);
  }

  lemma FrameShape(header: string, trailer: string)
    requires header == HEADER && trailer == TRAILER
    ensures '\n' !in header && header != "" && header[0] == '[' && header[|header| - 1] == ']'
    ensures '\n' !in trailer && trailer != "" && trailer[0] == 'U' && trailer[|trailer| - 1] == '.'
  {
    HeaderShape();
    TrailerIsSingleLine();
    TrailerEnds();
  }

  lemma FooterIsFramed(ms: seq<Mutation>, header: string, trailer: string)
    requires ms != [] && header == HEADER && trailer == TRAILER
    ensures Footer(ms) == header + ("\n" + (Unlines(LineList(ms)) + trailer))
  {
  }

  // The printed text, once trimmed and split, is its header, its lines and its trailer.
  lemma FooterSplits(ms: seq<Mutation>, header: string, trailer: string)
    requires ms != [] && forall i :: 0 <= i < |ms| ==> WellFormed(ms[i]) && SingleLine(ms[i])
    requires header == HEADER && trailer == TRAILER
    ensures header + "\n" <= TrimSpace(Footer(ms))
    ensures Split(TrimSpace(Footer(ms)), '\n') == [header] + LineList(ms) + [trailer]
  {
    var text := Footer(ms);
    FooterIsFramed(ms, header, trailer);
    FrameShape(header, trailer);
    LinesAreSingle(ms);
    FramedTextSplits(text, header, LineList(ms), trailer);
  }

  // Parsing a whole footer parses its lines one by one, and nothing else.
  lemma FooterIsReadByLine(ms: seq<Mutation>)
    requires forall i :: 0 <= i < |ms| ==> WellFormed(ms[i]) && SingleLine(ms[i])
    ensures ReceiptsFromText(Footer(ms)) == ReceiptsFromLines(LineList(ms))
  {
    if ms != [] {
      FooterSplits(ms, HEADER, TRAILER);
      FrameShape(HEADER, TRAILER);
      FrameReadsNothing(Split(TrimSpace(Footer(ms)), '\n'), HEADER, LineList(ms), TRAILER);
    } else {
      TrimSpaceTrims("");
    }
  }

  // The inverse law: one receipt per mutation with a diagnostic status, in order, with path,
  // status, language and the three counts restored, whenever no free text redefines them.
  lemma FooterRoundTrips(ms: seq<Mutation>)
    requires forall i :: 0 <= i < |ms| ==> WellFormed(ms[i]) && SingleLine(ms[i]) && KeepsReceipt(ms[i])
    ensures ReceiptsFromText(Footer(ms)) == ExpectedReceipts(ms)
  {
    FooterIsReadByLine(ms);
    LinesGiveExpected(ms, LineList(ms));
  }

  lemma OneSegmentTail(m: Mutation, d: Diagnostic)
    requires m.status != "" && m.newDiagnostics == [d] && m.failureFamily == ""
    ensures Tail(m) == Segment(1, DiagnosticValue(d))
  {
    var values := DiagnosticValues([d]);
    assert SegmentList(values, 1) == [Segment(1, values[0])];
    assert Concat([Segment(1, values[0])]) == Segment(1, values[0]) + Concat([]) == Segment(1, values[0]);
  }

  // The end of a printed error is the end of its segment.
  lemma SegmentEnds(k: string, source: string, line: string, column: string, text: string, last: string)
    ensures var value := source + ":" + (line + ":" + (column + ":" + text));
      " new_diag_" + (k + ("=" + (source + ":" + (line + ":" + (column + ":" + (text + last))))))
      == (" new_diag_" + (k + ("=" + value))) + last
  {
  }

  lemma ExampleError()
    ensures CompactError("want new=7") == "want" + (" " + "new=7")
  {
    var error := "want" + (" " + "new=7");
    assert error == "want new=7";
    AsciiBytes(error);
    CompactKeepsShortErrors(error);
  }

  lemma NewTokenReads()
    ensures IsWord("new=7") && KeyOf("new=7") == Some("new") && ValueOf("new=7") == "7"
  {
    DiagnosticKeys();
    PrintedToken("new", "7");
    assert "new" + "=" + "7" == "new=7";
  }

  lemma SevenReads()
    ensures ParseReceiptInt("7") == 7
  {
    ParsePrintedInt(7);
    assert Format(7) == "7";
  }

  lemma AppendedIsLast(tokens: seq<string>, token: string, key: string)
    requires KeyOf(token) == Some(key)
    ensures LastValue(tokens + [token], key) == Some(ValueOf(token))
  {
  }

  lemma OverwritingToken(m: Mutation, head: string)
    requires Tail(m) == head + (" " + "new=7") && m.status != "" && m.newCount == 1
    ensures !KeepsReceipt(m)
  {
    NewTokenReads();
    SevenReads();
    FieldsAppendWord(head, "new=7");
    AppendedIsLast(Fields(head), "new=7", "new");
  }

  lemma ExampleTail(m: Mutation, d: Diagnostic)
    requires m.status != "" && m.newCount == 1 && m.newDiagnostics == [d] && m.failureFamily == ""
    requires d.error == "want new=7"
    ensures !KeepsReceipt(m)
  {
    var source, line, column := EmptyAsUnknown(d.source), Format(d.line), Format(d.column);
    var last := " " + "new=7";
    OneSegmentTail(m, d);
    ExampleError();
    SegmentEnds(Format(1), source, line, column, "want", last);
    OverwritingToken(m, " new_diag_" + (Format(1) + ("=" + (source + ":" + (line + ":" + (column + ":" + "want"))))));
  }

  lemma ExampleWords()
    ensures NoSpace("new_diagnostics_found") && IsWord("edit_file") && IsWord("a.go") && IsWord("go")
  {
  }

  lemma WellFormedExample(m: Mutation)
    requires m.operation == "edit_file" && m.path == "a.go" && m.beforeHash == "" && m.afterHash == ""
    requires m.language == "go" && m.status == "new_diagnostics_found" && m.failureFamily == ""
    requires |m.newDiagnostics| == 1 && m.newDiagnostics[0].source == "go"
    ensures WellFormed(m) && SingleLine(m)
  {
    ExampleWords();
    TrimSpaceTrims(m.operation);
    TrimSpaceTrims(m.path);
    TrimSpaceTrims("");
    TrimSpaceTrims("go");
  }

  // Without the condition the law fails: an error text that ends in "new=7" changes the count.
  lemma ErrorTextCanChangeCounts(m: Mutation)
    requires m == Mutation("edit_file", "a.go", true, true, true, "", "", 1, 1, 0, "go", "new_diagnostics_found",
                           1, 0, 0, [Diagnostic(1, 1, "want new=7", "go")], "")
    ensures WellFormed(m) && SingleLine(m)
    ensures ReceiptFromLine(Line(m)) != ExpectedReceipt(m)
  {
    WellFormedExample(m);
    ExampleTail(m, m.newDiagnostics[0]);
    LineRoundTrip(m);
  }
}
