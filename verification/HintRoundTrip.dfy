// What searching a printed footer for repair hints gives back.
module HintRoundTrip {
  import opened Lists
  import opened Wrappers
  import opened Text
  import opened Decimal
  import opened ScopePaths
  import opened MutationFooter
  import opened FooterParser
  import opened FooterRoundTrip
  import opened HintParser

  // ---- One value ---------------------------------------------------------------------------

  // A printed diagnostic as the search finds it, still without guidance.
  function ParsedHint(path: string, d: Diagnostic): Hint {
    Hint(NormalizeScopePath(path), d.line, d.column, EmptyAsUnknown(d.source), CompactError(d.error), VERIFIER, [], "")
  }

  function ExpectedHint(path: string, d: Diagnostic): Hint {
    ParsedHint(path, d).(path := path, suggestedTools := SUGGESTED_TOOLS, stopCondition := STOP_CONDITION)
  }

  lemma CompactIsTrimmed(error: string)
    ensures CompactError(error) != "" && Trimmed(CompactError(error))
  {
    TrimSpaceTrims(error);
    var flat := ReplaceChar(ReplaceChar(TrimSpace(error), '\n', ' '), '\t', ' ');
    assert flat != "" ==> flat[0] == TrimSpace(error)[0] && flat[|flat| - 1] == TrimSpace(error)[|flat| - 1];
    assert flat != "" ==> WholeCharacters(flat, MAX_ERROR_BYTES) > 0;
  }

  lemma SourceIsTrimmed(source: string)
    ensures EmptyAsUnknown(source) != "" && Trimmed(EmptyAsUnknown(source))
  {
    TrimSpaceTrims(source);
  }

  lemma FirstPart(a: string, b: string)
    requires ':' !in a
    ensures var s := a + ":" + b;
      IndexOf(s, ':') == |a| < |s| && s[..|a|] == a && s[|a| + 1..] == b
  {
    IndexOfAt(a, ':', b);
  }

  lemma FourParts(a: string, b: string, c: string, d: string)
    requires ':' !in a && ':' !in b && ':' !in c
    ensures SplitFour(a + ":" + (b + ":" + (c + ":" + d))) == Some(Parts(a, b, c, d))
  {
    var s2 := c + ":" + d;
    var s1 := b + ":" + s2;
    FirstPart(a, s1);
    FirstPart(b, s2);
    FirstPart(c, d);
  }

  lemma {:induction false} TrimmingShortens(s: string)
    ensures |TrimLeft(s)| <= |s|
    ensures |TrimSpace(s)| <= |s|
  {
    TrimRightKeepsHead(TrimLeft(s));
    if s != [] && IsSpace(s[0]) {
      TrimmingShortens(s[1..]);
    }
  }

  lemma {:induction false} IndexOfBefore(s: string, c: char, i: nat)
    requires i < |s| && s[i] == c
    ensures IndexOf(s, c) <= i
  {
  }

  lemma EarlyColon(a: string, rest: string)
    requires ':' in a
    ensures SplitFour(a + rest).Some? ==> |TrimSpace(SplitFour(a + rest).value.source)| < |a|
  {
    var i :| 0 <= i < |a| && a[i] == ':';
    IndexOfBefore(a + rest, ':', i);
    TrimmingShortens((a + rest)[..IndexOf(a + rest, ':')]);
  }

  lemma JoinedIsTrimmed(a: string, b: string)
    requires a != "" && b != "" && Trimmed(a) && Trimmed(b)
    ensures Trimmed(a + b) && TrimSpace(a + b) == a + b
  {
  }

  lemma ValueIsTrimmed(d: Diagnostic)
    ensures TrimSpace(DiagnosticValue(d)) == DiagnosticValue(d)
  {
    SourceIsTrimmed(d.source);
    CompactIsTrimmed(d.error);
    var rest := ":" + (Format(d.line) + ":" + (Format(d.column) + ":" + CompactError(d.error)));
    Assoc(EmptyAsUnknown(d.source), ":", Format(d.line) + ":" + (Format(d.column) + ":" + CompactError(d.error)));
    assert rest[0] == ':' && rest[|rest| - 1] == CompactError(d.error)[|CompactError(d.error)| - 1];
    JoinedIsTrimmed(EmptyAsUnknown(d.source), rest);
  }

  // A printed value reads back, with its source, numbers and compacted error, exactly when the
  // source holds no colon.
  lemma ValueRoundTrip(d: Diagnostic, path: string)
    requires TrimSpace(path) != ""
    ensures HintFromValue(DiagnosticValue(d), path) == Some(ParsedHint(path, d)) <==> ':' !in EmptyAsUnknown(d.source)
  {
    var source, error := EmptyAsUnknown(d.source), CompactError(d.error);
    ValueIsTrimmed(d);
    SourceIsTrimmed(d.source);
    CompactIsTrimmed(d.error);
    TrimSpaceTrims(source);
    TrimSpaceTrims(error);
    if ':' in source {
      var rest := ":" + (Format(d.line) + ":" + (Format(d.column) + ":" + error));
      Assoc(source, ":", Format(d.line) + ":" + (Format(d.column) + ":" + error));
      EarlyColon(source, rest);
    } else {
      FormatShape(d.line);
      FormatShape(d.column);
      FourParts(source, Format(d.line), Format(d.column), error);
      ParsePrintedInt(d.line);
      ParsePrintedInt(d.column);
    }
  }

  // ---- One segment -------------------------------------------------------------------------

  lemma {:induction false} FoundInside(a: string, b: string, marker: string)
    requires marker != [] && Contains(a, marker)
    ensures Find(a + b, marker) < |a|
  {
    assert a != [];
    if marker <= a {
      assert marker <= a + b;
    } else {
      assert (a + b)[1..] == a[1..] + b;
      FoundInside(a[1..], b, marker);
    }
  }

  // The rest of a line after a value: nothing, or a stop marker.
  predicate StartsWithStop(rest: string, stops: seq<string>) {
    rest == [] || exists i :: 0 <= i < |stops| && stops[i] <= rest
  }

  // Stop markers begin with a blank and hold no other.
  predicate AreStops(stops: seq<string>) {
    forall i :: 0 <= i < |stops| ==> stops[i] != [] && stops[i][0] == ' ' && ' ' !in stops[i][1..]
  }

  predicate LacksStops(value: string, stops: seq<string>) {
    forall i :: 0 <= i < |stops| ==> !Contains(value, stops[i])
  }

  lemma {:induction false} ValueEndIsNearest(s: string, stops: seq<string>)
    ensures forall i :: 0 <= i < |stops| ==> ValueEnd(s, stops) <= Find(s, stops[i])
    ensures ValueEnd(s, stops) == |s| || exists i :: 0 <= i < |stops| && ValueEnd(s, stops) == Find(s, stops[i])
  {
    if stops != [] {
      var front := stops[..|stops| - 1];
      ValueEndIsNearest(s, front);
      assert forall i :: 0 <= i < |front| ==> stops[i] == front[i];
    }
  }

  // A value is cut where it was printed exactly when it holds no stop marker itself.
  lemma ValueEndExact(value: string, rest: string, stops: seq<string>)
    requires AreStops(stops) && StartsWithStop(rest, stops) && (rest == [] || rest[0] == ' ')
    ensures ValueEnd(value + rest, stops) == |value| <==> LacksStops(value, stops)
  {
    ValueEndIsNearest(value + rest, stops);
    if LacksStops(value, stops) {
      forall i | 0 <= i < |stops| ensures Find(value + rest, stops[i]) == |value| + Find(rest, stops[i]) {
        FindPast(value, rest, stops[i]);
      }
      if rest != [] {
        var i :| 0 <= i < |stops| && stops[i] <= rest;
        assert Find(rest, stops[i]) == 0;
      }
    } else {
      var i :| 0 <= i < |stops| && Contains(value, stops[i]);
      FoundInside(value, rest, stops[i]);
    }
  }

  lemma NumberedValue(marker: string, number: string, w: string)
    requires '=' !in marker && '=' !in number
    ensures var s := marker + (number + ("=" + w));
      marker <= s && IndexOf(s, '=') < |s| && s[IndexOf(s, '=') + 1..] == w
  {
    var s := (marker + number) + ['='] + w;
    IndexOfAt(marker + number, '=', w);
    assert s == marker + (number + ("=" + w));
    assert s[|marker + number| + 1..] == w;
  }

  // The value of a text that starts with a marker.
  function FromMarker(text: string, stops: seq<string>): Option<Step> {
    var eq := IndexOf(text, '=');
    if eq == |text| then None
    else
      var values := text[eq + 1..];
      Some(Step(values[..ValueEnd(values, stops)], values[ValueEnd(values, stops)..]))
  }

  lemma NextFrom(text: string, n: nat, from: string, marker: string, stops: seq<string>)
    requires n == Find(text, marker) && from == text[n..]
    ensures NextValue(text, marker, stops) == if from == "" then None else FromMarker(from, stops)
  {
  }

  lemma BlankThenMarker(body: string, marker: string)
    requires marker != "" && marker[0] != ' ' && marker <= body
    ensures Find(" " + body, marker) == 1 && (" " + body)[1..] == body
  {
  }

  // The search finds the value of the first segment.
  lemma SegmentIsNext(body: string, marker: string, w: string, stops: seq<string>)
    requires marker != "" && marker[0] != ' ' && marker <= body
    requires IndexOf(body, '=') < |body| && body[IndexOf(body, '=') + 1..] == w
    ensures NextValue(" " + body, marker, stops) == Some(Step(w[..ValueEnd(w, stops)], w[ValueEnd(w, stops)..]))
  {
    BlankThenMarker(body, marker);
    NextFrom(" " + body, 1, body, marker, stops);
  }

  lemma Markers()
    ensures MARKER != "" && MARKER[0] == 'n' && '=' !in MARKER && ' ' !in MARKER
    ensures " " + MARKER == NEXT_SEGMENT && |STOPS| == 2 && STOPS[0] == NEXT_SEGMENT && STOPS[1] == FAILURE_SEGMENT
  {
  }

  lemma StopShapes()
    ensures AreStops(STOPS)
  {
    assert ' ' !in NEXT_SEGMENT[1..] && ' ' !in FAILURE_SEGMENT[1..];
  }

  // What follows a value in a printed line.
  predicate IsRest(rest: string) {
    rest == "" || NEXT_SEGMENT <= rest || FAILURE_SEGMENT <= rest
  }

  lemma RestStarts(rest: string)
    requires IsRest(rest)
    ensures StartsWithStop(rest, STOPS) && (rest == [] || rest[0] == ' ')
  {
    Markers();
  }

  lemma SegmentText(k: nat, value: string, rest: string)
    ensures Segment(k, value) + rest == " " + (MARKER + (Format(k) + ("=" + (value + rest))))
  {
  }

  // A printed segment is cut out whole exactly when its value holds no stop marker.
  lemma SegmentRoundTrip(k: nat, value: string, rest: string)
    requires IsRest(rest)
    ensures NextValue(Segment(k, value) + rest, MARKER, STOPS) == Some(Step(value, rest)) <==> LacksStops(value, STOPS)
  {
    SegmentText(k, value, rest);
    Markers();
    FormatShape(k);
    var w, end := value + rest, ValueEnd(value + rest, STOPS);
    NumberedValue(MARKER, Format(k), w);
    SegmentIsNext(MARKER + (Format(k) + ("=" + w)), MARKER, w, STOPS);
    StopShapes();
    RestStarts(rest);
    ValueEndExact(value, rest, STOPS);
    assert w[..|value|] == value && w[|value|..] == rest;
    assert end != |value| ==> |w[..end]| != |value|;
  }

  // ---- One line ----------------------------------------------------------------------------

  function HintsOf(values: seq<string>, path: string): seq<Hint> {
    if values == [] then [] else AsSeq(HintFromValue(values[0], path)) + HintsOf(values[1..], path)
  }

  lemma NoMarkerNoHints(s: string, path: string)
    requires !Contains(s, MARKER)
    ensures ScanHints(s, path) == []
  {
    Markers();
    ContainsMeansFound(s, MARKER);
  }

  lemma SegmentsStart(values: seq<string>, k: nat, last: string)
    requires IsRest(last)
    ensures IsRest(Segments(values, k) + last)
    ensures values != [] ==> Segments(values, k) + last == Segment(k, values[0]) + (Segments(values[1..], k + 1) + last)
  {
    if values == [] {
      assert Segments(values, k) + last == last;
    } else {
      assert SegmentList(values, k)[1..] == SegmentList(values[1..], k + 1);
      Assoc(Segment(k, values[0]), Segments(values[1..], k + 1), last);
    }
  }

  lemma {:induction false} SegmentsReadBack(values: seq<string>, k: nat, last: string, path: string)
    requires forall i :: 0 <= i < |values| ==> LacksStops(values[i], STOPS)
    requires IsRest(last) && !Contains(last, MARKER)
    ensures ScanHints(Segments(values, k) + last, path) == HintsOf(values, path)
    decreases |values|
  {
    SegmentsStart(values, k, last);
    if values == [] {
      assert Segments(values, k) + last == last;
      NoMarkerNoHints(last, path);
    } else {
      SegmentsStart(values[1..], k + 1, last);
      SegmentRoundTrip(k, values[0], Segments(values[1..], k + 1) + last);
      SegmentsReadBack(values[1..], k + 1, last, path);
    }
  }

  lemma NextAfterHead(head: string, rest: string, marker: string, stops: seq<string>)
    requires marker != "" && !Contains(head, marker) && (rest == [] || rest[0] !in marker[1..])
    ensures NextValue(head + rest, marker, stops) == NextValue(rest, marker, stops)
  {
    var n := Find(rest, marker);
    FindPast(head, rest, marker);
    assert (head + rest)[|head| + n..] == rest[n..];
    NextFrom(rest, n, rest[n..], marker, stops);
    NextFrom(head + rest, |head| + n, rest[n..], marker, stops);
  }

  lemma HeadIsSkipped(head: string, rest: string, path: string)
    requires !Contains(head, MARKER) && (rest == [] || rest[0] == ' ')
    ensures ScanHints(head + rest, path) == ScanHints(rest, path)
  {
    Markers();
    NextAfterHead(head, rest, MARKER, STOPS);
  }

  // ---- Trimming a printed line -------------------------------------------------------------

  predicate EndsSolid(s: string) {
    s != "" && !IsSpace(s[|s| - 1])
  }

  lemma {:induction false} TrimAfter(a: string, b: string)
    requires EndsSolid(a)
    ensures TrimRight(a + b) == a + TrimRight(b)
  {
    if b == [] {
      assert a + b == a;
    } else if IsSpace(b[|b| - 1]) {
      assert (a + b)[..|a + b| - 1] == a + b[..|b| - 1];
      TrimAfter(a, b[..|b| - 1]);
    }
  }

  lemma {:induction false} SpacedEndsSolid(tokens: seq<string>)
    requires tokens != [] && forall t :: t in tokens ==> IsWord(t)
    ensures EndsSolid(Spaced(tokens))
  {
    assert IsWord(tokens[0]);
    if |tokens| > 1 {
      SpacedEndsSolid(tokens[1..]);
    }
  }

  lemma {:induction false} SegmentsEndSolid(values: seq<string>, k: nat)
    requires forall i :: 0 <= i < |values| ==> EndsSolid(values[i])
    ensures Segments(values, k) == "" || EndsSolid(Segments(values, k))
  {
    if values != [] {
      SegmentsStart(values, k, "");
      SegmentsEndSolid(values[1..], k + 1);
      assert Segments(values, k) + "" == Segments(values, k);
      assert Segments(values[1..], k + 1) + "" == Segments(values[1..], k + 1);
      assert EndsSolid(Segment(k, values[0]));
    }
  }

  lemma ContainsOnlyGrows(s: string, n: nat, marker: string)
    requires n <= |s| && Contains(s[..n], marker)
    ensures Contains(s, marker)
  {
    if marker <= s[..n] {
      assert marker <= s;
    } else {
      assert s[..n][1..] == s[1..][..n - 1];
      ContainsOnlyGrows(s[1..], n - 1, marker);
    }
  }

  function Head(m: Mutation): string {
    LineOf(EmptyAsUnknown(m.operation), EmptyAsUnknown(m.path), Entries(m), "")
  }

  lemma LineIsHeadAndTail(m: Mutation)
    ensures Line(m) == Head(m) + Tail(m)
  {
  }

  lemma HeadShape(m: Mutation)
    requires WellFormed(m)
    ensures EndsSolid(Head(m)) && !IsSpace(Head(m)[0])
  {
    Placeholders();
    EntriesAreEntries(m);
    TokensDefineEntries(Entries(m), "");
    SpacedEndsSolid([EmptyAsUnknown(m.path)] + Tokens(Entries(m)));
    assert Head(m)[0] == '-';
  }

  // The text after the segments once the line is trimmed.
  function Last(m: Mutation): string {
    if m.failureFamily == "" then "" else FAILURE_SEGMENT + TrimRight(m.failureFamily)
  }

  lemma LastIsRest(m: Mutation)
    requires !Contains(FailureText(m), MARKER)
    ensures IsRest(Last(m)) && !Contains(Last(m), MARKER)
  {
    TrimRightKeepsHead(m.failureFamily);
    var n := |Last(m)|;
    assert m.failureFamily != "" ==> FailureText(m)[..n] == Last(m);
    if Contains(Last(m), MARKER) && m.failureFamily != "" {
      ContainsOnlyGrows(FailureText(m), n, MARKER);
    }
  }

  lemma FailureSegmentEndsSolid()
    ensures EndsSolid(FAILURE_SEGMENT)
  {
  }

  lemma TailTrims(head: string, segments: string, m: Mutation)
    requires EndsSolid(head) && (segments == "" || EndsSolid(segments))
    ensures TrimRight(head + (segments + FailureText(m))) == head + (segments + Last(m))
  {
    var body := head + segments;
    if m.failureFamily == "" {
      TrimAfter(body, "");
      assert body + "" == body && segments + "" == segments;
    } else {
      FailureSegmentEndsSolid();
      TrimAfter(body + FAILURE_SEGMENT, m.failureFamily);
      Assoc(body, FAILURE_SEGMENT, m.failureFamily);
      Assoc(head, segments, FAILURE_SEGMENT + m.failureFamily);
      Assoc(body, FAILURE_SEGMENT, TrimRight(m.failureFamily));
      Assoc(head, segments, FAILURE_SEGMENT + TrimRight(m.failureFamily));
    }
  }

  lemma ValuesEndSolid(ds: seq<Diagnostic>)
    ensures forall i :: 0 <= i < |ds| ==> EndsSolid(DiagnosticValues(ds)[i])
  {
    forall i | 0 <= i < |ds| ensures EndsSolid(DiagnosticValues(ds)[i]) {
      CompactIsTrimmed(ds[i].error);
    }
  }

  lemma LineTrims(m: Mutation)
    requires WellFormed(m)
    ensures TrimSpace(Line(m)) == Head(m) + (Segments(DiagnosticValues(Printed(m)), 1) + Last(m))
  {
    LineIsHeadAndTail(m);
    HeadShape(m);
    ValuesEndSolid(Printed(m));
    SegmentsEndSolid(DiagnosticValues(Printed(m)), 1);
    assert Line(m)[0] == Head(m)[0];
    TailTrims(Head(m), Segments(DiagnosticValues(Printed(m)), 1), m);
  }

  // ---- What a line gives back --------------------------------------------------------------

  // The path under which the hints of a line are filed.
  function PathOf(m: Mutation): string {
    NormalizeScopePath(EmptyAsUnknown(m.path))
  }

  predicate ReadableDiagnostic(d: Diagnostic) {
    ':' !in EmptyAsUnknown(d.source) && LacksStops(DiagnosticValue(d), STOPS)
  }

  // No text but the segment labels themselves can be taken for a label.
  predicate Readable(m: Mutation) {
    && !Contains(Head(m), MARKER) && !Contains(FailureText(m), MARKER)
    && forall i :: 0 <= i < |Printed(m)| ==> ReadableDiagnostic(Printed(m)[i])
  }

  function Parsing(path: string): Diagnostic -> Hint {
    d => ParsedHint(path, d)
  }

  function ParsedHints(path: string, ds: seq<Diagnostic>): seq<Hint> {
    MapEach(ds, Parsing(path))
  }

  lemma {:induction false} ValuesReadBack(ds: seq<Diagnostic>, path: string)
    requires TrimSpace(path) != "" && forall i :: 0 <= i < |ds| ==> ':' !in EmptyAsUnknown(ds[i].source)
    ensures HintsOf(DiagnosticValues(ds), path) == ParsedHints(path, ds)
  {
    if ds != [] {
      ValueRoundTrip(ds[0], path);
      assert DiagnosticValues(ds)[1..] == DiagnosticValues(ds[1..]);
      MapEachFirst(ds, Parsing(path));
      ValuesReadBack(ds[1..], path);
    }
  }

  lemma PathReadsBack(m: Mutation)
    requires WellFormed(m)
    ensures |LineFields(Line(m))| >= 2 && LineFields(Line(m))[1] == EmptyAsUnknown(m.path)
  {
    Placeholders();
    EntriesAreEntries(m);
    TailStartsBlank(m);
    LineReadsBack(EmptyAsUnknown(m.operation), EmptyAsUnknown(m.path), Entries(m), Tail(m), "");
  }

  lemma TrimmedLineScan(m: Mutation, path: string)
    requires WellFormed(m) && Readable(m)
    ensures ScanHints(TrimSpace(Line(m)), path) == ScanHints(Segments(DiagnosticValues(Printed(m)), 1) + Last(m), path)
  {
    var rest := Segments(DiagnosticValues(Printed(m)), 1) + Last(m);
    LineTrims(m);
    LastIsRest(m);
    SegmentsStart(DiagnosticValues(Printed(m)), 1, Last(m));
    RestStarts(rest);
    HeadIsSkipped(Head(m), rest, path);
  }

  lemma PrintedSegmentsScan(m: Mutation, path: string)
    requires Readable(m) && TrimSpace(path) != ""
    ensures ScanHints(Segments(DiagnosticValues(Printed(m)), 1) + Last(m), path) == ParsedHints(path, Printed(m))
  {
    LastIsRest(m);
    SegmentsReadBack(DiagnosticValues(Printed(m)), 1, Last(m), path);
    ValuesReadBack(Printed(m), path);
  }

  // What the search finds of a record.
  function ParsedOf(m: Mutation): seq<Hint> {
    ParsedHints(PathOf(m), Printed(m))
  }

  // Searching a printed line yields its printed diagnostics, in order.
  lemma LineHintsRoundTrip(m: Mutation)
    requires WellFormed(m) && Readable(m) && TrimSpace(PathOf(m)) != ""
    ensures HintsFromLine(Line(m)) == ParsedOf(m)
  {
    PathReadsBack(m);
    TrimmedLineScan(m, PathOf(m));
    PrintedSegmentsScan(m, PathOf(m));
  }

  // ---- The whole footer --------------------------------------------------------------------

  lemma FramedHints(parts: seq<string>, header: string, lines: seq<string>, trailer: string)
    requires parts == [header] + lines + [trailer]
    requires LineFields(header) == [] && LineFields(trailer) == []
    ensures HintsFromLines(parts) == HintsFromLines(lines)
  {
    CollectFramed(parts, header, lines, trailer, HintsFromLine);
  }

  lemma LinesGiveHints(ms: seq<Mutation>)
    requires forall i :: 0 <= i < |ms| ==> WellFormed(ms[i]) && Readable(ms[i]) && TrimSpace(PathOf(ms[i])) != ""
    ensures HintsFromLines(LineList(ms)) == Collect(ms, ParsedOf)
  {
    forall i | 0 <= i < |ms| ensures HintsFromLine(LineList(ms)[i]) == ParsedOf(ms[i]) {
      LineHintsRoundTrip(ms[i]);
    }
    CollectMatches(LineList(ms), ms, HintsFromLine, ParsedOf);
  }

  lemma FrameGivesNoHints(parts: seq<string>, header: string, lines: seq<string>, trailer: string)
    requires parts == [header] + lines + [trailer]
    requires header != "" && header[0] == '[' && header[|header| - 1] == ']'
    requires trailer != "" && trailer[0] == 'U' && trailer[|trailer| - 1] == '.'
    ensures HintsFromLines(parts) == HintsFromLines(lines)
  {
    NotAListItem(header);
    NotAListItem(trailer);
    FramedHints(parts, header, lines, trailer);
  }

  lemma FooterHints(ms: seq<Mutation>)
    requires forall i :: 0 <= i < |ms| ==> WellFormed(ms[i]) && SingleLine(ms[i])
    ensures HintsFromText(Footer(ms)) == Normalize(HintsFromLines(LineList(ms)))
  {
    if ms != [] {
      FooterSplits(ms, HEADER, TRAILER);
      FrameShape(HEADER, TRAILER);
      FrameGivesNoHints(Split(TrimSpace(Footer(ms)), '\n'), HEADER, LineList(ms), TRAILER);
    } else {
      TrimSpaceTrims("");
    }
  }

  // ---- The first three distinct hints ------------------------------------------------------

  function Distinct(hints: seq<Hint>): seq<Hint> {
    if hints == [] then []
    else
      var front, last := Distinct(hints[..|hints| - 1]), hints[|hints| - 1];
      if last in front then front else front + [last]
  }

  // Complete, with the standard guidance and with no NUL before the error text.
  predicate IsGuided(h: Hint) {
    && h.path != "" && h.error != "" && '\0' !in h.path && '\0' !in h.source
    && h.sourceTool == VERIFIER && h.suggestedTools == SUGGESTED_TOOLS && h.stopCondition == STOP_CONDITION
  }

  lemma NumberLacksNul(n: int)
    ensures '\0' !in Format(n)
  {
  }

  lemma KeyInParts(h: Hint, h1: string, h2: string, h3: string)
    requires h3 == h.source + ['\0'] + h.error
    requires h2 == Format(h.column) + ['\0'] + h3
    requires h1 == Format(h.line) + ['\0'] + h2
    ensures HintKey(h) == h.path + ['\0'] + h1
  {
  }

  // The key tells hints apart.
  lemma KeyIsInjective(h: Hint, g: Hint)
    requires IsGuided(h) && IsGuided(g) && HintKey(h) == HintKey(g)
    ensures h == g
  {
    NumberLacksNul(h.line);
    NumberLacksNul(g.line);
    NumberLacksNul(h.column);
    NumberLacksNul(g.column);
    var c := '\0';
    var h3, g3 := h.source + [c] + h.error, g.source + [c] + g.error;
    var h2, g2 := Format(h.column) + [c] + h3, Format(g.column) + [c] + g3;
    var h1, g1 := Format(h.line) + [c] + h2, Format(g.line) + [c] + g2;
    KeyInParts(h, h1, h2, h3);
    KeyInParts(g, g1, g2, g3);
    CutIsInjective(h.path, h1, g.path, g1, c);
    CutIsInjective(Format(h.line), h2, Format(g.line), g2, c);
    CutIsInjective(Format(h.column), h3, Format(g.column), g3, c);
    CutIsInjective(h.source, h.error, g.source, g.error, c);
    ParsePrintedInt(h.line);
    ParsePrintedInt(g.line);
    ParsePrintedInt(h.column);
    ParsePrintedInt(g.column);
  }

  lemma {:induction false} DistinctComesFrom(hints: seq<Hint>)
    ensures forall i :: 0 <= i < |Distinct(hints)| ==> Distinct(hints)[i] in hints
  {
    if hints != [] {
      DistinctComesFrom(hints[..|hints| - 1]);
    }
  }

  lemma KeysTell(out: seq<Hint>, h: Hint)
    requires IsGuided(h) && forall i :: 0 <= i < |out| ==> IsGuided(out[i])
    ensures HintKey(h) in Keys(out) <==> h in out
  {
    if HintKey(h) in Keys(out) {
      var i :| 0 <= i < |out| && HintKey(out[i]) == HintKey(h);
      KeyIsInjective(out[i], h);
    }
  }

  function FirstHints(hints: seq<Hint>): seq<Hint> {
    if |hints| > MAX_HINTS then hints[..MAX_HINTS] else hints
  }

  lemma KeepsFirst(distinct: seq<Hint>, h: Hint)
    requires IsGuided(h) && forall i :: 0 <= i < |distinct| ==> IsGuided(distinct[i])
    ensures Keep(FirstHints(distinct), h) == FirstHints(if h in distinct then distinct else distinct + [h])
  {
    KeysTell(FirstHints(distinct), h);
  }

  lemma {:induction false} KeptAreFirstDistinct(hints: seq<Hint>)
    requires forall i :: 0 <= i < |hints| ==> IsGuided(hints[i])
    ensures KeepAll(hints) == FirstHints(Distinct(hints))
  {
    if hints != [] {
      var front, last := hints[..|hints| - 1], hints[|hints| - 1];
      KeptAreFirstDistinct(front);
      DistinctComesFrom(front);
      KeepsFirst(Distinct(front), last);
    }
  }

  // Normalising hints that tidying completes gives the first three distinct tidied ones.
  lemma NormalizeIsFirstDistinct(hints: seq<Hint>)
    requires forall i :: 0 <= i < |hints| ==> IsGuided(MapEach(hints, Tidy)[i])
    ensures Normalize(hints) == FirstHints(Distinct(MapEach(hints, Tidy)))
  {
    KeptAreFirstDistinct(MapEach(hints, Tidy));
  }

  // ---- The main result ---------------------------------------------------------------------

  function Expecting(path: string): Diagnostic -> Hint {
    d => ExpectedHint(path, d)
  }

  function PrintedHints(m: Mutation): seq<Hint> {
    MapEach(Printed(m), Expecting(PathOf(m)))
  }

  // All printed diagnostics of all lines.
  function AllHints(ms: seq<Mutation>): seq<Hint> {
    Collect(ms, PrintedHints)
  }

  // The path survives a second normalisation, and no NUL can be taken for a separator.
  predicate HasStablePath(m: Mutation) {
    && PathOf(m) != "" && SettlesAtOnce(EmptyAsUnknown(m.path)) && '\0' !in PathOf(m)
    && forall i :: 0 <= i < |Printed(m)| ==> '\0' !in EmptyAsUnknown(Printed(m)[i].source)
  }

  lemma ToolIsTrimmed()
    ensures TrimSpace(VERIFIER) == VERIFIER
  {
  }

  lemma ParsedIsTidied(path: string, d: Diagnostic)
    requires NormalizeScopePath(path) == path
    ensures Tidy(ParsedHint(path, d)) == ExpectedHint(path, d)
  {
    ToolIsTrimmed();
    SourceIsTrimmed(d.source);
    CompactIsTrimmed(d.error);
    TrimSpaceTrims(EmptyAsUnknown(d.source));
    TrimSpaceTrims(CompactError(d.error));
  }

  lemma ParsedAreTidied(m: Mutation)
    requires HasStablePath(m)
    ensures MapEach(ParsedOf(m), Tidy) == PrintedHints(m)
  {
    IdempotentExactly(EmptyAsUnknown(m.path));
    forall i | 0 <= i < |Printed(m)| ensures Tidy(ParsedOf(m)[i]) == PrintedHints(m)[i] {
      ParsedIsTidied(PathOf(m), Printed(m)[i]);
    }
  }

  lemma PrintedAreGuided(m: Mutation)
    requires HasStablePath(m)
    ensures forall i :: 0 <= i < |PrintedHints(m)| ==> IsGuided(PrintedHints(m)[i])
  {
    forall i | 0 <= i < |Printed(m)| ensures IsGuided(PrintedHints(m)[i]) {
      CompactIsTrimmed(Printed(m)[i].error);
    }
  }

  lemma {:induction false} AllAreGuided(ms: seq<Mutation>)
    requires forall i :: 0 <= i < |ms| ==> HasStablePath(ms[i])
    ensures forall i :: 0 <= i < |AllHints(ms)| ==> IsGuided(AllHints(ms)[i])
  {
    if ms != [] {
      var front, m := ms[..|ms| - 1], ms[|ms| - 1];
      AllAreGuided(front);
      PrintedAreGuided(m);
      assert AllHints(ms) == AllHints(front) + PrintedHints(m);
    }
  }

  lemma {:induction false} AllAreTidied(ms: seq<Mutation>)
    requires forall i :: 0 <= i < |ms| ==> HasStablePath(ms[i])
    ensures MapEach(Collect(ms, ParsedOf), Tidy) == AllHints(ms)
  {
    if ms != [] {
      var front, m := ms[..|ms| - 1], ms[|ms| - 1];
      AllAreTidied(front);
      ParsedAreTidied(m);
      MapEachConcat(Collect(front, ParsedOf), ParsedOf(m), Tidy);
    }
  }

  lemma StablePathIsNotBlank(m: Mutation)
    requires HasStablePath(m)
    ensures TrimSpace(PathOf(m)) != ""
  {
    IdempotentExactly(EmptyAsUnknown(m.path));
  }

  // Searching a printed footer gives the first three distinct printed diagnostics, each with its
  // path, line, column, source and compacted error, and with the standard guidance.
  lemma FooterHintsRoundTrip(ms: seq<Mutation>)
    requires forall i :: 0 <= i < |ms| ==>
      WellFormed(ms[i]) && SingleLine(ms[i]) && Readable(ms[i]) && HasStablePath(ms[i])
    ensures HintsFromText(Footer(ms)) == FirstHints(Distinct(AllHints(ms)))
  {
    forall i | 0 <= i < |ms| ensures TrimSpace(PathOf(ms[i])) != "" {
      StablePathIsNotBlank(ms[i]);
    }
    FooterHints(ms);
    LinesGiveHints(ms);
    AllAreTidied(ms);
    AllAreGuided(ms);
    NormalizeIsFirstDistinct(Collect(ms, ParsedOf));
  }
}
