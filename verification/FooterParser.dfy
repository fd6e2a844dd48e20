// Reading the verifier footer back into diagnostic receipts
// (mutationVerifierDiagnosticReceiptsFromText and completionKeyValueFields,
// cmd/elnath/runtime_completion_observability.go).
module FooterParser {
  import opened Wrappers
  import opened Text
  import opened Decimal
  import ScopePaths
  import MutationFooter

  datatype Receipt = Receipt(
    tool: string,
    policy: string,
    status: string,
    language: string,
    path: string,
    count: Int,
    errorCount: Int,
    newCount: Int,
    existingCount: Int,
    resolvedCount: Int)

  const VERIFIER := "filesystem_mutation_verifier"

  // ---- key=value tokens --------------------------------------------------------------------

  // The key of a token, None when the token defines nothing.
  function KeyOf(token: string): Option<string> {
    var n := IndexOf(token, '=');
    if n == |token| then None
    else
      var key := TrimSpace(token[..n]);
      if key == "" then None else Some(key)
  }

  function ValueOf(token: string): string
    requires KeyOf(token).Some?
  {
    TrimSpace(token[IndexOf(token, '=') + 1..])
  }

  // completionKeyValueFields as a function of the tokens; later tokens overwrite earlier ones.
  function KeyValues(fields: seq<string>): map<string, string> {
    if fields == [] then map[]
    else
      var last := fields[|fields| - 1];
      var out := KeyValues(fields[..|fields| - 1]);
      if KeyOf(last).None? then out else out[KeyOf(last).value := ValueOf(last)]
  }

  method CompletionKeyValueFields(fields: seq<string>) returns (out: map<string, string>)
    ensures out == KeyValues(fields)
  {
    out := map[];
    for i := 0 to |fields|
      invariant out == KeyValues(fields[..i])
    {
      assert fields[..i + 1][..i] == fields[..i];
      if KeyOf(fields[i]).Some? {
        out := out[KeyOf(fields[i]).value := ValueOf(fields[i])];
      }
    }
    assert fields[..|fields|] == fields;
  }

  // The value of the last token that defines the key.
  function LastValue(tokens: seq<string>, key: string): Option<string> {
    if tokens == [] then None
    else
      var last := tokens[|tokens| - 1];
      if KeyOf(last) == Some(key) then Some(ValueOf(last)) else LastValue(tokens[..|tokens| - 1], key)
  }

  // A missing key reads as the empty string.
  function Get(m: map<string, string>, key: string): string {
    if key in m then m[key] else ""
  }

  lemma {:induction false} GetIsLastValue(fields: seq<string>, key: string)
    ensures Get(KeyValues(fields), key) == LastValue(fields, key).GetOr("")
  {
    if fields != [] {
      GetIsLastValue(fields[..|fields| - 1], key);
    }
  }

  lemma {:induction false} LastValueConcat(a: seq<string>, b: seq<string>, key: string)
    ensures LastValue(a + b, key) == if LastValue(b, key).Some? then LastValue(b, key) else LastValue(a, key)
    decreases |b|
  {
    if b == [] {
      assert a + b == a;
    } else {
      assert (a + b)[..|a + b| - 1] == a + b[..|b| - 1];
      LastValueConcat(a, b[..|b| - 1], key);
    }
  }

  // Keys and values are trimmed, and no key is empty.
  lemma TokenIsTrimmed(token: string)
    ensures KeyOf(token).Some? ==>
      Trimmed(KeyOf(token).value) && KeyOf(token).value != "" && Trimmed(ValueOf(token))
  {
    var n := IndexOf(token, '=');
    TrimSpaceTrims(token[..n]);
    if n < |token| {
      TrimSpaceTrims(token[n + 1..]);
    }
  }

  // A printed token defines its key, with its value.
  lemma PrintedToken(key: string, value: string)
    requires IsWord(key) && '=' !in key && NoSpace(value)
    ensures IsWord(key + "=" + value)
    ensures KeyOf(key + "=" + value) == Some(key)
    ensures ValueOf(key + "=" + value) == value
  {
    var token := key + "=" + value;
    IndexOfAt(key, '=', value);
    assert token == key + ['='] + value && token[..|key|] == key && token[|key| + 1..] == value;
    TrimSpaceTrims(key);
    TrimSpaceTrims(value);
  }

  // ---- One line ----------------------------------------------------------------------------

  // The fields both ways of building a receipt fill in the same manner.
  function NewReceipt(tool: string, policy: string, status: string, language: string, path: string,
                      newCount: Int, existingCount: Int, resolvedCount: Int): Receipt {
    Receipt(tool, policy, status, language, ScopePaths.NormalizeScopePath(path), Add(newCount, existingCount),
            newCount, newCount, existingCount, resolvedCount)
  }

  function ReceiptFromValues(path: string, values: map<string, string>): Option<Receipt> {
    var status := TrimSpace(Get(values, "diagnostics"));
    if status == "" then None
    else Some(NewReceipt(VERIFIER, VERIFIER, status, TrimSpace(Get(values, "language")), path,
                         ParseReceiptInt(Get(values, "new")), ParseReceiptInt(Get(values, "existing")),
                         ParseReceiptInt(Get(values, "resolved"))))
  }

  function LineFields(line: string): seq<string> {
    var trimmed := TrimSpace(line);
    if "- " <= trimmed then Fields(trimmed[2..]) else []
  }

  function ReceiptFromLine(line: string): Option<Receipt> {
    var fields := LineFields(line);
    if |fields| < 2 then None else ReceiptFromValues(fields[1], KeyValues(fields[2..]))
  }

  // ---- The whole text ----------------------------------------------------------------------

  function ReceiptsFromLines(lines: seq<string>): seq<Receipt> {
    if lines == [] then []
    else
      var last := ReceiptFromLine(lines[|lines| - 1]);
      ReceiptsFromLines(lines[..|lines| - 1]) + if last.Some? then [last.value] else []
  }

  predicate HasHeader(text: string) {
    MutationFooter.HEADER + "\n" <= TrimSpace(text)
  }

  function ReceiptsFromText(text: string): seq<Receipt> {
    if HasHeader(text) then ReceiptsFromLines(Split(TrimSpace(text), '\n')) else []
  }

  // A line gives a receipt exactly when it is an item of at least two words whose last
  // "diagnostics" token after those has a value that is not blank.
  lemma ReadExactly(line: string)
    ensures ReceiptFromLine(line).Some? <==>
      (&& "- " <= TrimSpace(line)
       && var words := Fields(TrimSpace(line)[2..]);
          && |words| >= 2
          && LastValue(words[2..], "diagnostics").Some?
          && TrimSpace(LastValue(words[2..], "diagnostics").value) != "")
  {
    TrimSpaceTrims("");
    if |LineFields(line)| >= 2 {
      GetIsLastValue(LineFields(line)[2..], "diagnostics");
    }
  }

  lemma {:induction false} ReceiptsAre(lines: seq<string>, r: Receipt)
    ensures r in ReceiptsFromLines(lines) <==> exists line :: line in lines && ReceiptFromLine(line) == Some(r)
  {
    if lines != [] {
      assert lines == lines[..|lines| - 1] + [lines[|lines| - 1]];
      ReceiptsAre(lines[..|lines| - 1], r);
    }
  }

  // The body of the parser's loop: no receipt where the source moves on to the next line.
  method ReadLine(line: string) returns (receipt: Option<Receipt>)
    ensures receipt == ReceiptFromLine(line)
  {
    var fields := LineFields(line);
    if |fields| < 2 {
      return None;
    }
    var values := CompletionKeyValueFields(fields[2..]);
    receipt := ReceiptFromValues(fields[1], values);
  }

  method ReadLines(lines: seq<string>) returns (receipts: seq<Receipt>)
    ensures receipts == ReceiptsFromLines(lines)
  {
    receipts := [];
    for i := 0 to |lines|
      invariant receipts == ReceiptsFromLines(lines[..i])
    {
      assert lines[..i + 1][..i] == lines[..i];
      var receipt := ReadLine(lines[i]);
      if receipt.None? {
        continue;
      }
      receipts := receipts + [receipt.value];
    }
    assert lines[..|lines|] == lines;
  }

  method MutationVerifierDiagnosticReceiptsFromText(text: string) returns (receipts: seq<Receipt>)
    ensures receipts == ReceiptsFromText(text)
    ensures forall r :: r in receipts <==>
      (&& "[Filesystem mutation verifier]\n" <= TrimSpace(text)
       && exists line :: line in Split(TrimSpace(text), '\n') && ReceiptFromLine(line) == Some(r))
  {
    assert "[Filesystem mutation verifier]\n" == MutationFooter.HEADER + "\n";
    forall r {
      ReceiptsAre(Split(TrimSpace(text), '\n'), r);
    }
    if !HasHeader(text) {
      return [];
    }
    receipts := ReadLines(Split(TrimSpace(text), '\n'));
  }
}
