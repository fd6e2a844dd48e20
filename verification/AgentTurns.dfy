// What the agent appends to a transcript for one response of the model: the tool results and the
// verifier's footer (appendToolResults, internal/agent/agent.go, and AppendToolResult,
// internal/llm/toolconv.go), and what the scan of the finished transcript reads back.
module AgentTurns {
  import opened Wrappers
  import opened Lists
  import Text
  import opened Transcript
  import opened MutationFooter
  import opened FooterParser
  import opened FooterRoundTrip
  import HintParser
  import opened FooterScan
  import opened DiagnosticRoutes

  // A filled result slot, with the disk change its tool recorded.
  datatype Recorded = Recorded(id: string, output: string, isError: bool, mutation: Option<Mutation>)

  // ---- Appending ---------------------------------------------------------------------------

  function ResultBlock(result: Recorded): Block {
    ToolResult(result.id, result.isError, result.output)
  }

  predicate HasToolResults(m: Message) {
    exists i :: 0 <= i < |m.blocks| && m.blocks[i].ToolResult?
  }

  predicate TakesResults(messages: seq<Message>) {
    messages != [] && messages[|messages| - 1].role == UserRole && HasToolResults(messages[|messages| - 1])
  }

  // Results of one response share a user message.
  function WithResult(messages: seq<Message>, block: Block): seq<Message> {
    if TakesResults(messages) then
      var last := messages[|messages| - 1];
      messages[..|messages| - 1] + [last.(blocks := last.blocks + [block])]
    else messages + [Message(UserRole, [block])]
  }

  function WithResults(messages: seq<Message>, results: seq<Recorded>): seq<Message> {
    if results == [] then messages
    else
      var front, last := WithResults(messages, results[..|results| - 1]), results[|results| - 1];
      if last.id == "" then front else WithResult(front, ResultBlock(last))
  }

  function RecordOf(result: Recorded): seq<Option<Mutation>> {
    if result.id == "" || result.mutation.None? then [] else [result.mutation]
  }

  // The records behind the footer: those of the results that are appended.
  function Records(results: seq<Recorded>): seq<Option<Mutation>> {
    Collect(results, RecordOf)
  }

  function FooterMessages(text: string): seq<Message> {
    if text == "" then [] else [Message(UserRole, [TextBlock(text)])]
  }

  function Appended(messages: seq<Message>, results: seq<Recorded>): seq<Message> {
    WithResults(messages, results) + FooterMessages(Footer(Kept(Records(results))))
  }

  method ContainsToolResult(m: Message) returns (found: bool)
    ensures found <==> HasToolResults(m)
  {
    for i := 0 to |m.blocks|
      invariant forall k :: 0 <= k < i ==> !m.blocks[k].ToolResult?
    {
      if m.blocks[i].ToolResult? {
        return true;
      }
    }
    found := false;
  }

  method AppendToolResult(messages: seq<Message>, id: string, content: string, isError: bool)
    returns (out: seq<Message>)
    ensures out == WithResult(messages, ToolResult(id, isError, content))
    ensures var block, n := ToolResult(id, isError, content), |messages| - 1;
      if n >= 0 && messages[n].role == UserRole && exists b :: b in messages[n].blocks && b.ToolResult?
      then out == messages[..n] + [Message(UserRole, messages[n].blocks + [block])]
      else out == messages + [Message(UserRole, [block])]
  {
    var block := ToolResult(id, isError, content);
    if |messages| > 0 {
      var last := messages[|messages| - 1];
      var merges := ContainsToolResult(last);
      if last.role == UserRole && merges {
        return messages[..|messages| - 1] + [last.(blocks := last.blocks + [block])];
      }
    }
    out := messages + [Message(UserRole, [block])];
  }

  method AppendToolResults(messages: seq<Message>, results: seq<Recorded>) returns (out: seq<Message>)
    ensures out == Appended(messages, results)
  {
    out := messages;
    var mutations: seq<Option<Mutation>> := [];
    for i := 0 to |results|
      invariant out == WithResults(messages, results[..i])
      invariant mutations == Records(results[..i])
    {
      OneMore(results, i);
      if results[i].id == "" {
        continue;
      }
      out := AppendToolResult(out, results[i].id, results[i].output, results[i].isError);
      if results[i].mutation.Some? {
        mutations := mutations + [results[i].mutation];
      }
    }
    assert results[..|results|] == results;
    var footer := FormatMutationVerifierFooter(mutations);
    if footer != "" {
      out := out + [Message(UserRole, [TextBlock(footer)])];
    }
  }

  function NamedResults(results: seq<Recorded>): seq<Recorded> {
    if results == [] then []
    else
      var last := results[|results| - 1];
      NamedResults(results[..|results| - 1]) + if last.id == "" then [] else [last]
  }

  lemma {:induction false} NamedAre(results: seq<Recorded>)
    ensures forall x :: x in NamedResults(results) <==> x in results && x.id != ""
  {
    if results != [] {
      NamedAre(results[..|results| - 1]);
      assert results == results[..|results| - 1] + [results[|results| - 1]];
    }
  }

  lemma NamedSnoc(messages: seq<Message>, front: seq<Recorded>, last: Recorded)
    ensures WithResults(messages, front + [last])
         == if last.id == "" then WithResults(messages, front)
            else WithResult(WithResults(messages, front), ResultBlock(last))
    ensures Records(front + [last]) == Records(front) + RecordOf(last)
  {
    assert (front + [last])[..|front|] == front;
  }

  predicate NamedSuffice(messages: seq<Message>, results: seq<Recorded>) {
    && WithResults(messages, results) == WithResults(messages, NamedResults(results))
    && Records(results) == Records(NamedResults(results))
  }

  lemma NamedStep(messages: seq<Message>, front: seq<Recorded>, last: Recorded)
    requires NamedSuffice(messages, front)
    ensures NamedSuffice(messages, front + [last])
  {
    NamedSnoc(messages, front, last);
    NamedSnoc(messages, NamedResults(front), last);
    assert (front + [last])[..|front|] == front;
    var named := NamedResults(front + [last]);
    if last.id == "" {
      assert named == NamedResults(front);
    } else {
      assert named == NamedResults(front) + [last];
    }
  }

  lemma {:induction false} NamedAlone(messages: seq<Message>, results: seq<Recorded>)
    ensures NamedSuffice(messages, results)
  {
    if results != [] {
      var front, last := results[..|results| - 1], results[|results| - 1];
      NamedAlone(messages, front);
      assert results == front + [last];
      NamedStep(messages, front, last);
    }
  }

  // Results without an id leave no trace: neither a block nor a record.
  lemma NamelessLeaveNothing(messages: seq<Message>, results: seq<Recorded>)
    ensures Appended(messages, results) == Appended(messages, NamedResults(results))
  {
    NamedAlone(messages, results);
  }

  // ---- One exchange ------------------------------------------------------------------------

  // One response of the model, and the results of its calls.
  datatype Exchange = Exchange(asked: seq<Block>, results: seq<Recorded>)

  // Every call of a response has an id, and there is at least one.
  predicate Identified(x: Exchange) {
    x.results != [] && forall i :: 0 <= i < |x.results| ==> x.results[i].id != ""
  }

  function After(messages: seq<Message>, x: Exchange): seq<Message> {
    Appended(messages + [Message(AssistantRole, x.asked)], x.results)
  }

  function AfterAll(messages: seq<Message>, xs: seq<Exchange>): seq<Message> {
    if xs == [] then messages else After(AfterAll(messages, xs[..|xs| - 1]), xs[|xs| - 1])
  }

  lemma {:induction false} ResultsShareAMessage(messages: seq<Message>, results: seq<Recorded>)
    requires !TakesResults(messages) && results != []
    requires forall i :: 0 <= i < |results| ==> results[i].id != ""
    ensures WithResults(messages, results) == messages + [Message(UserRole, MapEach(results, ResultBlock))]
  {
    var front, last := results[..|results| - 1], results[|results| - 1];
    assert MapEach(results, ResultBlock) == MapEach(front, ResultBlock) + [ResultBlock(last)];
    assert WithResults(messages, results) == WithResult(WithResults(messages, front), ResultBlock(last));
    if front == [] {
      assert MapEach(results, ResultBlock) == [ResultBlock(last)];
    } else {
      ResultsShareAMessage(messages, front);
      var shared := Message(UserRole, MapEach(front, ResultBlock));
      assert shared.blocks[0].ToolResult?;
      assert (messages + [shared])[..|messages|] == messages;
    }
  }

  // An exchange appends the response, one message with its results, and the footer if there is one.
  lemma ExchangeShape(messages: seq<Message>, x: Exchange)
    requires Identified(x)
    ensures After(messages, x)
         == messages + [Message(AssistantRole, x.asked)] + [Message(UserRole, MapEach(x.results, ResultBlock))]
            + FooterMessages(Footer(Kept(Records(x.results))))
  {
    ResultsShareAMessage(messages + [Message(AssistantRole, x.asked)], x.results);
  }

  // The response's calls, answered by its results, change something.
  predicate Succeeds(r: Reader, messages: seq<Message>, x: Exchange) {
    SomeConfirms(r, AllBlocks(messages) + x.asked, MapEach(x.results, ResultBlock))
  }

  function ReadFooter<T>(r: Reader, messages: seq<Message>, x: Exchange, parse: Parse<T>): seq<T> {
    if Succeeds(r, messages, x) then parse(Footer(Kept(Records(x.results)))) else []
  }

  predicate ReadsNothing<T(==)>(parse: Parse<T>) {
    parse("") == []
  }

  lemma FoundSnoc<T>(r: Reader, front: seq<Message>, m: Message, parse: Parse<T>)
    ensures Found(r, front + [m], parse) == Found(r, front, parse) + FoundIn(r, front, m, parse)
  {
    assert (front + [m])[..|front|] == front;
  }

  lemma AwaitsSnoc(r: Reader, front: seq<Message>, m: Message)
    ensures Awaits(r, front + [m]) <==> SomeConfirms(r, AllBlocks(front), m.blocks)
  {
    assert (front + [m])[..|front|] == front;
  }

  lemma TextOfOne(text: string)
    ensures TextOf(Message(UserRole, [TextBlock(text)])) == text
  {
    assert [TextBlock(text)][..0] == [];
    assert Collect([TextBlock(text)], PlainText) == Collect([], PlainText) + text;
  }

  lemma {:induction false} ResultsHaveNoText(results: seq<Recorded>)
    ensures Collect(MapEach(results, ResultBlock), PlainText) == ""
  {
    if results != [] {
      var n := |results| - 1;
      ResultsHaveNoText(results[..n]);
      assert MapEach(results, ResultBlock)[..n] == MapEach(results[..n], ResultBlock);
    }
  }

  // The response and its results hold no footer.
  lemma ResultsAreNotRead<T>(r: Reader, messages: seq<Message>, x: Exchange, parse: Parse<T>)
    requires ReadsNothing(parse)
    ensures var response := messages + [Message(AssistantRole, x.asked)];
      var answered := response + [Message(UserRole, MapEach(x.results, ResultBlock))];
      && Found(r, answered, parse) == Found(r, messages, parse)
      && (Awaits(r, answered) <==> Succeeds(r, messages, x))
  {
    var response, answer := Message(AssistantRole, x.asked), Message(UserRole, MapEach(x.results, ResultBlock));
    FoundSnoc(r, messages, response, parse);
    FoundSnoc(r, messages + [response], answer, parse);
    ResultsHaveNoText(x.results);
    AwaitsSnoc(r, messages + [response], answer);
    AllBlocksSnoc(messages, response);
  }

  // What the scan finds in an exchange: the reading of its footer, when its calls changed
  // something.
  lemma ExchangeIsRead<T>(r: Reader, messages: seq<Message>, x: Exchange, parse: Parse<T>)
    requires Identified(x) && ReadsNothing(parse)
    ensures Found(r, After(messages, x), parse)
         == Found(r, messages, parse) + ReadFooter(r, messages, x, parse)
  {
    var text := Footer(Kept(Records(x.results)));
    var answered := messages + [Message(AssistantRole, x.asked)] + [Message(UserRole, MapEach(x.results, ResultBlock))];
    ExchangeShape(messages, x);
    ResultsAreNotRead(r, messages, x, parse);
    if text == "" {
      assert answered + FooterMessages(text) == answered;
    } else {
      FoundSnoc(r, answered, Message(UserRole, [TextBlock(text)]), parse);
      TextOfOne(text);
    }
  }

  // ---- When an exchange counts as a change -------------------------------------------------

  predicate Calls(asked: seq<Block>, test: UseTest, id: string) {
    exists u :: 0 <= u < |asked| && IsUse(asked[u], test) && UseId(asked[u]) == id
  }

  lemma {:induction false} PendingAfterCalls(front: seq<Block>, asked: seq<Block>, test: UseTest, id: string)
    requires id != "" && forall u :: 0 <= u < |asked| ==> !asked[u].ToolResult?
    ensures id in Pending(front + asked, test) <==> id in Pending(front, test) || Calls(asked, test, id)
  {
    if asked == [] {
      assert front + asked == front;
    } else {
      var n := |asked| - 1;
      PendingStep(front, asked, n);
      assert asked[..n + 1] == asked;
      PendingAfterCalls(front, asked[..n], test, id);
      assert Calls(asked, test, id) <==>
        Calls(asked[..n], test, id) || (IsUse(asked[n], test) && UseId(asked[n]) == id);
    }
  }

  lemma {:induction false} PendingAfterResults(front: seq<Block>, results: seq<Recorded>, n: nat, test: UseTest,
                                                id: string)
    requires n <= |results| && forall i :: 0 <= i < n ==> results[i].id != id
    ensures id in Pending(front + MapEach(results, ResultBlock)[..n], test) <==> id in Pending(front, test)
  {
    var blocks := MapEach(results, ResultBlock);
    if n == 0 {
      assert front + blocks[..0] == front;
    } else {
      PendingStep(front, blocks, n - 1);
      PendingAfterResults(front, results, n - 1, test, id);
    }
  }

  // The results answer the calls of their own response: their ids are distinct and no earlier
  // call is still open under one of them.
  predicate AnswersItself(r: Reader, messages: seq<Message>, x: Exchange) {
    && (forall u :: 0 <= u < |x.asked| ==> !x.asked[u].ToolResult?)
    && (forall i, j :: 0 <= i < j < |x.results| ==> x.results[i].id != x.results[j].id)
    && forall i :: 0 <= i < |x.results| ==> x.results[i].id !in Pending(AllBlocks(messages), MutationTest(r))
  }

  // Such an exchange counts as a change exactly when one of its mutating calls came back without
  // an error and not as a no-op.
  lemma SucceedsExactly(r: Reader, messages: seq<Message>, x: Exchange)
    requires Identified(x) && AnswersItself(r, messages, x)
    ensures Succeeds(r, messages, x) <==>
      exists i :: 0 <= i < |x.results| && !x.results[i].isError && !r.looksNoop(x.results[i].output)
                  && Calls(x.asked, MutationTest(r), x.results[i].id)
  {
    var front, blocks, test := AllBlocks(messages) + x.asked, MapEach(x.results, ResultBlock), MutationTest(r);
    forall i | 0 <= i < |x.results|
      ensures Confirms(r, front + blocks[..i], blocks[i]) <==>
        (!x.results[i].isError && !r.looksNoop(x.results[i].output) && Calls(x.asked, test, x.results[i].id))
    {
      PendingAfterResults(front, x.results, i, test, x.results[i].id);
      PendingAfterCalls(AllBlocks(messages), x.asked, test, x.results[i].id);
    }
  }

  // ---- Whole transcripts -------------------------------------------------------------------

  // The footers of the exchanges that changed something, read in order.
  function FootersRead<T>(r: Reader, messages: seq<Message>, xs: seq<Exchange>, parse: Parse<T>): seq<T> {
    if xs == [] then []
    else
      var front := xs[..|xs| - 1];
      FootersRead(r, messages, front, parse) + ReadFooter(r, AfterAll(messages, front), xs[|xs| - 1], parse)
  }

  lemma OneMoreIsRead<T>(r: Reader, before: seq<Message>, x: Exchange, parse: Parse<T>, a: seq<T>, b: seq<T>)
    requires ReadsNothing(parse) && Identified(x) && Found(r, before, parse) == a + b
    ensures Found(r, After(before, x), parse) == a + (b + ReadFooter(r, before, x, parse))
  {
    ExchangeIsRead(r, before, x, parse);
    Associate(a, b, ReadFooter(r, before, x, parse));
  }

  // Whatever the exchanges, the scan of the transcript reads those footers and nothing else.
  lemma {:induction false} TranscriptIsRead<T>(r: Reader, messages: seq<Message>, xs: seq<Exchange>, parse: Parse<T>)
    requires ReadsNothing(parse) && forall k :: 0 <= k < |xs| ==> Identified(xs[k])
    ensures Found(r, AfterAll(messages, xs), parse)
         == Found(r, messages, parse) + FootersRead(r, messages, xs, parse)
  {
    if xs != [] {
      var front, last := xs[..|xs| - 1], xs[|xs| - 1];
      TranscriptIsRead(r, messages, front, parse);
      OneMoreIsRead(r, AfterAll(messages, front), last, parse,
                    Found(r, messages, parse), FootersRead(r, messages, front, parse));
    }
  }

  function RecordsOf(x: Exchange): seq<Option<Mutation>> {
    Records(x.results)
  }

  // What the run reports as its mutations.
  function AllRecords(xs: seq<Exchange>): seq<Option<Mutation>> {
    Collect(xs, RecordsOf)
  }

  // Every exchange that records a disk change is seen to change something.
  predicate RecordsSucceed(r: Reader, messages: seq<Message>, xs: seq<Exchange>) {
    forall k :: 0 <= k < |xs| && Kept(Records(xs[k].results)) != [] ==> Succeeds(r, AfterAll(messages, xs[..k]), xs[k])
  }

  // The records print as lines that keep their receipts.
  predicate Printable(ms: seq<Mutation>) {
    forall i :: 0 <= i < |ms| ==> WellFormed(ms[i]) && SingleLine(ms[i]) && KeepsReceipt(ms[i])
  }

  lemma {:induction false} ExpectedConcat(a: seq<Mutation>, b: seq<Mutation>)
    ensures ExpectedReceipts(a + b) == ExpectedReceipts(a) + ExpectedReceipts(b)
  {
    if b == [] {
      assert a + b == a;
    } else {
      assert (a + b)[..|a + b| - 1] == a + b[..|b| - 1];
      ExpectedConcat(a, b[..|b| - 1]);
    }
  }

  lemma PrintableParts(a: seq<Mutation>, b: seq<Mutation>, both: seq<Mutation>)
    requires both == a + b && Printable(both)
    ensures Printable(a) && Printable(b)
  {
    assert forall i :: 0 <= i < |a| ==> both[i] == a[i];
    assert forall i :: 0 <= i < |b| ==> both[|a| + i] == b[i];
  }

  lemma KeptParts(a: seq<Option<Mutation>>, b: seq<Option<Mutation>>)
    requires Printable(Kept(a + b))
    ensures Printable(Kept(a)) && Printable(Kept(b))
    ensures ExpectedReceipts(Kept(a + b)) == ExpectedReceipts(Kept(a)) + ExpectedReceipts(Kept(b))
  {
    KeptConcat(a, b);
    PrintableParts(Kept(a), Kept(b), Kept(a + b));
    ExpectedConcat(Kept(a), Kept(b));
  }

  lemma SucceedBefore(r: Reader, messages: seq<Message>, xs: seq<Exchange>)
    requires xs != [] && RecordsSucceed(r, messages, xs)
    ensures var front, last := xs[..|xs| - 1], xs[|xs| - 1];
      && RecordsSucceed(r, messages, front)
      && (Kept(Records(last.results)) != [] ==> Succeeds(r, AfterAll(messages, front), last))
  {
    var front := xs[..|xs| - 1];
    assert forall k :: 0 <= k < |front| ==> front[..k] == xs[..k] && front[k] == xs[k];
  }

  lemma EmptyIsRead()
    ensures ReceiptsFromText("") == [] && HintParser.HintsFromText("") == []
  {
    assert Text.TrimSpace("") == "";
  }

  lemma FooterReads(r: Reader, messages: seq<Message>, x: Exchange)
    requires Printable(Kept(Records(x.results)))
    requires Kept(Records(x.results)) != [] ==> Succeeds(r, messages, x)
    ensures ReadFooter(r, messages, x, ReceiptsFromText) == ExpectedReceipts(Kept(Records(x.results)))
  {
    var kept := Kept(Records(x.results));
    if kept == [] {
      EmptyIsRead();
    } else {
      FooterRoundTrips(kept);
    }
  }

  lemma {:induction false} FootersGiveExpected(r: Reader, messages: seq<Message>, xs: seq<Exchange>)
    requires RecordsSucceed(r, messages, xs)
    requires Printable(Kept(AllRecords(xs)))
    ensures FootersRead(r, messages, xs, ReceiptsFromText) == ExpectedReceipts(Kept(AllRecords(xs)))
  {
    if xs != [] {
      var front, last := xs[..|xs| - 1], xs[|xs| - 1];
      KeptParts(AllRecords(front), Records(last.results));
      SucceedBefore(r, messages, xs);
      FootersGiveExpected(r, messages, front);
      FooterReads(r, AfterAll(messages, front), last);
    }
  }

  // The receipts of a transcript: those of everything its exchanges recorded, in order.
  lemma TranscriptGivesReceipts(r: Reader, messages: seq<Message>, xs: seq<Exchange>)
    requires (forall k :: 0 <= k < |xs| ==> Identified(xs[k])) && RecordsSucceed(r, messages, xs)
    requires Printable(Kept(AllRecords(xs)))
    ensures FooterReceipts(r, AfterAll(messages, xs))
         == FooterReceipts(r, messages) + ExpectedReceipts(Kept(AllRecords(xs)))
  {
    EmptyIsRead();
    TranscriptIsRead(r, messages, xs, ReceiptsFromText);
    FootersGiveExpected(r, messages, xs);
  }

  lemma ReadRoutesAgree(read: seq<Receipt>, ms: seq<Option<Mutation>>)
    requires read == ExpectedReceipts(Kept(ms)) && Printable(Kept(ms))
    ensures AllRenamed(read) == StructuredReceipts(LatestPerPath(ms)) <==> Comparable(WithStatus(ms))
  {
    ExpectedAgree(ms);
  }

  // Over a whole run, too, the receipts read from the transcript agree with those built from the
  // recorded mutations exactly on comparable records.
  lemma TranscriptRoutesAgree(r: Reader, messages: seq<Message>, xs: seq<Exchange>)
    requires FooterReceipts(r, messages) == []
    requires (forall k :: 0 <= k < |xs| ==> Identified(xs[k])) && RecordsSucceed(r, messages, xs)
    requires Printable(Kept(AllRecords(xs)))
    ensures AllRenamed(FooterReceipts(r, AfterAll(messages, xs))) == StructuredReceipts(LatestPerPath(AllRecords(xs)))
       <==> Comparable(WithStatus(AllRecords(xs)))
  {
    TranscriptGivesReceipts(r, messages, xs);
    ReadRoutesAgree(FooterReceipts(r, AfterAll(messages, xs)), AllRecords(xs));
  }
}
