// Finding the verifier footers in a transcript
// (observedMutationVerifierDiagnosticReceipts and observedMutationVerifierDiagnosticRepairHints,
// cmd/elnath/runtime_completion_observability.go): both scans parse the user message that directly
// follows a successful mutating result.
module FooterScan {
  import opened Lists
  import opened Transcript
  import opened FooterParser
  import opened HintParser

  // What a scan reads from the text of a message.
  type Parse<T> = string -> seq<T>

  // Block b, after front, is the successful result of a pending mutating use.
  predicate Confirms(r: Reader, front: seq<Block>, b: Block) {
    Succeeded(r, b) && b.useId in Pending(front, MutationTest(r))
  }

  // So is one of these blocks.
  predicate SomeConfirms(r: Reader, front: seq<Block>, blocks: seq<Block>) {
    exists i :: 0 <= i < |blocks| && Confirms(r, front + blocks[..i], blocks[i])
  }

  // The last message confirms a mutation, so that a footer may follow.
  predicate Awaits(r: Reader, messages: seq<Message>) {
    messages != [] && SomeConfirms(r, AllBlocks(messages[..|messages| - 1]), messages[|messages| - 1].blocks)
  }

  // What the scan finds in one message, given those before it.
  function FoundIn<T>(r: Reader, front: seq<Message>, m: Message, parse: Parse<T>): seq<T> {
    if Awaits(r, front) && m.role == UserRole then parse(TextOf(m)) else []
  }

  function Found<T>(r: Reader, messages: seq<Message>, parse: Parse<T>): seq<T> {
    if messages == [] then []
    else
      var front := messages[..|messages| - 1];
      Found(r, front, parse) + FoundIn(r, front, messages[|messages| - 1], parse)
  }

  lemma AllBlocksSnoc(front: seq<Message>, m: Message)
    ensures AllBlocks(front + [m]) == AllBlocks(front) + m.blocks
  {
    assert (front + [m])[..|front|] == front;
  }

  lemma PendingStep(front: seq<Block>, blocks: seq<Block>, i: nat)
    requires i < |blocks|
    ensures var all := front + blocks[..i + 1];
      && all[..|all| - 1] == front + blocks[..i] && all[|all| - 1] == blocks[i]
      && all == front + blocks[..i] + [blocks[i]]
  {
  }

  // One block: the pending ids after it, and whether it confirms a mutation.
  method ScanBlock(r: Reader, block: Block, before: set<string>, ghost front: seq<Block>)
    returns (pending: set<string>, confirms: bool)
    requires before == Pending(front, MutationTest(r)).Keys
    ensures pending == Pending(front + [block], MutationTest(r)).Keys
    ensures confirms <==> Confirms(r, front, block)
  {
    pending, confirms := before, false;
    assert (front + [block])[..|front|] == front;
    if block.ToolUse? {
      if block.id != "" && MutationTest(r)(block) {
        pending := pending + {block.id};
      }
    } else if block.ToolResult? {
      if block.useId !in pending {
        return;
      }
      if !block.isError && !r.looksNoop(block.content) {
        confirms := true;
      }
      pending := pending - {block.useId};
    }
  }

  // One message's blocks: the pending ids after it, and whether it confirms a mutation.
  method ScanBlocks(r: Reader, blocks: seq<Block>, before: set<string>, ghost front: seq<Block>)
    returns (pending: set<string>, awaiting: bool)
    requires before == Pending(front, MutationTest(r)).Keys
    ensures pending == Pending(front + blocks, MutationTest(r)).Keys
    ensures awaiting <==> SomeConfirms(r, front, blocks)
  {
    pending, awaiting := before, false;
    assert front + blocks[..0] == front;
    for i := 0 to |blocks|
      invariant pending == Pending(front + blocks[..i], MutationTest(r)).Keys
      invariant awaiting <==> exists k :: 0 <= k < i && Confirms(r, front + blocks[..k], blocks[k])
    {
      PendingStep(front, blocks, i);
      var confirms;
      pending, confirms := ScanBlock(r, blocks[i], pending, front + blocks[..i]);
      awaiting := awaiting || confirms;
    }
    assert blocks[..|blocks|] == blocks;
  }

  method ScanMessages<T>(r: Reader, messages: seq<Message>, parse: Parse<T>) returns (found: seq<T>)
    ensures found == Found(r, messages, parse)
  {
    var pending: set<string> := {};
    var awaiting := false;
    found := [];
    for i := 0 to |messages|
      invariant pending == Pending(AllBlocks(messages[..i]), MutationTest(r)).Keys
      invariant awaiting <==> Awaits(r, messages[..i])
      invariant found == Found(r, messages[..i], parse)
    {
      OneMore(messages, i);
      AllBlocksSnoc(messages[..i], messages[i]);
      if awaiting {
        if messages[i].role == UserRole {
          found := found + parse(TextOf(messages[i]));
        }
      }
      pending, awaiting := ScanBlocks(r, messages[i].blocks, pending, AllBlocks(messages[..i]));
    }
    assert messages[..|messages|] == messages;
  }

  function FooterReceipts(r: Reader, messages: seq<Message>): seq<Receipt> {
    Found(r, messages, ReceiptsFromText)
  }

  function FooterHints(r: Reader, messages: seq<Message>): seq<Hint> {
    Normalize(Found(r, messages, HintsFromText))
  }

  method ObservedMutationVerifierDiagnosticReceipts(r: Reader, messages: seq<Message>) returns (receipts: seq<Receipt>)
    ensures receipts == FooterReceipts(r, messages)
  {
    receipts := ScanMessages(r, messages, ReceiptsFromText);
  }

  method ObservedMutationVerifierDiagnosticRepairHints(r: Reader, messages: seq<Message>) returns (hints: seq<Hint>)
    ensures hints == FooterHints(r, messages)
  {
    var found := ScanMessages(r, messages, HintsFromText);
    hints := NormalizeCompletionDiagnosticRepairHints(found);
  }

  // ---- What the scan finds -----------------------------------------------------------------

  // Block i is the successful result of a mutating use.
  ghost predicate AnswersMutation(r: Reader, blocks: seq<Block>, i: int) {
    exists j :: Answers(blocks, MutationTest(r), j, i) && !blocks[i].isError && !r.looksNoop(blocks[i].content)
  }

  // Message k is a user message, and the message before it brings the successful result of a
  // mutating use.
  ghost predicate FollowsSuccess(r: Reader, messages: seq<Message>, k: int) {
    && 0 < k < |messages| && messages[k].role == UserRole
    && exists i :: |AllBlocks(messages[..k - 1])| <= i < |AllBlocks(messages[..k])|
                   && AnswersMutation(r, AllBlocks(messages), i)
  }

  // The readings of the first n messages, in order.
  ghost function Readings<T>(r: Reader, messages: seq<Message>, parse: Parse<T>, n: nat): seq<T>
    requires n <= |messages|
  {
    if n == 0 then []
    else Readings(r, messages, parse, n - 1)
         + if FollowsSuccess(r, messages, n - 1) then parse(TextOf(messages[n - 1])) else []
  }

  lemma ConfirmsMeansAnswers(r: Reader, all: seq<Block>, i: nat)
    requires i < |all|
    ensures Confirms(r, all[..i], all[i]) <==> AnswersMutation(r, all, i)
  {
    var front, test := all[..i], MutationTest(r);
    if all[i].ToolResult? {
      var id := all[i].useId;
      PendingIsOpen(front, test, id);
      if id in Pending(front, test) {
        var j :| Open(front, test, j) && UseId(front[j]) == id;
        assert Answers(all, test, j, i);
      }
      forall j | Answers(all, test, j, i) ensures id in Pending(front, test) {
        assert Open(front, test, j) && UseId(front[j]) == id;
      }
    }
  }

  lemma AllBlocksSplit(messages: seq<Message>, k: nat)
    requires k < |messages|
    ensures AllBlocks(messages)
         == AllBlocks(messages[..k]) + messages[k].blocks + AllBlocks(messages[k + 1..])
    ensures AllBlocks(messages[..k + 1]) == AllBlocks(messages[..k]) + messages[k].blocks
  {
    OneMore(messages, k);
    AllBlocksSnoc(messages[..k], messages[k]);
    assert messages == messages[..k + 1] + messages[k + 1..];
    CollectConcat(messages[..k + 1], messages[k + 1..], BlocksOf);
  }

  lemma BlockAt(front: seq<Block>, blocks: seq<Block>, rest: seq<Block>, i: nat)
    requires i < |blocks|
    ensures var all := front + blocks + rest;
      all[|front| + i] == blocks[i] && all[..|front| + i] == front + blocks[..i]
  {
  }

  lemma AwaitsMeansFollows(r: Reader, messages: seq<Message>, k: nat)
    requires 0 < k < |messages|
    ensures Awaits(r, messages[..k]) && messages[k].role == UserRole <==> FollowsSuccess(r, messages, k)
  {
    var front, blocks, rest := AllBlocks(messages[..k - 1]), messages[k - 1].blocks, AllBlocks(messages[k..]);
    var all := AllBlocks(messages);
    AllBlocksSplit(messages, k - 1);
    OneMore(messages, k - 1);
    forall i: nat | i < |blocks|
      ensures Confirms(r, front + blocks[..i], blocks[i]) <==> AnswersMutation(r, all, |front| + i)
    {
      BlockAt(front, blocks, rest, i);
      ConfirmsMeansAnswers(r, all, |front| + i);
    }
    if FollowsSuccess(r, messages, k) {
      var i :| |front| <= i < |AllBlocks(messages[..k])| && AnswersMutation(r, all, i);
      assert Confirms(r, front + blocks[..i - |front|], blocks[i - |front|]);
    }
  }

  // The scan finds exactly the readings of the user messages that directly follow a successful
  // mutating result, in order.
  lemma {:induction false} FootersFollowSuccess<T>(r: Reader, messages: seq<Message>, parse: Parse<T>, n: nat)
    requires n <= |messages|
    ensures Found(r, messages[..n], parse) == Readings(r, messages, parse, n)
  {
    if n > 0 {
      FootersFollowSuccess(r, messages, parse, n - 1);
      OneMore(messages, n - 1);
      if n > 1 {
        AwaitsMeansFollows(r, messages, n - 1);
      }
    }
  }
}
