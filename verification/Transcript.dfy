// Scanning a transcript for verification commands and mutations
// (observedVerificationCommandStatus, mutationObservedInMessages and observedMutatingPaths,
// cmd/elnath/runtime_completion_observability.go). What a command or an output looks like is
// decided by uninterpreted predicates.
module Transcript {
  import opened Wrappers
  import opened Text
  import Lists
  import Ordering
  import opened ScopePaths

  datatype Block =
    | ToolUse(id: string, name: string, input: string)
    | ToolResult(useId: string, isError: bool, content: string)
    | TextBlock(text: string)
    | Other

  datatype Role = UserRole | AssistantRole | OtherRole

  datatype Message = Message(role: Role, blocks: seq<Block>)

  function BlocksOf(m: Message): seq<Block> {
    m.blocks
  }

  // The scanners read the blocks of all messages in order.
  function AllBlocks(messages: seq<Message>): seq<Block> {
    Lists.Collect(messages, BlocksOf)
  }

  function PlainText(b: Block): string {
    if b.TextBlock? then b.text else ""
  }

  // The text of a message: that of its text blocks.
  function TextOf(m: Message): string {
    Lists.Collect(m.blocks, PlainText)
  }

  // ---- Texts -------------------------------------------------------------------------------

  // What the user's messages say, one after another.
  function UserTexts(messages: seq<Message>): seq<string> {
    if messages == [] then []
    else
      var last := messages[|messages| - 1];
      var text := TrimSpace(TextOf(last));
      UserTexts(messages[..|messages| - 1]) + if last.role == UserRole && text != "" then [text] else []
  }

  // What the last message of the assistant says.
  function FinalText(messages: seq<Message>): string {
    if messages == [] then ""
    else
      var last := messages[|messages| - 1];
      if last.role == AssistantRole then TrimSpace(TextOf(last)) else FinalText(messages[..|messages| - 1])
  }

  // The texts are those of the user's messages that say something.
  lemma {:induction false} UserTextsAre(messages: seq<Message>, text: string)
    ensures text in UserTexts(messages) <==>
      text != "" && exists m :: m in messages && m.role == UserRole && text == TrimSpace(TextOf(m))
  {
    if messages != [] {
      var n := |messages| - 1;
      UserTextsAre(messages[..n], text);
      assert messages == messages[..n] + [messages[n]];
    }
  }

  // The final text is that of the last message of the assistant, when there is one.
  lemma {:induction false} FinalTextIsLast(messages: seq<Message>, i: int)
    requires -1 <= i < |messages| && forall k :: i < k < |messages| ==> messages[k].role != AssistantRole
    requires i >= 0 ==> messages[i].role == AssistantRole
    ensures FinalText(messages) == if i >= 0 then TrimSpace(TextOf(messages[i])) else ""
  {
    if |messages| > i + 1 {
      FinalTextIsLast(messages[..|messages| - 1], i);
    }
  }

  method UserMessageText(messages: seq<Message>) returns (text: string)
    ensures text == Join(UserTexts(messages), '\n')
  {
    var parts: seq<string> := [];
    for i := 0 to |messages|
      invariant parts == UserTexts(messages[..i])
    {
      assert messages[..i + 1][..i] == messages[..i];
      if messages[i].role != UserRole {
        continue;
      }
      var part := TrimSpace(TextOf(messages[i]));
      if part != "" {
        parts := parts + [part];
      }
    }
    assert messages[..|messages|] == messages;
    text := Join(parts, '\n');
  }

  method FinalAssistantText(messages: seq<Message>) returns (text: string)
    ensures text == FinalText(messages)
  {
    var i := |messages|;
    assert messages[..|messages|] == messages;
    while i > 0
      invariant 0 <= i <= |messages| && FinalText(messages) == FinalText(messages[..i])
    {
      i := i - 1;
      assert messages[..i + 1][..i] == messages[..i];
      if messages[i].role == AssistantRole {
        return TrimSpace(TextOf(messages[i]));
      }
    }
    text := "";
  }

  // ---- Reading inputs and outputs ----------------------------------------------------------

  datatype FilePayload = FilePayload(filePath: string, path: string)

  // How inputs decode, and what commands and outputs look like.
  datatype Reader = Reader(
    command: string -> string,
    filePayload: string -> Option<FilePayload>,
    isVerification: string -> bool,
    looksMutating: (string, string) -> bool,
    looksNoop: string -> bool)

  function UseId(b: Block): string {
    if b.ToolUse? then b.id else ""
  }

  // ---- Pending tool uses -------------------------------------------------------------------

  type UseTest = Block -> bool

  predicate IsUse(b: Block, test: UseTest) {
    b.ToolUse? && test(b)
  }

  // The map every scanner keeps: uses of interest by id, until their result arrives.
  function Pending(blocks: seq<Block>, test: UseTest): map<string, Block> {
    if blocks == [] then map[]
    else
      var front, last := Pending(blocks[..|blocks| - 1], test), blocks[|blocks| - 1];
      if IsUse(last, test) && last.id != "" then front[last.id := last]
      else if last.ToolResult? then front - {last.useId}
      else front
  }

  // A block after which an earlier use with the id is no longer the pending one.
  predicate Settles(b: Block, test: UseTest, id: string) {
    (IsUse(b, test) && b.id == id) || (b.ToolResult? && b.useId == id)
  }

  // A use whose result has not arrived, and whose id has not been used again.
  predicate Open(blocks: seq<Block>, test: UseTest, j: int) {
    && 0 <= j < |blocks| && IsUse(blocks[j], test) && UseId(blocks[j]) != ""
    && forall k :: j < k < |blocks| ==> !Settles(blocks[k], test, UseId(blocks[j]))
  }

  lemma OpenStaysOpen(blocks: seq<Block>, test: UseTest, j: int)
    requires 0 <= j < |blocks| - 1
    ensures Open(blocks, test, j) <==>
      Open(blocks[..|blocks| - 1], test, j) && !Settles(blocks[|blocks| - 1], test, UseId(blocks[j]))
  {
  }

  // What is pending is exactly what is open.
  lemma {:induction false} PendingIsOpen(blocks: seq<Block>, test: UseTest, id: string)
    ensures id in Pending(blocks, test) <==> exists j :: Open(blocks, test, j) && UseId(blocks[j]) == id
    ensures forall j :: Open(blocks, test, j) && UseId(blocks[j]) == id ==>
      id in Pending(blocks, test) && Pending(blocks, test)[id] == blocks[j]
  {
    if blocks != [] {
      var n := |blocks| - 1;
      var front := blocks[..n];
      PendingIsOpen(front, test, id);
      forall j | 0 <= j < n
        ensures Open(blocks, test, j) <==> Open(front, test, j) && !Settles(blocks[n], test, UseId(blocks[j]))
      {
        OpenStaysOpen(blocks, test, j);
      }
      if id in Pending(blocks, test) {
        if Settles(blocks[n], test, id) {
          assert Open(blocks, test, n) && UseId(blocks[n]) == id;
        } else {
          var j :| Open(front, test, j) && UseId(front[j]) == id;
          assert Open(blocks, test, j);
        }
      }
    }
  }

  // Block i brings the result of the use at j.
  predicate Answers(blocks: seq<Block>, test: UseTest, j: int, i: int) {
    && 0 <= j < i < |blocks| && blocks[i].ToolResult?
    && Open(blocks[..i], test, j) && UseId(blocks[j]) == blocks[i].useId
  }

  // ---- Verification commands ---------------------------------------------------------------

  function CommandOf(r: Reader, b: Block): string {
    if b.ToolUse? then TrimSpace(r.command(b.input)) else ""
  }

  function VerificationTest(r: Reader): UseTest {
    (b: Block) => b.ToolUse? && b.name == "bash" && r.isVerification(CommandOf(r, b))
  }

  // What the scan reports; final once a use without an id has ended it.
  datatype Status = Status(command: string, failed: bool, final: bool)

  function StatusStep(r: Reader, front: seq<Block>, s: Status, b: Block): Status {
    var test := VerificationTest(r);
    if s.final then s
    else if IsUse(b, test) then Status(CommandOf(r, b), false, b.id == "")
    else if b.ToolResult? && b.useId in Pending(front, test) then
      Status(CommandOf(r, Pending(front, test)[b.useId]), b.isError, false)
    else s
  }

  function StatusOf(r: Reader, blocks: seq<Block>): Status {
    if blocks == [] then Status("", false, false)
    else
      var front := blocks[..|blocks| - 1];
      StatusStep(r, front, StatusOf(r, front), blocks[|blocks| - 1])
  }

  lemma {:induction false} FinalStays(r: Reader, blocks: seq<Block>, n: nat)
    requires n <= |blocks| && StatusOf(r, blocks[..n]).final
    ensures StatusOf(r, blocks) == StatusOf(r, blocks[..n])
    decreases |blocks|
  {
    if n < |blocks| {
      assert blocks[..|blocks| - 1][..n] == blocks[..n];
      FinalStays(r, blocks[..|blocks| - 1], n);
    } else {
      assert blocks[..n] == blocks;
    }
  }

  method ObservedVerificationCommandStatus(r: Reader, blocks: seq<Block>) returns (command: string, failed: bool)
    ensures command == StatusOf(r, blocks).command && failed == StatusOf(r, blocks).failed
  {
    ghost var test := VerificationTest(r);
    var pending: map<string, Block> := map[];
    command, failed := "", false;
    for i := 0 to |blocks|
      invariant pending == Pending(blocks[..i], test)
      invariant StatusOf(r, blocks[..i]) == Status(command, failed, false)
    {
      assert blocks[..i + 1][..i] == blocks[..i];
      var block := blocks[i];
      if block.ToolUse? {
        if block.name != "bash" || !r.isVerification(CommandOf(r, block)) {
          continue;
        }
        command, failed := CommandOf(r, block), false;
        if block.id == "" {
          FinalStays(r, blocks, i + 1);
          return;
        }
        pending := pending[block.id := block];
      } else if block.ToolResult? {
        if block.useId !in pending {
          continue;
        }
        command, failed := CommandOf(r, pending[block.useId]), block.isError;
        pending := pending - {block.useId};
      }
    }
    assert blocks[..|blocks|] == blocks;
  }

  // Block i is a verification event about the command: a verification use, or the result of one.
  ghost predicate IsEvent(r: Reader, blocks: seq<Block>, i: int, command: string) {
    var test := VerificationTest(r);
    && 0 <= i < |blocks|
    && (|| (IsUse(blocks[i], test) && command == CommandOf(r, blocks[i]))
        || exists j :: Answers(blocks, test, j, i) && command == CommandOf(r, blocks[j]))
  }

  ghost predicate LastEvent(r: Reader, blocks: seq<Block>, i: int, command: string) {
    IsEvent(r, blocks, i, command) && forall k, c :: i < k < |blocks| ==> !IsEvent(r, blocks, k, c)
  }

  predicate AllHaveIds(r: Reader, blocks: seq<Block>) {
    forall i :: 0 <= i < |blocks| && IsUse(blocks[i], VerificationTest(r)) ==> UseId(blocks[i]) != ""
  }

  // The same in terms of what is pending.
  function EventCommand(r: Reader, front: seq<Block>, b: Block): Option<string> {
    var test := VerificationTest(r);
    if IsUse(b, test) then Some(CommandOf(r, b))
    else if b.ToolResult? && b.useId in Pending(front, test) then Some(CommandOf(r, Pending(front, test)[b.useId]))
    else None
  }

  lemma EventIsPending(r: Reader, blocks: seq<Block>, i: int, command: string)
    requires 0 <= i < |blocks|
    ensures IsEvent(r, blocks, i, command) <==> EventCommand(r, blocks[..i], blocks[i]) == Some(command)
  {
    var test := VerificationTest(r);
    if blocks[i].ToolResult? {
      var id := blocks[i].useId;
      PendingIsOpen(blocks[..i], test, id);
      if id in Pending(blocks[..i], test) {
        var j :| Open(blocks[..i], test, j) && UseId(blocks[..i][j]) == id;
        assert Answers(blocks, test, j, i);
      }
      forall j | Answers(blocks, test, j, i)
        ensures id in Pending(blocks[..i], test) && Pending(blocks[..i], test)[id] == blocks[j]
      {
        assert Open(blocks[..i], test, j) && UseId(blocks[..i][j]) == id;
      }
    }
  }

  lemma {:induction false} QuietTail(r: Reader, blocks: seq<Block>, n: nat)
    requires AllHaveIds(r, blocks) && n <= |blocks|
    requires forall k :: n <= k < |blocks| ==> EventCommand(r, blocks[..k], blocks[k]).None?
    ensures StatusOf(r, blocks) == StatusOf(r, blocks[..n])
    decreases |blocks|
  {
    if n < |blocks| {
      var front := blocks[..|blocks| - 1];
      assert front[..n] == blocks[..n];
      assert forall k :: n <= k < |front| ==> front[..k] == blocks[..k] && front[k] == blocks[k];
      QuietTail(r, front, n);
    } else {
      assert blocks[..n] == blocks;
    }
  }

  lemma {:induction false} NeverFinal(r: Reader, blocks: seq<Block>)
    requires AllHaveIds(r, blocks)
    ensures !StatusOf(r, blocks).final
  {
    if blocks != [] {
      NeverFinal(r, blocks[..|blocks| - 1]);
    }
  }

  // When every verification use has an id, the scan reports the command of the last
  // verification event, and failure exactly when that event is an error result.
  lemma StatusIsLastEvent(r: Reader, blocks: seq<Block>, i: int, command: string)
    requires AllHaveIds(r, blocks) && LastEvent(r, blocks, i, command)
    ensures StatusOf(r, blocks) == Status(command, blocks[i].ToolResult? && blocks[i].isError, false)
  {
    forall k | i < k < |blocks| ensures EventCommand(r, blocks[..k], blocks[k]).None? {
      if EventCommand(r, blocks[..k], blocks[k]).Some? {
        EventIsPending(r, blocks, k, EventCommand(r, blocks[..k], blocks[k]).value);
      }
    }
    QuietTail(r, blocks, i + 1);
    var next := blocks[..i + 1];
    assert next[..i] == blocks[..i] && next[i] == blocks[i];
    NeverFinal(r, blocks[..i]);
    EventIsPending(r, blocks, i, command);
    assert StatusOf(r, next) == StatusStep(r, blocks[..i], StatusOf(r, blocks[..i]), blocks[i]);
  }

  // Without any verification event it reports nothing.
  lemma NoEventNoStatus(r: Reader, blocks: seq<Block>)
    requires AllHaveIds(r, blocks) && forall i, c :: !IsEvent(r, blocks, i, c)
    ensures StatusOf(r, blocks) == Status("", false, false)
  {
    forall k | 0 <= k < |blocks| ensures EventCommand(r, blocks[..k], blocks[k]).None? {
      if EventCommand(r, blocks[..k], blocks[k]).Some? {
        EventIsPending(r, blocks, k, EventCommand(r, blocks[..k], blocks[k]).value);
      }
    }
    QuietTail(r, blocks, 0);
  }

  // A scan that reports no command has met no event, provided the empty text is no verification
  // command.
  lemma {:induction false} SilentScan(r: Reader, blocks: seq<Block>)
    requires !r.isVerification("") && StatusOf(r, blocks).command == ""
    ensures StatusOf(r, blocks) == Status("", false, false)
    ensures forall k :: 0 <= k < |blocks| ==> EventCommand(r, blocks[..k], blocks[k]).None?
  {
    if blocks != [] {
      var front, last := blocks[..|blocks| - 1], blocks[|blocks| - 1];
      if last.ToolResult? && last.useId in Pending(front, VerificationTest(r)) {
        PendingIsOpen(front, VerificationTest(r), last.useId);
      }
      SilentScan(r, front);
      assert forall k :: 0 <= k < |front| ==> front[..k] == blocks[..k] && front[k] == blocks[k];
    }
  }

  lemma FirstWithoutId(r: Reader, blocks: seq<Block>) returns (i: nat)
    requires !AllHaveIds(r, blocks)
    ensures i < |blocks| && AllHaveIds(r, blocks[..i])
    ensures IsUse(blocks[i], VerificationTest(r)) && blocks[i].id == ""
  {
    var k :| 0 <= k < |blocks| && IsUse(blocks[k], VerificationTest(r)) && UseId(blocks[k]) == "";
    if AllHaveIds(r, blocks[..k]) {
      i := k;
    } else {
      i := FirstWithoutId(r, blocks[..k]);
      assert blocks[..k][..i] == blocks[..i];
    }
  }

  ghost predicate NothingVerified(r: Reader, blocks: seq<Block>) {
    forall i, c :: !IsEvent(r, blocks, i, c)
  }

  lemma VerificationUse(r: Reader, b: Block)
    ensures IsUse(b, VerificationTest(r)) <==>
      b.ToolUse? && b.name == "bash" && r.isVerification(TrimSpace(r.command(b.input)))
  {
    if b.ToolUse? {
      assert CommandOf(r, b) == TrimSpace(r.command(b.input));
    }
  }

  // It reports a command exactly when there is a verification event: a bash call that runs a
  // verification command, or the result of one.
  lemma ReportsExactly(r: Reader, blocks: seq<Block>)
    requires !r.isVerification("")
    ensures StatusOf(r, blocks).command == "" <==> NothingVerified(r, blocks)
    ensures forall b :: IsUse(b, VerificationTest(r)) <==>
      b.ToolUse? && b.name == "bash" && r.isVerification(TrimSpace(r.command(b.input)))
  {
    forall b: Block ensures IsUse(b, VerificationTest(r)) <==>
      b.ToolUse? && b.name == "bash" && r.isVerification(TrimSpace(r.command(b.input)))
    {
      VerificationUse(r, b);
    }
    if StatusOf(r, blocks).command == "" {
      SilentScan(r, blocks);
      forall i, c ensures !IsEvent(r, blocks, i, c) {
        if 0 <= i < |blocks| {
          EventIsPending(r, blocks, i, c);
        }
      }
    } else if !AllHaveIds(r, blocks) {
      var i := FirstWithoutId(r, blocks);
      assert IsEvent(r, blocks, i, CommandOf(r, blocks[i]));
    } else if forall i, c :: !IsEvent(r, blocks, i, c) {
      NoEventNoStatus(r, blocks);
    }
  }

  lemma LastOfEvents(r: Reader, blocks: seq<Block>, i: int, command: string) returns (j: int, c: string)
    requires IsEvent(r, blocks, i, command)
    ensures LastEvent(r, blocks, j, c)
    decreases |blocks| - i
  {
    if LastEvent(r, blocks, i, command) {
      j, c := i, command;
    } else {
      var k, d :| i < k < |blocks| && IsEvent(r, blocks, k, d);
      j, c := LastOfEvents(r, blocks, k, d);
    }
  }

  ghost predicate LastVerificationFailed(r: Reader, blocks: seq<Block>) {
    && AllHaveIds(r, blocks)
    && exists i, c :: LastEvent(r, blocks, i, c) && blocks[i].ToolResult? && blocks[i].isError
  }

  // It reports failure exactly when every verification use has an id and the last verification
  // event is an error result.
  lemma FailsExactly(r: Reader, blocks: seq<Block>)
    ensures StatusOf(r, blocks).failed <==> LastVerificationFailed(r, blocks)
  {
    if AllHaveIds(r, blocks) {
      forall i, c | LastEvent(r, blocks, i, c)
        ensures StatusOf(r, blocks).failed <==> blocks[i].ToolResult? && blocks[i].isError
      {
        StatusIsLastEvent(r, blocks, i, c);
      }
      if exists i, c :: IsEvent(r, blocks, i, c) {
        var i, c :| IsEvent(r, blocks, i, c);
        var j, d := LastOfEvents(r, blocks, i, c);
      } else {
        NoEventNoStatus(r, blocks);
      }
    } else {
      var i := FirstWithoutId(r, blocks);
      UseWithoutIdEndsScan(r, blocks, i);
    }
  }

  // The first verification use without an id ends the scan with its command, not failed.
  lemma UseWithoutIdEndsScan(r: Reader, blocks: seq<Block>, i: nat)
    requires i < |blocks| && AllHaveIds(r, blocks[..i])
    requires IsUse(blocks[i], VerificationTest(r)) && blocks[i].id == ""
    ensures StatusOf(r, blocks) == Status(CommandOf(r, blocks[i]), false, true)
  {
    var next := blocks[..i + 1];
    assert next[..i] == blocks[..i] && next[i] == blocks[i];
    NeverFinal(r, blocks[..i]);
    assert StatusOf(r, next) == StatusStep(r, blocks[..i], StatusOf(r, blocks[..i]), blocks[i]);
    FinalStays(r, blocks, i + 1);
  }

  // ---- Mutations ---------------------------------------------------------------------------

  predicate WritesFile(name: string) {
    name == "write_file" || name == "edit_file"
  }

  // mutatingToolUseObserved
  function MutationTest(r: Reader): UseTest {
    (b: Block) => b.ToolUse?
      && (WritesFile(b.name) || b.name == "wiki_write" || r.looksMutating(b.name, b.input))
  }

  // mutatingToolUsePaths
  function PathsOf(r: Reader, b: Block): seq<string> {
    if !b.ToolUse? || !WritesFile(b.name) then []
    else
      match r.filePayload(b.input)
      case None => []
      case Some(payload) =>
        if payload.filePath != "" then [payload.filePath]
        else if payload.path != "" then [payload.path]
        else []
  }

  function PathTest(r: Reader): UseTest {
    (b: Block) => PathsOf(r, b) != []
  }

  predicate Succeeded(r: Reader, b: Block) {
    b.ToolResult? && !b.isError && !r.looksNoop(b.content)
  }

  // Block b, after front, shows that a use of interest took effect: a use without an id, or a
  // result that is neither an error nor a no-op.
  function Shown(r: Reader, front: seq<Block>, b: Block, test: UseTest): Option<Block> {
    if IsUse(b, test) && b.id == "" then Some(b)
    else if Succeeded(r, b) && b.useId in Pending(front, test) then Some(Pending(front, test)[b.useId])
    else None
  }

  predicate MutationObserved(r: Reader, blocks: seq<Block>) {
    blocks != [] && (MutationObserved(r, blocks[..|blocks| - 1])
                     || Shown(r, blocks[..|blocks| - 1], blocks[|blocks| - 1], MutationTest(r)).Some?)
  }

  // The normalised paths block b, after front, shows to be written.
  function WrittenPaths(r: Reader, front: seq<Block>, b: Block): set<string> {
    var shown := Shown(r, front, b, PathTest(r));
    if shown.Some? then NormalSet(PathsOf(r, shown.value)) else {}
  }

  type Contribution = (seq<Block>, Block) -> set<string>

  // What every block adds, given the blocks before it.
  function Gathered(blocks: seq<Block>, adds: Contribution): set<string> {
    if blocks == [] then {}
    else
      var front := blocks[..|blocks| - 1];
      Gathered(front, adds) + adds(front, blocks[|blocks| - 1])
  }

  function Writes(r: Reader): Contribution {
    (front: seq<Block>, b: Block) => WrittenPaths(r, front, b)
  }

  function MutatedSet(r: Reader, blocks: seq<Block>): set<string> {
    Gathered(blocks, Writes(r))
  }

  lemma {:induction false} ObservedStays(r: Reader, blocks: seq<Block>, n: nat)
    requires n <= |blocks| && MutationObserved(r, blocks[..n])
    ensures MutationObserved(r, blocks)
    decreases |blocks|
  {
    if n < |blocks| {
      assert blocks[..|blocks| - 1][..n] == blocks[..n];
      ObservedStays(r, blocks[..|blocks| - 1], n);
    } else {
      assert blocks[..n] == blocks;
    }
  }

  method MutationObservedInMessages(r: Reader, blocks: seq<Block>) returns (observed: bool)
    ensures observed == MutationObserved(r, blocks)
  {
    ghost var test := MutationTest(r);
    var ids: set<string> := {};
    for i := 0 to |blocks|
      invariant ids == Pending(blocks[..i], test).Keys
      invariant !MutationObserved(r, blocks[..i])
    {
      assert blocks[..i + 1][..i] == blocks[..i];
      var block := blocks[i];
      if block.ToolUse? {
        if !MutationTest(r)(block) {
          continue;
        }
        if block.id == "" {
          ObservedStays(r, blocks, i + 1);
          return true;
        }
        ids := ids + {block.id};
      } else if block.ToolResult? {
        if block.useId !in ids {
          continue;
        }
        if !block.isError && !r.looksNoop(block.content) {
          ObservedStays(r, blocks, i + 1);
          return true;
        }
        ids := ids - {block.useId};
      }
    }
    assert blocks[..|blocks|] == blocks;
    observed := false;
  }

  // What one block adds to the seen paths.
  method PathsWritten(r: Reader, pending: map<string, Block>, block: Block, ghost front: seq<Block>)
    returns (written: set<string>)
    requires pending == Pending(front, PathTest(r))
    ensures written == WrittenPaths(r, front, block)
  {
    written := {};
    if block.ToolUse? {
      if PathsOf(r, block) != [] && block.id == "" {
        written := CollectNormal(PathsOf(r, block));
      }
    } else if block.ToolResult? && block.useId in pending {
      if !block.isError && !r.looksNoop(block.content) {
        written := CollectNormal(PathsOf(r, pending[block.useId]));
      }
    }
  }

  method ObservedMutatingPaths(r: Reader, blocks: seq<Block>) returns (out: seq<string>)
    ensures Ordering.StrictlySorted(out) && forall y :: y in out <==> y in MutatedSet(r, blocks)
  {
    ghost var test := PathTest(r);
    var pending: map<string, Block> := map[];
    var seen: set<string> := {};
    for i := 0 to |blocks|
      invariant pending == Pending(blocks[..i], test)
      invariant seen == MutatedSet(r, blocks[..i])
    {
      assert blocks[..i + 1][..i] == blocks[..i];
      var written := PathsWritten(r, pending, blocks[i], blocks[..i]);
      seen := seen + written;
      if blocks[i].ToolUse? {
        if PathsOf(r, blocks[i]) == [] {
          continue;
        }
        if blocks[i].id == "" {
          continue;
        }
        pending := pending[blocks[i].id := blocks[i]];
      } else if blocks[i].ToolResult? {
        pending := pending - {blocks[i].useId};
      }
    }
    assert blocks[..|blocks|] == blocks;
    out := ListSorted(seen);
  }

  // ---- The two mutation scans agree --------------------------------------------------------

  lemma {:induction false} StrongerTestPendsLess(blocks: seq<Block>, p: UseTest, q: UseTest)
    requires forall b :: IsUse(b, p) ==> IsUse(b, q)
    ensures Pending(blocks, p).Keys <= Pending(blocks, q).Keys
  {
    if blocks != [] {
      StrongerTestPendsLess(blocks[..|blocks| - 1], p, q);
    }
  }

  // The yes/no scan simulates the path scan: a mutated path is never seen unseen.
  lemma {:induction false} PathsMeanObserved(r: Reader, blocks: seq<Block>)
    ensures MutatedSet(r, blocks) != {} ==> MutationObserved(r, blocks)
  {
    if blocks != [] {
      var front := blocks[..|blocks| - 1];
      PathsMeanObserved(r, front);
      assert forall b :: IsUse(b, PathTest(r)) ==> IsUse(b, MutationTest(r));
      StrongerTestPendsLess(front, PathTest(r), MutationTest(r));
    }
  }

  // A use shown to have taken effect at block i: one without an id, or one whose result is neither
  // an error nor a no-op.
  predicate TookEffect(r: Reader, blocks: seq<Block>, test: UseTest, j: int, i: int) {
    || (i == j && 0 <= j < |blocks| && IsUse(blocks[j], test) && UseId(blocks[j]) == "")
    || (Answers(blocks, test, j, i) && !blocks[i].isError && !r.looksNoop(blocks[i].content))
  }

  lemma ShownTookEffect(r: Reader, blocks: seq<Block>, test: UseTest, i: int)
    requires 0 <= i < |blocks|
    ensures Shown(r, blocks[..i], blocks[i], test).Some? <==> exists j :: TookEffect(r, blocks, test, j, i)
    ensures forall j :: TookEffect(r, blocks, test, j, i) ==> Shown(r, blocks[..i], blocks[i], test) == Some(blocks[j])
  {
    var front := blocks[..i];
    if IsUse(blocks[i], test) && blocks[i].id == "" {
      assert TookEffect(r, blocks, test, i, i);
    } else if blocks[i].ToolResult? {
      var id := blocks[i].useId;
      PendingIsOpen(front, test, id);
      if id in Pending(front, test) && Succeeded(r, blocks[i]) {
        var j :| Open(front, test, j) && UseId(front[j]) == id;
        assert TookEffect(r, blocks, test, j, i);
      }
      forall j | TookEffect(r, blocks, test, j, i) ensures Shown(r, front, blocks[i], test) == Some(blocks[j]) {
        assert Open(front, test, j) && UseId(front[j]) == id;
      }
    }
  }

  lemma {:induction false} ObservedAt(r: Reader, blocks: seq<Block>)
    ensures MutationObserved(r, blocks) <==>
      exists i :: 0 <= i < |blocks| && Shown(r, blocks[..i], blocks[i], MutationTest(r)).Some?
  {
    if blocks != [] {
      var front := blocks[..|blocks| - 1];
      ObservedAt(r, front);
      assert forall i :: 0 <= i < |front| ==> front[..i] == blocks[..i] && front[i] == blocks[i];
    }
  }

  ghost predicate SomethingChanged(r: Reader, blocks: seq<Block>) {
    exists j, i :: TookEffect(r, blocks, MutationTest(r), j, i)
  }

  lemma MutatingUse(r: Reader, b: Block)
    ensures IsUse(b, MutationTest(r)) <==>
      b.ToolUse? && (b.name == "write_file" || b.name == "edit_file" || b.name == "wiki_write"
                     || r.looksMutating(b.name, b.input))
  {
    if b.ToolUse? {
      assert MutationTest(r)(b) <==> WritesFile(b.name) || b.name == "wiki_write" || r.looksMutating(b.name, b.input);
      assert WritesFile(b.name) <==> b.name == "write_file" || b.name == "edit_file";
    }
  }

  // A mutation is observed exactly when some mutating use took effect: one of the three writing
  // tools, or a call that looks like it.
  lemma ObservedMeansEffect(r: Reader, blocks: seq<Block>)
    ensures MutationObserved(r, blocks) <==> SomethingChanged(r, blocks)
    ensures forall b :: IsUse(b, MutationTest(r)) <==>
      b.ToolUse? && (b.name == "write_file" || b.name == "edit_file" || b.name == "wiki_write"
                     || r.looksMutating(b.name, b.input))
  {
    ObservedAt(r, blocks);
    var test := MutationTest(r);
    forall b: Block ensures IsUse(b, test) <==>
      b.ToolUse? && (b.name == "write_file" || b.name == "edit_file" || b.name == "wiki_write"
                     || r.looksMutating(b.name, b.input))
    {
      MutatingUse(r, b);
    }
    if MutationObserved(r, blocks) {
      var i :| 0 <= i < |blocks| && Shown(r, blocks[..i], blocks[i], test).Some?;
      ShownTookEffect(r, blocks, test, i);
      var j :| TookEffect(r, blocks, test, j, i);
    }
    forall j, i | TookEffect(r, blocks, test, j, i) ensures MutationObserved(r, blocks) {
      ShownTookEffect(r, blocks, test, i);
    }
  }

  lemma {:induction false} GatheredAt(blocks: seq<Block>, adds: Contribution, y: string)
    ensures y in Gathered(blocks, adds) <==> exists i :: 0 <= i < |blocks| && y in adds(blocks[..i], blocks[i])
  {
    if blocks != [] {
      var n := |blocks| - 1;
      var front := blocks[..n];
      GatheredAt(front, adds, y);
      assert forall i :: 0 <= i < n ==> front[..i] == blocks[..i] && front[i] == blocks[i];
      assert y in adds(front, blocks[n]) ==> y in adds(blocks[..n], blocks[n]);
    }
  }

  // b writes a file that it names, in the first of the two fields that is not empty.
  predicate WritesNamedFile(r: Reader, b: Block) {
    && b.ToolUse? && (b.name == "write_file" || b.name == "edit_file") && r.filePayload(b.input).Some?
    && (r.filePayload(b.input).value.filePath != "" || r.filePayload(b.input).value.path != "")
  }

  function NamedFile(r: Reader, b: Block): string
    requires WritesNamedFile(r, b)
  {
    var payload := r.filePayload(b.input).value;
    if payload.filePath == "" then payload.path else payload.filePath
  }

  lemma WritesAre(r: Reader, b: Block)
    ensures IsUse(b, PathTest(r)) <==> WritesNamedFile(r, b)
    ensures IsUse(b, PathTest(r)) ==> PathsOf(r, b) == [NamedFile(r, b)]
    ensures IsUse(b, PathTest(r)) ==> forall y :: y in NormalSet(PathsOf(r, b)) <==>
      y != "" && y == NormalizeScopePath(NamedFile(r, b))
  {
    if IsUse(b, PathTest(r)) {
      var name := NamedFile(r, b);
      assert [name][0] == name;
      ImagesOfConcat([], [name], NormalizeScopePath);
    }
  }

  // The path scan lists exactly the normal forms of the files written by uses that took effect.
  lemma MutatedMeansEffect(r: Reader, blocks: seq<Block>, y: string)
    ensures y in MutatedSet(r, blocks) <==>
      exists j, i :: TookEffect(r, blocks, PathTest(r), j, i) && WritesNamedFile(r, blocks[j])
                     && y != "" && y == NormalizeScopePath(NamedFile(r, blocks[j]))
    ensures forall b :: IsUse(b, PathTest(r)) <==> WritesNamedFile(r, b)
  {
    GatheredAt(blocks, Writes(r), y);
    var test := PathTest(r);
    forall b ensures IsUse(b, test) <==> WritesNamedFile(r, b) {
      WritesAre(r, b);
    }
    if y in MutatedSet(r, blocks) {
      var i :| 0 <= i < |blocks| && y in Writes(r)(blocks[..i], blocks[i]);
      ShownTookEffect(r, blocks, test, i);
      var j :| TookEffect(r, blocks, test, j, i);
      WritesAre(r, blocks[j]);
    }
    forall j, i | TookEffect(r, blocks, test, j, i) && WritesNamedFile(r, blocks[j])
                  && y != "" && y == NormalizeScopePath(NamedFile(r, blocks[j]))
      ensures y in MutatedSet(r, blocks)
    {
      WritesAre(r, blocks[j]);
      ShownTookEffect(r, blocks, test, i);
      assert y in Writes(r)(blocks[..i], blocks[i]);
    }
  }
}
