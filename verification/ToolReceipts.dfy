// Receipts that tools return in their own output (observedDiagnosticDeltaReceipts,
// observedControlToolReceipts and their like, cmd/elnath/runtime_completion_observability.go):
// the scans remember the tool behind every id and read the results of the tools they know.
module ToolReceipts {
  import Lists
  import opened Transcript

  // What a scan reads from an output, given the tool's name.
  type ReadOutput<T> = (string, string) -> seq<T>

  // The tool behind each id: that of the last use with it.
  function Names(blocks: seq<Block>): map<string, string> {
    if blocks == [] then map[]
    else
      var names, last := Names(blocks[..|blocks| - 1]), blocks[|blocks| - 1];
      if last.ToolUse? && last.id != "" then names[last.id := last.name] else names
  }

  // Empty for an unknown id.
  function NameOf(names: map<string, string>, id: string): string {
    if id in names then names[id] else ""
  }

  function ReadIn<T>(front: seq<Block>, b: Block, read: ReadOutput<T>): seq<T> {
    if b.ToolResult? && !b.isError then read(NameOf(Names(front), b.useId), b.content) else []
  }

  function ReadResults<T>(blocks: seq<Block>, read: ReadOutput<T>): seq<T> {
    if blocks == [] then []
    else
      var front := blocks[..|blocks| - 1];
      ReadResults(front, read) + ReadIn(front, blocks[|blocks| - 1], read)
  }

  method ObserveToolResults<T>(blocks: seq<Block>, read: ReadOutput<T>) returns (found: seq<T>)
    ensures found == ReadResults(blocks, read)
  {
    var names: map<string, string> := map[];
    found := [];
    for i := 0 to |blocks|
      invariant names == Names(blocks[..i])
      invariant found == ReadResults(blocks[..i], read)
    {
      Lists.OneMore(blocks, i);
      var block := blocks[i];
      if block.ToolUse? {
        if block.id != "" {
          names := names[block.id := block.name];
        }
      } else if block.ToolResult? {
        if block.isError {
          continue;
        }
        found := found + read(NameOf(names, block.useId), block.content);
      }
    }
    assert blocks[..|blocks|] == blocks;
  }

  // ---- What is read ------------------------------------------------------------------------

  // The use at j is the last one with its id before block i.
  predicate NamesAt(blocks: seq<Block>, j: int, i: int, id: string) {
    && 0 <= j < i <= |blocks| && blocks[j].ToolUse? && blocks[j].id == id != ""
    && forall k :: j < k < i && blocks[k].ToolUse? ==> blocks[k].id != id
  }

  lemma {:induction false} NamesAreLast(blocks: seq<Block>, n: nat, id: string)
    requires n <= |blocks|
    ensures id in Names(blocks[..n]) <==> exists j :: NamesAt(blocks, j, n, id)
    ensures forall j :: NamesAt(blocks, j, n, id) ==>
      id in Names(blocks[..n]) && Names(blocks[..n])[id] == blocks[j].name
  {
    if n > 0 {
      NamesAreLast(blocks, n - 1, id);
      Lists.OneMore(blocks, n - 1);
      var last := blocks[n - 1];
      if last.ToolUse? && last.id == id != "" {
        assert NamesAt(blocks, n - 1, n, id);
      } else {
        forall j ensures NamesAt(blocks, j, n, id) <==> NamesAt(blocks, j, n - 1, id) {
        }
        if id in Names(blocks[..n - 1]) {
          var j :| NamesAt(blocks, j, n - 1, id);
          assert NamesAt(blocks, j, n, id);
        }
      }
    }
  }

  // Block i is a result without an error of the tool with this name.
  ghost predicate ResultOf(blocks: seq<Block>, i: int, name: string) {
    && 0 <= i < |blocks| && blocks[i].ToolResult? && !blocks[i].isError
    && if exists j :: NamesAt(blocks, j, i, blocks[i].useId)
       then exists j :: NamesAt(blocks, j, i, blocks[i].useId) && blocks[j].name == name
       else name == ""
  }

  lemma ResultHasName(blocks: seq<Block>, i: nat, name: string)
    requires i < |blocks| && blocks[i].ToolResult? && !blocks[i].isError
    ensures ResultOf(blocks, i, name) <==> name == NameOf(Names(blocks[..i]), blocks[i].useId)
  {
    NamesAreLast(blocks, i, blocks[i].useId);
  }

  lemma {:induction false} ReadSomewhere<T>(blocks: seq<Block>, read: ReadOutput<T>, n: nat, x: T)
    requires n <= |blocks|
    ensures x in ReadResults(blocks[..n], read) <==> exists i :: 0 <= i < n && x in ReadIn(blocks[..i], blocks[i], read)
  {
    if n > 0 {
      Lists.OneMore(blocks, n - 1);
      ReadSomewhere(blocks, read, n - 1, x);
    }
  }

  // A scan reads exactly what the results without an error hold, each under its tool's name.
  lemma ReadsResults<T>(blocks: seq<Block>, read: ReadOutput<T>, x: T)
    ensures x in ReadResults(blocks, read) <==>
      exists i, name :: ResultOf(blocks, i, name) && x in read(name, blocks[i].content)
  {
    assert blocks[..|blocks|] == blocks;
    ReadSomewhere(blocks, read, |blocks|, x);
    if x in ReadResults(blocks, read) {
      var i :| 0 <= i < |blocks| && x in ReadIn(blocks[..i], blocks[i], read);
      ResultHasName(blocks, i, NameOf(Names(blocks[..i]), blocks[i].useId));
    }
    forall i, name | ResultOf(blocks, i, name) && x in read(name, blocks[i].content)
      ensures x in ReadResults(blocks, read)
    {
      ResultHasName(blocks, i, name);
      assert x in ReadIn(blocks[..i], blocks[i], read);
    }
  }

  // They are read in order: every block adds what it holds behind what was read before it.
  lemma ReadsInOrder<T>(blocks: seq<Block>, read: ReadOutput<T>, i: nat)
    requires i < |blocks|
    ensures ReadResults(blocks[..i], read) <= ReadResults(blocks[..i + 1], read)
    ensures forall name :: ResultOf(blocks, i, name) ==>
      ReadResults(blocks[..i + 1], read) == ReadResults(blocks[..i], read) + read(name, blocks[i].content)
    ensures (forall name :: !ResultOf(blocks, i, name)) ==>
      ReadResults(blocks[..i + 1], read) == ReadResults(blocks[..i], read)
  {
    Lists.OneMore(blocks, i);
    if blocks[i].ToolResult? && !blocks[i].isError {
      ResultHasName(blocks, i, NameOf(Names(blocks[..i]), blocks[i].useId));
      forall name | ResultOf(blocks, i, name)
        ensures name == NameOf(Names(blocks[..i]), blocks[i].useId)
      {
        ResultHasName(blocks, i, name);
      }
    }
  }
}
