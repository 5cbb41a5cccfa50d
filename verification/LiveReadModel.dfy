/**
 The live part of the ongoing transcript: the tools that have started and not finished, kept as a list
 with an index from tool call to list position.
 */
module LiveReadModel {
  import opened Prelude

  /** Closing a tool without an identity is a programming error, so closing identities are never empty. */
  type ToolCallId = s: string | s != "" witness "tool"

  datatype ToolStart = ToolStart(toolCallId: string, title: string)

  datatype PendingTool = PendingTool(id: string, tool: ToolStart)

  // ---- The list operations ----

  ghost function Ids(tools: seq<PendingTool>): (ids: set<string>) {
    set i | 0 <= i < |tools| :: tools[i].id
  }

  ghost predicate Distinct(tools: seq<PendingTool>) {
    forall i, j :: 0 <= i < j < |tools| ==> tools[i].id != tools[j].id
  }

  /** Where a tool is listed, or the length of the list. */
  function Position(tools: seq<PendingTool>, id: string): (p: nat)
    ensures p <= |tools|
    ensures forall i :: 0 <= i < p ==> tools[i].id != id
    ensures p < |tools| ==> tools[p].id == id
  {
    if tools == [] || tools[0].id == id then 0 else 1 + Position(tools[1..], id)
  }

  function AddTool(tools: seq<PendingTool>, tool: ToolStart): (r: seq<PendingTool>)
    ensures Distinct(tools) ==> Distinct(r)
  {
    var id := TrimSpace(tool.toolCallId);
    var p := Position(tools, id);
    if p < |tools| then tools[p := PendingTool(id, tool)] else tools + [PendingTool(id, tool)]
  }

  function RemoveTool(tools: seq<PendingTool>, id: string): (r: seq<PendingTool>)
    ensures Distinct(tools) ==> Distinct(r) && forall i :: 0 <= i < |r| ==> r[i].id != id
  {
    var p := Position(tools, id);
    if p < |tools| then Without(tools, p) else tools
  }

  // ---- The event log the list stands for ----

  datatype LiveEvent = Opened(tool: ToolStart) | Closed(id: ToolCallId) | Cleared

  function Key(e: LiveEvent): (k: string)
    requires e.Opened?
  {
    TrimSpace(e.tool.toolCallId)
  }

  /** The list after replaying a log, one operation per event. */
  function Replay(log: seq<LiveEvent>): (tools: seq<PendingTool>)
    ensures Distinct(tools)
  {
    if log == [] then []
    else
      var before := Replay(log[..|log| - 1]);
      match log[|log| - 1]
      case Opened(tool) => AddTool(before, tool)
      case Closed(id) => RemoveTool(before, id)
      case Cleared => []
  }

  /** The start at position i is still in force at the end of the log. */
  ghost predicate InForce(log: seq<LiveEvent>, i: nat) {
    && i < |log|
    && log[i].Opened?
    && forall j :: i < j < |log| ==> !log[j].Cleared? && (log[j].Closed? ==> log[j].id != Key(log[i]))
  }

  /** Position i is the start that put its tool on the list: in force, and the first such start of that tool. */
  ghost predicate Opens(log: seq<LiveEvent>, i: nat) {
    && InForce(log, i)
    && forall j :: 0 <= j < i && log[j].Opened? && Key(log[j]) == Key(log[i]) ==> !InForce(log, j)
  }

  /** The most recent start of a tool. */
  ghost predicate Latest(log: seq<LiveEvent>, i: nat, tool: ToolStart)
    requires i < |log| && log[i].Opened?
  {
    exists n :: i <= n < |log| && log[n] == Opened(tool) && Key(log[n]) == Key(log[i])
      && forall j :: n < j < |log| && log[j].Opened? ==> Key(log[j]) != Key(log[i])
  }

  /** A list entry shows the most recent description of the tool opened at position i. */
  ghost predicate Shows(entry: PendingTool, log: seq<LiveEvent>, i: nat) {
    Opens(log, i) && entry.id == Key(log[i]) && Latest(log, i, entry.tool)
  }

  /**
   `at` gives, for each listed tool, the event that opened it: the list is in opening order, shows the most recent
   description of each tool, and leaves out no tool that is still open.
   */
  ghost predicate Reflects(tools: seq<PendingTool>, log: seq<LiveEvent>, at: seq<nat>) {
    && |at| == |tools|
    && (forall n :: 0 <= n < |at| ==> Shows(tools[n], log, at[n]))
    && (forall m, n :: 0 <= m < n < |at| ==> at[m] < at[n])
    && Complete(log, at)
  }

  ghost predicate Complete(log: seq<LiveEvent>, at: seq<nat>) {
    forall i: nat :: Opens(log, i) ==> i in at
  }

  /** The replayed list is exactly the tools started and not since closed, in the order they opened. */
  lemma {:induction false} ListReflectsLog(log: seq<LiveEvent>) returns (at: seq<nat>)
    ensures Reflects(Replay(log), log, at)
  {
    if log == [] {
      at := [];
    } else {
      var front, last := log[..|log| - 1], log[|log| - 1];
      assert log == front + [last];
      var before := ListReflectsLog(front);
      match last
      case Cleared => at := [];
      case Closed(id) => at := CloseStep(Replay(front), front, id, before);
      case Opened(tool) => at := OpenStep(Replay(front), front, tool, before);
    }
  }

  lemma {:induction false} CloseStep(tools: seq<PendingTool>, front: seq<LiveEvent>, id: ToolCallId, before: seq<nat>)
    returns (at: seq<nat>)
    requires Distinct(tools) && Reflects(tools, front, before)
    ensures Reflects(RemoveTool(tools, id), front + [Closed(id)], at)
  {
    var p := Position(tools, id);
    at := if p < |tools| then Without(before, p) else before;
    forall n | 0 <= n < |at| ensures Shows(RemoveTool(tools, id)[n], front + [Closed(id)], at[n]) {
      ShownInRemoved(tools, front, id, before, n);
    }
    CompleteAfterClose(tools, front, id, before);
  }

  lemma ShownInRemoved(tools: seq<PendingTool>, front: seq<LiveEvent>, id: ToolCallId, before: seq<nat>, n: nat)
    requires Distinct(tools) && |before| == |tools| && n < |RemoveTool(tools, id)|
    requires forall m :: 0 <= m < |tools| ==> Shows(tools[m], front, before[m])
    ensures var p := Position(tools, id);
            Shows(RemoveTool(tools, id)[n], front + [Closed(id)], (if p < |tools| then Without(before, p) else before)[n])
  {
    var p := Position(tools, id);
    var b := if n < p then n else n + 1;
    assert RemoveTool(tools, id)[n] == tools[b] && tools[b].id != id;
    ShownAfterClose(tools[b], front, id, before[b]);
  }

  lemma CompleteAfterClose(tools: seq<PendingTool>, front: seq<LiveEvent>, id: ToolCallId, before: seq<nat>)
    requires Distinct(tools) && Reflects(tools, front, before)
    ensures var p := Position(tools, id);
            Complete(front + [Closed(id)], if p < |tools| then Without(before, p) else before)
  {
    var p := Position(tools, id);
    var at := if p < |tools| then Without(before, p) else before;
    forall i: nat | Opens(front + [Closed(id)], i) ensures i in at {
      OpensAfterClose(front, id, i);
      var b :| 0 <= b < |before| && before[b] == i;
      assert Shows(tools[b], front, before[b]);
      if b < p {
        assert at[b] == i;
      } else {
        assert at[b - 1] == i;
      }
    }
  }

  lemma OpensAfterClose(front: seq<LiveEvent>, id: ToolCallId, i: nat)
    ensures Opens(front + [Closed(id)], i) <==> Opens(front, i) && Key(front[i]) != id
  {
    InForceExtends(front, Closed(id));
    var log := front + [Closed(id)];
    if i < |front| {
      assert forall j :: 0 <= j <= i ==> log[j] == front[j];
    }
  }

  lemma ShownAfterClose(entry: PendingTool, front: seq<LiveEvent>, id: ToolCallId, i: nat)
    requires Shows(entry, front, i) && entry.id != id
    ensures Shows(entry, front + [Closed(id)], i)
  {
    OpensAfterClose(front, id, i);
    LatestExtends(front, Closed(id), i, entry.tool);
  }

  /** A tool is listed exactly when some start of it is in force. */
  lemma ListedIffInForce(tools: seq<PendingTool>, log: seq<LiveEvent>, at: seq<nat>, key: string)
    requires Reflects(tools, log, at)
    ensures Position(tools, key) < |tools| <==>
            exists j :: 0 <= j < |log| && log[j].Opened? && Key(log[j]) == key && InForce(log, j)
  {
    var p := Position(tools, key);
    if p < |tools| {
      assert Shows(tools[p], log, at[p]);
    }
    if j :| 0 <= j < |log| && log[j].Opened? && Key(log[j]) == key && InForce(log, j) {
      var first := FirstInForce(log, j);
      var n :| 0 <= n < |at| && at[n] == first;
      assert Shows(tools[n], log, at[n]);
    }
  }

  lemma OpensAfterOpen(front: seq<LiveEvent>, tool: ToolStart, i: nat)
    ensures i < |front| ==> (Opens(front + [Opened(tool)], i) <==> Opens(front, i))
    ensures i == |front| ==>
              (Opens(front + [Opened(tool)], i) <==>
               !exists j :: 0 <= j < |front| && front[j].Opened? && Key(front[j]) == TrimSpace(tool.toolCallId) && InForce(front, j))
  {
    InForceExtends(front, Opened(tool));
    var log := front + [Opened(tool)];
    assert forall j :: 0 <= j < |front| ==> log[j] == front[j];
    assert log[|front|] == Opened(tool);
  }

  lemma ShownAfterOpen(entry: PendingTool, front: seq<LiveEvent>, tool: ToolStart, i: nat)
    requires Shows(entry, front, i)
    ensures entry.id != TrimSpace(tool.toolCallId) ==> Shows(entry, front + [Opened(tool)], i)
    ensures entry.id == TrimSpace(tool.toolCallId) ==> Shows(PendingTool(entry.id, tool), front + [Opened(tool)], i)
  {
    var log := front + [Opened(tool)];
    OpensAfterOpen(front, tool, i);
    assert log[i] == front[i] && log[|front|] == Opened(tool);
    if entry.id != TrimSpace(tool.toolCallId) {
      LatestExtends(front, Opened(tool), i, entry.tool);
    }
  }

  lemma {:induction false} OpenStep(tools: seq<PendingTool>, front: seq<LiveEvent>, tool: ToolStart, before: seq<nat>)
    returns (at: seq<nat>)
    requires Distinct(tools) && Reflects(tools, front, before)
    ensures Reflects(AddTool(tools, tool), front + [Opened(tool)], at)
  {
    var p := Position(tools, TrimSpace(tool.toolCallId));
    at := if p < |tools| then before else before + [|front|];
    forall n | 0 <= n < |at| ensures Shows(AddTool(tools, tool)[n], front + [Opened(tool)], at[n]) {
      ShownInAdded(tools, front, tool, before, n);
    }
    assert forall m :: 0 <= m < |tools| ==> Shows(tools[m], front, before[m]);
    CompleteAfterOpen(tools, front, tool, before);
  }

  lemma ShownInAdded(tools: seq<PendingTool>, front: seq<LiveEvent>, tool: ToolStart, before: seq<nat>, n: nat)
    requires Distinct(tools) && Reflects(tools, front, before) && n < |AddTool(tools, tool)|
    ensures Shows(AddTool(tools, tool)[n], front + [Opened(tool)], if n < |tools| then before[n] else |front|)
  {
    var log := front + [Opened(tool)];
    if n < |tools| {
      ShownAfterOpen(tools[n], front, tool, before[n]);
    } else {
      ListedIffInForce(tools, front, before, TrimSpace(tool.toolCallId));
      OpensAfterOpen(front, tool, |front|);
      assert log[|front|] == Opened(tool);
    }
  }

  lemma CompleteAfterOpen(tools: seq<PendingTool>, front: seq<LiveEvent>, tool: ToolStart, before: seq<nat>)
    requires Reflects(tools, front, before)
    ensures var listed := Position(tools, TrimSpace(tool.toolCallId)) < |tools|;
            Complete(front + [Opened(tool)], if listed then before else before + [|front|])
  {
    ListedIffInForce(tools, front, before, TrimSpace(tool.toolCallId));
    forall i: nat | Opens(front + [Opened(tool)], i) ensures i in before || i == |front| {
      OpensAfterOpen(front, tool, i);
    }
    OpensAfterOpen(front, tool, |front|);
  }

  /** Among the starts of one tool still in force there is an earliest one. */
  lemma {:induction false} FirstInForce(log: seq<LiveEvent>, i: nat) returns (first: nat)
    requires InForce(log, i)
    ensures Opens(log, first) && Key(log[first]) == Key(log[i])
    decreases i
  {
    if j: nat :| j < i && log[j].Opened? && Key(log[j]) == Key(log[i]) && InForce(log, j) {
      first := FirstInForce(log, j);
    } else {
      first := i;
    }
  }

  lemma InForceExtends(front: seq<LiveEvent>, e: LiveEvent)
    ensures forall i: nat :: i < |front| ==>
              (InForce(front + [e], i) <==> InForce(front, i) && !e.Cleared? && (e.Closed? ==> e.id != Key(front[i])))
  {
    var log := front + [e];
    forall i: nat | i < |front|
      ensures InForce(log, i) <==> InForce(front, i) && !e.Cleared? && (e.Closed? ==> e.id != Key(front[i]))
    {
      if InForce(log, i) {
        assert log[|front|] == e;
        assert forall j :: i < j < |front| ==> log[j] == front[j];
      }
    }
  }

  lemma LatestExtends(front: seq<LiveEvent>, e: LiveEvent, i: nat, tool: ToolStart)
    requires i < |front| && front[i].Opened? && Latest(front, i, tool)
    requires e.Opened? ==> Key(e) != Key(front[i])
    ensures Latest(front + [e], i, tool)
  {
    var log := front + [e];
    var n :| i <= n < |front| && front[n] == Opened(tool) && Key(front[n]) == Key(front[i])
      && forall j :: n < j < |front| && front[j].Opened? ==> Key(front[j]) != Key(front[i]);
    assert log[n] == front[n] && log[i] == front[i];
  }

  /** A start registers the trimmed identity, but an abort removes the identity it is given as it stands. */
  lemma AbortClosesItsTool(tools: seq<PendingTool>, tool: ToolStart)
    requires Distinct(tools) && tool.toolCallId != ""
    ensures (TrimSpace(tool.toolCallId) in Ids(RemoveTool(AddTool(tools, tool), tool.toolCallId)))
            <==> !Trimmed(tool.toolCallId)
  {
    var id := TrimSpace(tool.toolCallId);
    var added := AddTool(tools, tool);
    var p := Position(added, id);
    assert p < |added| by {
      var q := Position(tools, id);
      assert added[q].id == id;
    }
    var r := RemoveTool(added, tool.toolCallId);
    if !Trimmed(tool.toolCallId) {
      var q := Position(added, tool.toolCallId);
      if q < |added| {
        assert r == added[..q] + added[q + 1..];
        assert if p < q then r[p].id == id else r[p - 1].id == id;
      } else {
        assert r[p].id == id;
      }
    }
  }

  // ---- The mutable read model ----

  /** The index is the exact inverse of the list. */
  ghost predicate Inverse(tools: seq<PendingTool>, index: map<string, nat>) {
    && Distinct(tools)
    && (forall i :: 0 <= i < |tools| ==> tools[i].id in index && index[tools[i].id] == i)
    && (forall id :: id in index ==> index[id] < |tools| && tools[index[id]].id == id)
  }

  /** Reindexing is done below `done`; from there on the index still holds the positions before the removal. */
  ghost predicate Reindexed(tools: seq<PendingTool>, index: map<string, nat>, done: nat) {
    && (forall i :: 0 <= i < |tools| ==> tools[i].id in index && index[tools[i].id] == if i < done then i else i + 1)
    && (forall id :: id in index ==> exists i :: 0 <= i < |tools| && tools[i].id == id)
  }

  lemma RemovalLeavesReindexing(tools: seq<PendingTool>, index: map<string, nat>, p: nat)
    requires Inverse(tools, index) && p < |tools|
    ensures Reindexed(Without(tools, p), index - {tools[p].id}, p)
  {
    var now := Without(tools, p);
    forall id | id in index && id != tools[p].id ensures exists i :: 0 <= i < |now| && now[i].id == id {
      var i := index[id];
      assert now[if i < p then i else i - 1] == tools[i];
    }
  }

  lemma RemovalKeepsDistinct(tools: seq<PendingTool>, p: nat)
    requires Distinct(tools) && p < |tools|
    ensures Distinct(Without(tools, p))
  {
  }

  lemma ReindexOne(tools: seq<PendingTool>, index: map<string, nat>, done: nat)
    requires Distinct(tools) && Reindexed(tools, index, done) && done < |tools|
    ensures Reindexed(tools, index[tools[done].id := done], done + 1)
  {
  }

  /** Moves the positions from `start` on down by one, after the entry that was at `start` is gone. */
  method Reindex(tools: seq<PendingTool>, index: map<string, nat>, start: nat) returns (moved: map<string, nat>)
    requires Distinct(tools) && Reindexed(tools, index, start) && start <= |tools|
    ensures Inverse(tools, moved)
  {
    moved := index;
    var shifted := start;
    while shifted < |tools|
      invariant shifted <= |tools| && Reindexed(tools, moved, shifted)
    {
      ReindexOne(tools, moved, shifted);
      moved := moved[tools[shifted].id := shifted];
      shifted := shifted + 1;
    }
    ReindexedIsInverse(tools, moved);
  }

  lemma ReindexedIsInverse(tools: seq<PendingTool>, index: map<string, nat>)
    requires Distinct(tools) && Reindexed(tools, index, |tools|)
    ensures Inverse(tools, index)
  {
    forall id | id in index ensures index[id] < |tools| && tools[index[id]].id == id {
      var i :| 0 <= i < |tools| && tools[i].id == id;
    }
  }

  class ReadModel {
    var pendingTools: seq<PendingTool>
    var pendingToolIndex: map<string, nat>

    ghost predicate Valid()
      reads this
    {
      Inverse(pendingTools, pendingToolIndex)
    }

    constructor ()
      ensures Valid() && pendingTools == []
    {
      pendingTools, pendingToolIndex := [], map[];
    }

    method Reset()
      modifies this
      ensures Valid() && pendingTools == []
    {
      pendingTools, pendingToolIndex := [], map[];
    }

    method AddPendingTool(tool: ToolStart)
      requires Valid()
      modifies this
      ensures Valid() && pendingTools == AddTool(old(pendingTools), tool)
    {
      var toolCallId := TrimSpace(tool.toolCallId);
      ghost var p := Position(pendingTools, toolCallId);
      if toolCallId in pendingToolIndex {
        var index := pendingToolIndex[toolCallId];
        assert index == p;
        pendingTools := pendingTools[index := PendingTool(toolCallId, tool)];
        return;
      }
      assert p == |pendingTools|;
      pendingToolIndex := pendingToolIndex[toolCallId := |pendingTools|];
      pendingTools := pendingTools + [PendingTool(toolCallId, tool)];
    }

    method RemovePendingTool(toolCallId: ToolCallId)
      requires Valid()
      modifies this
      ensures Valid() && pendingTools == RemoveTool(old(pendingTools), toolCallId)
    {
      ghost var p := Position(pendingTools, toolCallId);
      if toolCallId !in pendingToolIndex {
        return;
      }
      var index := pendingToolIndex[toolCallId];
      assert index == p;
      RemovalLeavesReindexing(pendingTools, pendingToolIndex, p);
      RemovalKeepsDistinct(pendingTools, p);
      pendingTools := Without(pendingTools, index);
      pendingToolIndex := Reindex(pendingTools, pendingToolIndex - {toolCallId}, index);
    }
  }
}
