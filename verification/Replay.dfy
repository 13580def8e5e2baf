/** Importing an exported run under new ids: `replay/importer.py`.  New ids come from a supply of
    distinct ids that the packet does not use. */
module Replay {
  import opened Wrappers
  import opened Graphs
  import opened Lifecycle
  import opened Dependencies
  import opened Renaming

  datatype Dependency = Ref(id: Id) | NotAString(raw: int)

  /** A tool-call object; `id` is absent when it is missing or not a string. */
  datatype CallObject = CallObject(id: Option<Id>, call: ToolCall)

  datatype Provenance = Provenance(runId: Option<Id>, taskId: Option<Id>, toolCallId: Option<Id>)

  /** One entry of the task list; `task` holds the fields the import does not touch. */
  datatype Item =
    | NotAnObject(raw: int)
    | Object(
        taskId: Option<Id>,
        runId: Option<Id>,
        call: Option<CallObject>,
        dependsOn: Option<seq<Dependency>>,
        provenance: Option<Provenance>,
        task: Task)

  datatype ToolResult = NotAResult(raw: int) | ToolResult(toolCallId: Option<Id>, raw: int)

  /** Absent lists stand for values that are not lists. */
  datatype Packet = Packet(
    runId: Option<Id>, parentRunId: Option<Id>, tasks: Option<seq<Item>>, toolResults: Option<seq<ToolResult>>)

  type Supply = nat -> Id

  // ---------- The rewrite as functions ----------

  predicate HasCallId(item: Item) {
    item.Object? && item.call.Some? && item.call.value.id.Some?
  }

  predicate HasTaskId(item: Item) {
    item.Object? && item.taskId.Some?
  }

  /** How many new ids the entries take. */
  function Taken(items: seq<Item>): nat {
    if items == [] then 0
    else
      var last := items[|items| - 1];
      Taken(items[..|items| - 1]) + (if HasTaskId(last) then 1 else 0) + if HasCallId(last) then 1 else 0
  }

  function TaskIds(items: seq<Item>, supply: Supply): Renaming {
    if items == [] then map[]
    else
      var before, last := items[..|items| - 1], items[|items| - 1];
      if HasTaskId(last) then TaskIds(before, supply)[last.taskId.value := supply(Taken(before))]
      else TaskIds(before, supply)
  }

  function CallIds(items: seq<Item>, supply: Supply): Renaming {
    if items == [] then map[]
    else
      var before, last := items[..|items| - 1], items[|items| - 1];
      if HasCallId(last)
      then CallIds(before, supply)[last.call.value.id.value := supply(Taken(before) + if HasTaskId(last) then 1 else 0)]
      else CallIds(before, supply)
  }

  /** The first loop on one entry, with `n` new ids taken before it. */
  function Relabelled(item: Item, n: nat, supply: Supply, originalRunId: Option<Id>, newRunId: Id): Item {
    if item.NotAnObject? then item
    else
      var k := if item.taskId.Some? then n + 1 else n;
      item.(
        taskId := if item.taskId.Some? then Some(supply(n)) else None,
        runId := Some(newRunId),
        call := if HasCallId(item) then Some(item.call.value.(id := Some(supply(k)))) else item.call,
        provenance := Some(
          Provenance(originalRunId, item.taskId, if HasCallId(item) then item.call.value.id else None)))
  }

  function RewriteDependency(m: Renaming, d: Dependency): Dependency {
    if d.Ref? then Ref(Renamed(m, d.id)) else d
  }

  function RewriteDependencies(m: Renaming, deps: seq<Dependency>): (r: seq<Dependency>)
    ensures |r| == |deps| && forall i :: 0 <= i < |deps| ==> r[i] == RewriteDependency(m, deps[i])
  {
    seq(|deps|, i requires 0 <= i < |deps| => RewriteDependency(m, deps[i]))
  }

  /** The second loop on one entry. */
  function Relinked(item: Item, m: Renaming): Item {
    if item.NotAnObject? || item.dependsOn.None? then item
    else item.(dependsOn := Some(RewriteDependencies(m, item.dependsOn.value)))
  }

  function RewriteResult(calls: Renaming, r: ToolResult): ToolResult {
    if r.ToolResult? && r.toolCallId.Some? then r.(toolCallId := Some(Renamed(calls, r.toolCallId.value))) else r
  }

  // ---------- The rewrite as loops ----------

  method RewriteToolResultIds(results: seq<ToolResult>, calls: Renaming) returns (rewritten: seq<ToolResult>)
    ensures |rewritten| == |results|
    ensures forall i :: 0 <= i < |results| ==> rewritten[i] == RewriteResult(calls, results[i])
  {
    rewritten := [];
    for i := 0 to |results|
      invariant |rewritten| == i
      invariant forall k :: 0 <= k < i ==> rewritten[k] == RewriteResult(calls, results[k])
    {
      var item := results[i];
      if item.NotAResult? {
        rewritten := rewritten + [item];
        continue;
      }
      if item.toolCallId.Some? {
        item := item.(toolCallId := Some(Renamed(calls, item.toolCallId.value)));
      }
      rewritten := rewritten + [item];
    }
  }

  lemma NothingTaken(supply: Supply)
    ensures Taken([]) == 0 && TaskIds([], supply) == map[] && CallIds([], supply) == map[]
  {
  }

  lemma OneMore(items: seq<Item>, i: nat, supply: Supply)
    requires i < |items|
    ensures Taken(items[..i + 1])
         == Taken(items[..i]) + (if HasTaskId(items[i]) then 1 else 0) + if HasCallId(items[i]) then 1 else 0
    ensures TaskIds(items[..i + 1], supply)
            == if HasTaskId(items[i])
               then TaskIds(items[..i], supply)[items[i].taskId.value := supply(Taken(items[..i]))]
               else TaskIds(items[..i], supply)
    ensures CallIds(items[..i + 1], supply)
            == if HasCallId(items[i])
               then
                 var n := Taken(items[..i]) + if HasTaskId(items[i]) then 1 else 0;
                 CallIds(items[..i], supply)[items[i].call.value.id.value := supply(n)]
               else CallIds(items[..i], supply)
  {
    assert items[..i + 1][..i] == items[..i];
  }

  /** The body of the first loop. */
  method RelabelTask(
    item: Item, n: nat, tasks0: Renaming, calls0: Renaming, supply: Supply, originalRunId: Option<Id>, newRunId: Id)
    returns (updated: Item, taken: nat, tasks: Renaming, calls: Renaming)
    ensures updated == Relabelled(item, n, supply, originalRunId, newRunId)
    ensures taken == n + (if HasTaskId(item) then 1 else 0) + if HasCallId(item) then 1 else 0
    ensures tasks == if HasTaskId(item) then tasks0[item.taskId.value := supply(n)] else tasks0
    ensures calls == if HasCallId(item)
                     then calls0[item.call.value.id.value := supply(n + if HasTaskId(item) then 1 else 0)]
                     else calls0
  {
    updated, taken, tasks, calls := item, n, tasks0, calls0;
    if item.NotAnObject? {
      return;
    }
    if item.taskId.Some? {
      tasks := tasks[item.taskId.value := supply(taken)];
      updated := updated.(taskId := Some(tasks[item.taskId.value]));
      taken := taken + 1;
    }
    updated := updated.(runId := Some(newRunId));
    var originalCallId: Option<Id> := None;
    if item.call.Some? && item.call.value.id.Some? {
      originalCallId := item.call.value.id;
      calls := calls[originalCallId.value := supply(taken)];
      updated := updated.(call := Some(item.call.value.(id := Some(calls[originalCallId.value]))));
      taken := taken + 1;
    }
    updated := updated.(provenance := Some(Provenance(originalRunId, item.taskId, originalCallId)));
  }

  predicate RelabelledAt(items: seq<Item>, i: nat, supply: Supply, originalRunId: Option<Id>, newRunId: Id, r: Item)
    requires i < |items|
  {
    r == Relabelled(items[i], Taken(items[..i]), supply, originalRunId, newRunId)
  }

  method RelabelTasks(items: seq<Item>, supply: Supply, originalRunId: Option<Id>, newRunId: Id)
    returns (rewritten: seq<Item>, tasks: Renaming, calls: Renaming)
    ensures |rewritten| == |items|
    ensures forall i :: 0 <= i < |items| ==> RelabelledAt(items, i, supply, originalRunId, newRunId, rewritten[i])
    ensures tasks == TaskIds(items, supply) && calls == CallIds(items, supply)
  {
    rewritten, tasks, calls := [], map[], map[];
    var taken := 0;
    NothingTaken(supply);
    assert items[..0] == [];
    hide Relabelled, Taken, TaskIds, CallIds;
    for i := 0 to |items|
      invariant |rewritten| == i && taken == Taken(items[..i])
      invariant forall k :: 0 <= k < i ==> RelabelledAt(items, k, supply, originalRunId, newRunId, rewritten[k])
      invariant tasks == TaskIds(items[..i], supply) && calls == CallIds(items[..i], supply)
    {
      OneMore(items, i, supply);
      var updated;
      updated, taken, tasks, calls := RelabelTask(items[i], taken, tasks, calls, supply, originalRunId, newRunId);
      assert RelabelledAt(items, i, supply, originalRunId, newRunId, updated);
      rewritten := rewritten + [updated];
    }
    assert items[..|items|] == items;
  }

  method RelinkTasks(items: seq<Item>, m: Renaming) returns (rewritten: seq<Item>)
    ensures |rewritten| == |items|
    ensures forall i :: 0 <= i < |items| ==> rewritten[i] == Relinked(items[i], m)
  {
    rewritten := items;
    for i := 0 to |items|
      invariant |rewritten| == |items|
      invariant forall k :: 0 <= k < i ==> rewritten[k] == Relinked(items[k], m)
      invariant forall k :: i <= k < |items| ==> rewritten[k] == items[k]
    {
      var item := rewritten[i];
      if item.NotAnObject? || item.dependsOn.None? {
        continue;
      }
      var deps := RewriteDependencies(m, item.dependsOn.value);
      rewritten := rewritten[i := item.(dependsOn := Some(deps))];
    }
  }

  /** The entry as imported. */
  function Imported(items: seq<Item>, i: nat, supply: Supply, originalRunId: Option<Id>, newRunId: Id): Item
    requires i < |items|
  {
    Relinked(Relabelled(items[i], Taken(items[..i]), supply, originalRunId, newRunId), TaskIds(items, supply))
  }

  method RewritePacketForImport(
    packet: Packet, newRunId: Id, parentRunId: Option<Id>, supply: Supply) returns (r: Packet)
    ensures r.runId == Some(newRunId) && r.parentRunId == parentRunId
    ensures r.tasks.Some?
    ensures packet.tasks.None? ==> r.tasks.value == [] && r.toolResults == packet.toolResults
    ensures packet.tasks.Some? ==>
              var items := packet.tasks.value;
              && |r.tasks.value| == |items|
              && (forall i :: 0 <= i < |items| ==>
                    r.tasks.value[i] == Imported(items, i, supply, packet.runId, newRunId))
              && (packet.toolResults.None? <==> r.toolResults.None?)
              && (packet.toolResults.Some? ==>
                    && |r.toolResults.value| == |packet.toolResults.value|
                    && forall i :: 0 <= i < |packet.toolResults.value| ==>
                         r.toolResults.value[i] == RewriteResult(CallIds(items, supply), packet.toolResults.value[i]))
  {
    var rewritten: seq<Item>, tasks: Renaming, calls: Renaming := [], map[], map[];
    if packet.tasks.Some? {
      var items := packet.tasks.value;
      var relabelled;
      relabelled, tasks, calls := RelabelTasks(items, supply, packet.runId, newRunId);
      rewritten := RelinkTasks(relabelled, tasks);
      assert forall i :: 0 <= i < |items| ==> RelabelledAt(items, i, supply, packet.runId, newRunId, relabelled[i]);
    }
    var results := packet.toolResults;
    if results.Some? {
      var rewrittenResults := RewriteToolResultIds(results.value, calls);
      assert packet.tasks.None? ==> rewrittenResults == results.value;
      results := Some(rewrittenResults);
    }
    return Packet(Some(newRunId), parentRunId, Some(rewritten), results);
  }

  // ---------- The new ids ----------

  ghost predicate DistinctTaskIds(items: seq<Item>) {
    forall i, j :: 0 <= i < j < |items| && HasTaskId(items[i]) && HasTaskId(items[j]) ==>
      items[i].taskId != items[j].taskId
  }

  ghost predicate DistinctCallIds(items: seq<Item>) {
    forall i, j :: 0 <= i < j < |items| && HasCallId(items[i]) && HasCallId(items[j]) ==>
                     items[i].call.value.id != items[j].call.value.id
  }

  /** Distinct ids, none of them among those already used. */
  ghost predicate Unused(supply: Supply, used: set<Id>) {
    && (forall n, k :: n != k ==> supply(n) != supply(k))
    && forall n :: supply(n) !in used
  }

  lemma {:induction false} TakenGrows(items: seq<Item>, i: nat, j: nat)
    requires i <= j <= |items|
    ensures Taken(items[..i]) <= Taken(items[..j])
    ensures i < j ==>
              Taken(items[..i]) + (if HasTaskId(items[i]) then 1 else 0) + (if HasCallId(items[i]) then 1 else 0)
              <= Taken(items[..j])
    decreases j - i
  {
    if i < j {
      assert items[..j][..j - 1] == items[..j - 1];
      TakenGrows(items, i, j - 1);
    }
  }

  /** With distinct task ids, each is mapped to the new id its entry took. */
  lemma {:induction false} TaskIdsAt(items: seq<Item>, i: nat, supply: Supply)
    requires DistinctTaskIds(items) && i < |items| && HasTaskId(items[i])
    ensures items[i].taskId.value in TaskIds(items, supply)
    ensures TaskIds(items, supply)[items[i].taskId.value] == supply(Taken(items[..i]))
    decreases |items|
  {
    var k := |items| - 1;
    assert items[..|items|] == items;
    OneMore(items, k, supply);
    hide TaskIds, Taken, HasCallId;
    if i < k {
      var before := items[..k];
      assert before[i] == items[i] && before[..i] == items[..i];
      assert DistinctTaskIds(before);
      TaskIdsAt(before, i, supply);
      assert HasTaskId(items[k]) ==> items[i].taskId != items[k].taskId;
    }
  }

  lemma {:induction false} TaskIdsOnly(items: seq<Item>, id: Id, supply: Supply)
    requires id in TaskIds(items, supply)
    ensures exists i :: 0 <= i < |items| && HasTaskId(items[i]) && items[i].taskId.value == id
    decreases |items|
  {
    var before, last := items[..|items| - 1], items[|items| - 1];
    if HasTaskId(last) && last.taskId.value == id {
      assert items[|items| - 1].taskId.value == id;
    } else {
      TaskIdsOnly(before, id, supply);
      var i :| 0 <= i < |before| && HasTaskId(before[i]) && before[i].taskId.value == id;
      assert items[i] == before[i];
    }
  }

  lemma {:induction false} CallIdsAt(items: seq<Item>, i: nat, supply: Supply)
    requires DistinctCallIds(items) && i < |items| && HasCallId(items[i])
    ensures items[i].call.value.id.value in CallIds(items, supply)
    ensures CallIds(items, supply)[items[i].call.value.id.value]
         == supply(Taken(items[..i]) + if HasTaskId(items[i]) then 1 else 0)
    decreases |items|
  {
    var k := |items| - 1;
    assert items[..|items|] == items;
    OneMore(items, k, supply);
    hide CallIds, TaskIds, Taken;
    if i < k {
      var before := items[..k];
      assert before[i] == items[i] && before[..i] == items[..i];
      assert DistinctCallIds(before);
      CallIdsAt(before, i, supply);
      assert HasCallId(items[k]) ==> items[i].call.value.id != items[k].call.value.id;
    }
  }

  lemma {:induction false} CallIdsOnly(items: seq<Item>, id: Id, supply: Supply)
    requires id in CallIds(items, supply)
    ensures exists i :: 0 <= i < |items| && HasCallId(items[i]) && items[i].call.value.id.value == id
    decreases |items|
  {
    var before, last := items[..|items| - 1], items[|items| - 1];
    if HasCallId(last) && last.call.value.id.value == id {
      assert items[|items| - 1].call.value.id.value == id;
    } else {
      CallIdsOnly(before, id, supply);
      var i :| 0 <= i < |before| && HasCallId(before[i]) && before[i].call.value.id.value == id;
      assert items[i] == before[i];
    }
  }

  lemma TaskIdNew(items: seq<Item>, id: Id, supply: Supply) returns (i: nat)
    requires DistinctTaskIds(items) && id in TaskIds(items, supply)
    ensures i < |items| && HasTaskId(items[i]) && items[i].taskId.value == id
    ensures TaskIds(items, supply)[id] == supply(Taken(items[..i]))
  {
    TaskIdsOnly(items, id, supply);
    i :| 0 <= i < |items| && HasTaskId(items[i]) && items[i].taskId.value == id;
    TaskIdsAt(items, i, supply);
  }

  lemma CallIdNew(items: seq<Item>, id: Id, supply: Supply) returns (i: nat)
    requires DistinctCallIds(items) && id in CallIds(items, supply)
    ensures i < |items| && HasCallId(items[i]) && items[i].call.value.id.value == id
    ensures CallIds(items, supply)[id] == supply(Taken(items[..i]) + if HasTaskId(items[i]) then 1 else 0)
  {
    CallIdsOnly(items, id, supply);
    i :| 0 <= i < |items| && HasCallId(items[i]) && items[i].call.value.id.value == id;
    CallIdsAt(items, i, supply);
  }

  /** Renaming tasks is injective on the ids in use. */
  lemma TaskRenamingInjective(items: seq<Item>, supply: Supply, used: set<Id>)
    requires DistinctTaskIds(items) && Unused(supply, used)
    ensures InjectiveOn(TaskIds(items, supply), used)
  {
    var m := TaskIds(items, supply);
    hide TaskIds, DistinctTaskIds, Taken;
    forall a, b | a in used && b in used && Renamed(m, a) == Renamed(m, b)
      ensures a == b
    {
      if a in m && b in m {
        var i := TaskIdNew(items, a, supply);
        var j := TaskIdNew(items, b, supply);
        TakenGrows(items, if i < j then i else j, if i < j then j else i);
      } else if a in m {
        var i := TaskIdNew(items, a, supply);
      } else if b in m {
        var j := TaskIdNew(items, b, supply);
      }
    }
  }

  lemma CallRenamingInjective(items: seq<Item>, supply: Supply, used: set<Id>)
    requires DistinctCallIds(items) && Unused(supply, used)
    ensures InjectiveOn(CallIds(items, supply), used)
  {
    var m := CallIds(items, supply);
    hide CallIds, DistinctCallIds, Taken;
    forall a, b | a in used && b in used && Renamed(m, a) == Renamed(m, b)
      ensures a == b
    {
      if a in m && b in m {
        var i := CallIdNew(items, a, supply);
        var j := CallIdNew(items, b, supply);
        TakenGrows(items, if i < j then i else j, if i < j then j else i);
      } else if a in m {
        var i := CallIdNew(items, a, supply);
      } else if b in m {
        var j := CallIdNew(items, b, supply);
      }
    }
  }

  // ---------- What the import means ----------

  ghost predicate AllRefs(deps: seq<Dependency>) {
    forall i :: 0 <= i < |deps| ==> deps[i].Ref?
  }

  /** The entry is one that validates as a task. */
  ghost predicate Whole(item: Item) {
    HasTaskId(item) && HasCallId(item) && item.dependsOn.Some? && AllRefs(item.dependsOn.value)
  }

  ghost function DependencyIds(deps: seq<Dependency>): (r: seq<Id>)
    requires AllRefs(deps)
    ensures |r| == |deps| && forall i :: 0 <= i < |deps| ==> r[i] == deps[i].id
  {
    seq(|deps|, i requires 0 <= i < |deps| => deps[i].id)
  }

  ghost function AsTask(item: Item): Task
    requires Whole(item)
  {
    item.task.(
      id := item.taskId.value,
      dependsOn := DependencyIds(item.dependsOn.value),
      toolCall := Some(item.call.value.call.(id := item.call.value.id.value)))
  }

  ghost predicate AllWhole(items: seq<Item>) {
    forall i :: 0 <= i < |items| ==> Whole(items[i])
  }

  ghost function AsTasks(items: seq<Item>): (r: seq<Task>)
    requires AllWhole(items)
    ensures |r| == |items| && forall i :: 0 <= i < |items| ==> r[i] == AsTask(items[i])
  {
    seq(|items|, i requires 0 <= i < |items| => AsTask(items[i]))
  }

  lemma NewIdsAt(items: seq<Item>, i: nat, supply: Supply)
    requires DistinctTaskIds(items) && DistinctCallIds(items) && i < |items| && HasTaskId(items[i])
    requires HasCallId(items[i])
    ensures Renamed(TaskIds(items, supply), items[i].taskId.value) == supply(Taken(items[..i]))
    ensures Renamed(CallIds(items, supply), items[i].call.value.id.value) == supply(Taken(items[..i]) + 1)
  {
    TaskIdsAt(items, i, supply);
    CallIdsAt(items, i, supply);
    hide TaskIds, CallIds, Taken;
  }

  /** The fields of an imported entry. */
  lemma ImportedFields(items: seq<Item>, i: nat, supply: Supply, originalRunId: Option<Id>, newRunId: Id)
    requires AllWhole(items) && DistinctTaskIds(items) && DistinctCallIds(items) && i < |items|
    ensures var item := Imported(items, i, supply, originalRunId, newRunId);
            && item.Object? && item.task == items[i].task
            && item.taskId == Some(Renamed(TaskIds(items, supply), items[i].taskId.value))
            && item.call
               == Some(items[i].call.value.(id := Some(Renamed(CallIds(items, supply), items[i].call.value.id.value))))
            && item.dependsOn == Some(RewriteDependencies(TaskIds(items, supply), items[i].dependsOn.value))
            && item.provenance == Some(Provenance(originalRunId, items[i].taskId, items[i].call.value.id))
            && item.runId == Some(newRunId)
  {
    assert Whole(items[i]);
    NewIdsAt(items, i, supply);
    hide TaskIds, CallIds, Taken, DistinctTaskIds, DistinctCallIds, AllWhole, RewriteDependencies, AllRefs;
  }

  lemma RewrittenIds(m: Renaming, deps: seq<Dependency>)
    requires AllRefs(deps)
    ensures AllRefs(RewriteDependencies(m, deps))
    ensures DependencyIds(RewriteDependencies(m, deps)) == RenameAll(m, DependencyIds(deps))
  {
  }

  /** An imported entry is the original task with its ids renamed. */
  lemma ImportedRenames(items: seq<Item>, i: nat, supply: Supply, originalRunId: Option<Id>, newRunId: Id)
    requires AllWhole(items) && DistinctTaskIds(items) && DistinctCallIds(items) && i < |items|
    ensures var item := Imported(items, i, supply, originalRunId, newRunId);
            && Whole(item)
            && AsTask(item) == RenameTask(TaskIds(items, supply), CallIds(items, supply), AsTask(items[i]))
  {
    assert Whole(items[i]);
    ImportedFields(items, i, supply, originalRunId, newRunId);
    RewrittenIds(TaskIds(items, supply), items[i].dependsOn.value);
    hide TaskIds, CallIds, Imported, DistinctTaskIds, DistinctCallIds, AllWhole;
    hide RewriteDependencies, AllRefs, DependencyIds;
  }

  /** Importing a well-formed packet under unused ids is an injective renaming, and it preserves
      scheduling: who has unmet dependencies, who becomes ready and who is blocked are the renamed
      originals, in the same order. */
  lemma ImportPreservesScheduling(
    items: seq<Item>, imported: seq<Item>, supply: Supply, originalRunId: Option<Id>, newRunId: Id,
                                  used: set<Id>, i: nat)
    requires AllWhole(items) && DistinctTaskIds(items) && DistinctCallIds(items) && Unused(supply, used)
    requires AllMention(AsTasks(items), used) && i < |items|
    requires |imported| == |items| && forall k :: 0 <= k < |items| ==>
              imported[k] == Imported(items, k, supply, originalRunId, newRunId)
    ensures var m, calls := TaskIds(items, supply), CallIds(items, supply);
            && InjectiveOn(m, used) && AllWhole(imported)
            && AsTasks(imported) == RenameTasks(m, calls, AsTasks(items))
            && var before, after := AsTasks(items), AsTasks(imported);
            && (AllMet(after, after[i]) <==> AllMet(before, before[i]))
            && Ready(after[i].id, after) == RenameTasks(m, calls, Ready(before[i].id, before))
            && Blocked(after[i].id, after) == RenameTasks(m, calls, Blocked(before[i].id, before))
  {
    hide TaskIds, CallIds, Imported, RenameTask, AsTask, Whole, Ready, Blocked, AllMet, Unused, InjectiveOn;
    var m, calls := TaskIds(items, supply), CallIds(items, supply);
    TaskRenamingInjective(items, supply, used);
    forall k | 0 <= k < |items|
      ensures Whole(imported[k]) && AsTask(imported[k]) == RenameTask(m, calls, AsTask(items[k]))
    {
      ImportedRenames(items, k, supply, originalRunId, newRunId);
    }
    var before := AsTasks(items);
    assert AsTasks(imported) == RenameTasks(m, calls, before);
    hide AllWhole, AsTasks, DistinctTaskIds, DistinctCallIds;
    assert Mentions(before[i], used);
    AllMetRenames(m, calls, used, before, before[i]);
    ReadyRenames(m, calls, used, before, before[i].id);
    BlockedRenames(m, calls, used, before, before[i].id);
  }

  /** A tool result belongs to a task's call after the import exactly when it did before. */
  lemma ImportKeepsResults(
    items: seq<Item>, supply: Supply, used: set<Id>, result: ToolResult, i: nat, originalRunId: Option<Id>,
    newRunId: Id)
    requires AllWhole(items) && DistinctTaskIds(items) && DistinctCallIds(items) && Unused(supply, used) && i < |items|
    requires result.ToolResult? && result.toolCallId.Some? && result.toolCallId.value in used
    requires items[i].call.value.id.value in used
    ensures var result' := RewriteResult(CallIds(items, supply), result);
            && result'.ToolResult?
            && (result'.toolCallId == Imported(items, i, supply, originalRunId, newRunId).call.value.id
                <==> result.toolCallId == items[i].call.value.id)
  {
    assert Whole(items[i]);
    ImportedFields(items, i, supply, originalRunId, newRunId);
    CallRenamingInjective(items, supply, used);
    hide Imported, TaskIds, CallIds, Taken, DistinctTaskIds, DistinctCallIds, AllWhole, Unused;
  }
}
