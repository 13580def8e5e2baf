/** From an accepted plan to a running one: `orchestrator/engine/queueing.py` after `build_tasks`. */
module Seeding {
  import opened Wrappers
  import opened Sequences
  import opened Graphs
  import opened Lifecycle
  import opened Dependencies
  import opened PlanValidation
  import opened Executor
  import opened Scheduling
  import opened NoStall

  datatype EnqueueError = MissingToolCall | QueueRefused(id: Id)

  function IsFree(): Task -> bool {
    (t: Task) => t.dependsOn == []
  }

  function Free(tasks: seq<Task>): seq<Task> {
    Filter(IsFree(), tasks)
  }

  /** Enqueue the dependency-free tasks in order, up to the first that is refused. */
  method EnqueueTasks(tasks: seq<Task>, accepts: Id -> bool) returns (enqueued: seq<Id>, error: Option<EnqueueError>)
    ensures enqueued <= IdsOf(Free(tasks))
    ensures error.None? <==> forall t :: t in tasks && t.dependsOn == [] ==> t.toolCall.Some? && accepts(t.id)
    ensures error.None? ==> enqueued == IdsOf(Free(tasks))
  {
    FilterMembers(IsFree(), tasks);
    var ready := Free(tasks);
    enqueued := [];
    for i := 0 to |ready|
      invariant enqueued == IdsOf(ready)[..i]
      invariant forall k :: 0 <= k < i ==> ready[k].toolCall.Some? && accepts(ready[k].id)
    {
      assert ready[i] in ready;
      if ready[i].toolCall.None? {
        return enqueued, Some(MissingToolCall);
      }
      if !accepts(ready[i].id) {
        return enqueued, Some(QueueRefused(ready[i].id));
      }
      enqueued := enqueued + [ready[i].id];
    }
    return enqueued, None;
  }

  function MarkEnqueued(tasks: seq<Task>, enqueued: seq<Id>): (r: seq<Task>)
    ensures |r| == |tasks|
    ensures forall i :: 0 <= i < |tasks| ==>
              r[i] == if tasks[i].id in enqueued then tasks[i].(status := Queued) else tasks[i]
  {
    seq(|tasks|, i requires 0 <= i < |tasks| =>
      if tasks[i].id in enqueued then tasks[i].(status := Queued) else tasks[i])
  }

  function ById(tasks: seq<Task>): map<Id, Task> {
    if tasks == [] then map[] else ById(tasks[..|tasks| - 1])[tasks[|tasks| - 1].id := tasks[|tasks| - 1]]
  }

  lemma {:induction false} ByIdFacts(tasks: seq<Task>)
    requires DistinctIds(tasks)
    ensures forall i :: 0 <= i < |tasks| ==> tasks[i].id in ById(tasks) && ById(tasks)[tasks[i].id] == tasks[i]
    ensures forall id :: id in ById(tasks) ==>
              exists i :: 0 <= i < |tasks| && tasks[i].id == id && ById(tasks)[id] == tasks[i]
    decreases |tasks|
  {
    if tasks != [] {
      var before, last := tasks[..|tasks| - 1], tasks[|tasks| - 1];
      ByIdFacts(before);
      forall id | id in ById(tasks)
        ensures exists i :: 0 <= i < |tasks| && tasks[i].id == id && ById(tasks)[id] == tasks[i]
      {
        if id == last.id {
          assert tasks[|tasks| - 1].id == id;
        } else {
          var i :| 0 <= i < |before| && before[i].id == id && ById(before)[id] == before[i];
          assert tasks[i].id == id;
        }
      }
    }
  }

  /** The run as persisted once all its dependency-free tasks are in the queue. */
  function Seed(tasks: seq<Task>): World {
    var enqueued := IdsOf(Free(tasks));
    World(ById(MarkEnqueued(tasks, enqueued)), IdsOf(tasks), multiset(enqueued), [])
  }

  ghost predicate HasId(tasks: seq<Task>, id: Id) {
    exists i :: 0 <= i < |tasks| && tasks[i].id == id
  }

  ghost predicate FreshTask(tasks: seq<Task>, rank: Id -> nat, t: Task) {
    New(t) && forall d :: d in t.dependsOn ==> rank(d) < rank(t.id) && HasId(tasks, d)
  }

  /** Distinct new tasks whose dependencies are among them, with a rank that decreases along them. */
  ghost predicate Fresh(tasks: seq<Task>, rank: Id -> nat) {
    DistinctIds(tasks) && forall i :: 0 <= i < |tasks| ==> FreshTask(tasks, rank, tasks[i])
  }

  lemma FreeIds(tasks: seq<Task>, i: nat)
    requires DistinctIds(tasks) && i < |tasks|
    ensures tasks[i].id in IdsOf(Free(tasks)) <==> tasks[i].dependsOn == []
    ensures tasks[i].id in multiset(IdsOf(Free(tasks))) <==> tasks[i].dependsOn == []
  {
    FilterMembers(IsFree(), tasks);
    var free := Free(tasks);
    if tasks[i].dependsOn == [] {
      assert tasks[i] in free;
      var k :| 0 <= k < |free| && free[k] == tasks[i];
      assert IdsOf(free)[k] == tasks[i].id;
    }
    if tasks[i].id in IdsOf(free) {
      var k :| 0 <= k < |free| && IdsOf(free)[k] == tasks[i].id;
      assert free[k] in tasks;
      var j :| 0 <= j < |tasks| && tasks[j] == free[k];
    }
  }

  function Marked(t: Task): Task {
    if t.dependsOn == [] then t.(status := Queued) else t
  }

  /** What the seeded store and queue hold for a task. */
  lemma SeedAt(tasks: seq<Task>, i: nat)
    requires DistinctIds(tasks) && i < |tasks|
    ensures var w, id := Seed(tasks), tasks[i].id;
            id in w.tasks && w.tasks[id] == Marked(tasks[i]) && (id in w.live <==> tasks[i].dependsOn == [])
  {
    var enqueued := IdsOf(Free(tasks));
    var marked := MarkEnqueued(tasks, enqueued);
    FreeIds(tasks, i);
    ByIdFacts(marked);
    assert marked[i] == Marked(tasks[i]);
    hide Free, ById;
  }

  lemma SeedOnly(tasks: seq<Task>, id: Id)
    requires DistinctIds(tasks) && id in Seed(tasks).tasks
    ensures HasId(tasks, id)
  {
    var marked := MarkEnqueued(tasks, IdsOf(Free(tasks)));
    ByIdFacts(marked);
    var i :| 0 <= i < |marked| && marked[i].id == id;
    assert tasks[i].id == id;
  }

  lemma SeedParts(tasks: seq<Task>)
    ensures Seed(tasks).order == IdsOf(tasks) && Seed(tasks).settled == []
  {
  }

  lemma SeedListed(tasks: seq<Task>, id: Id)
    requires DistinctIds(tasks)
    ensures id in IdsOf(tasks) <==> id in Seed(tasks).tasks
  {
    if id in IdsOf(tasks) {
      var i :| 0 <= i < |tasks| && IdsOf(tasks)[i] == id;
      SeedAt(tasks, i);
    }
    if id in Seed(tasks).tasks {
      SeedOnly(tasks, id);
      var i :| 0 <= i < |tasks| && tasks[i].id == id;
      assert IdsOf(tasks)[i] == id;
    }
  }

  lemma SeedTask(tasks: seq<Task>, rank: Id -> nat, id: Id)
    requires Fresh(tasks, rank) && id in Seed(tasks).tasks
    ensures var w := Seed(tasks);
            var t := w.tasks[id];
            && t.id == id && Joint(t) && t.status in {Pending, Queued} && (t.status == Queued <==> t.dependsOn == [])
            && (t.status == Queued ==> id in w.live)
            && (forall d :: d in t.dependsOn ==> d in w.tasks && rank(d) < rank(id))
  {
    SeedOnly(tasks, id);
    var i :| 0 <= i < |tasks| && tasks[i].id == id;
    SeedAt(tasks, i);
    assert FreshTask(tasks, rank, tasks[i]);
    hide Seed;
    forall d | d in tasks[i].dependsOn
      ensures d in Seed(tasks).tasks && rank(d) < rank(id)
    {
      assert HasId(tasks, d);
      var k :| 0 <= k < |tasks| && tasks[k].id == d;
      SeedAt(tasks, k);
    }
  }

  lemma SeedBase(tasks: seq<Task>, rank: Id -> nat)
    requires Fresh(tasks, rank)
    ensures Base(Seed(tasks), rank)
  {
    var w := Seed(tasks);
    SeedParts(tasks);
    hide Seed, Fresh, Joint;
    assert NoRepeats(w.order) by {
      FreshDistinct(tasks, rank);
    }
    forall id
      ensures id in w.order <==> id in w.tasks
    {
      FreshDistinct(tasks, rank);
      SeedListed(tasks, id);
    }
    forall id | id in w.tasks
      ensures w.tasks[id].id == id && Joint(w.tasks[id]) && w.tasks[id].status != Archived
      ensures w.tasks[id].status !in {Pending, Canceled} ==> Clear(w.tasks, w.tasks[id])
    {
      SeedTask(tasks, rank, id);
    }
    forall id, d | id in w.tasks && d in w.tasks[id].dependsOn
      ensures d in w.tasks && rank(d) < rank(id)
    {
      SeedTask(tasks, rank, id);
    }
  }

  lemma FreshDistinct(tasks: seq<Task>, rank: Id -> nat)
    requires Fresh(tasks, rank)
    ensures DistinctIds(tasks) && NoRepeats(IdsOf(tasks))
  {
  }

  lemma SeedLively(tasks: seq<Task>, rank: Id -> nat, id: Id)
    requires Fresh(tasks, rank) && id in Seed(tasks).tasks
    ensures Lively(Seed(tasks), id)
  {
    hide Seed, Fresh, Joint;
    var w := Seed(tasks);
    SeedTask(tasks, rank, id);
    var t := w.tasks[id];
    forall d | d in t.dependsOn
      ensures !Dead(w, d) && !Done(w.tasks, d)
    {
      SeedTask(tasks, rank, d);
    }
    if t.status == Pending {
      assert !Done(w.tasks, t.dependsOn[0]);
    }
  }

  /** Freshly seeded, no task is stranded. */
  lemma SeedSound(tasks: seq<Task>, rank: Id -> nat)
    requires Fresh(tasks, rank)
    ensures Sound(Seed(tasks), rank)
  {
    SeedBase(tasks, rank);
    hide Seed, Base, Fresh, Lively;
    forall id | id in Seed(tasks).tasks
      ensures Lively(Seed(tasks), id)
    {
      SeedLively(tasks, rank, id);
    }
  }

  // ---------- From the plan's order to a rank ----------

  function Position(order: seq<Id>, id: Id): nat {
    if order == [] then 0 else if order[0] == id then 0 else 1 + Position(order[1..], id)
  }

  lemma {:induction false} PositionAt(order: seq<Id>, i: nat)
    requires NoRepeats(order) && i < |order|
    ensures Position(order, order[i]) == i
    decreases i
  {
    if i > 0 {
      assert order[0] != order[i];
      PositionAt(order[1..], i - 1);
    }
  }

  ghost function RankOf(ids: map<Name, Id>, order: seq<Name>): Id -> nat {
    (id: Id) => Position(RenameAll(ids, order), id)
  }

  /** What a plan's acceptance gives: the tasks as built, with new and distinct ids. */
  ghost predicate Accepted(plan: seq<ProposedTask>, build: ProposedTask -> Option<Built>,
                           ids: map<Name, Id>, order: seq<Name>, tasks: seq<Task>) {
    && DistinctNames(plan) && Topological(PlanGraph(plan), order) && Resolved(plan, build, ids, tasks)
    && DistinctIds(tasks) && forall i :: 0 <= i < |tasks| ==> New(tasks[i])
  }

  /** A dependency's id comes before the task's own in the renamed order. */
  lemma PlanRank(plan: seq<ProposedTask>, build: ProposedTask -> Option<Built>,
                 ids: map<Name, Id>, order: seq<Name>, tasks: seq<Task>, i: nat, d: Id)
    requires Accepted(plan, build, ids, order, tasks) && i < |tasks| && d in tasks[i].dependsOn
    ensures RankOf(ids, order)(d) < RankOf(ids, order)(tasks[i].id)
    ensures HasId(tasks, d)
  {
    ResolvedTopological(plan, build, ids, order, tasks);
    TaskGraphAt(tasks);
    var h, order' := TaskGraph(tasks), RenameAll(ids, order);
    hide TaskGraph, Resolved, RenameAll;
    var a :| 0 <= a < |order'| && order'[a] == tasks[i].id;
    assert d in h[order'[a]] && d in order'[..a];
    var b :| 0 <= b < a && order'[..a][b] == d;
    assert order'[b] in h;
    PositionAt(order', a);
    PositionAt(order', b);
  }

  lemma AcceptedIsFresh(plan: seq<ProposedTask>, build: ProposedTask -> Option<Built>,
                        ids: map<Name, Id>, order: seq<Name>, tasks: seq<Task>)
    requires Accepted(plan, build, ids, order, tasks)
    ensures Fresh(tasks, RankOf(ids, order))
  {
    forall i, d | 0 <= i < |tasks| && d in tasks[i].dependsOn
      ensures RankOf(ids, order)(d) < RankOf(ids, order)(tasks[i].id) && HasId(tasks, d)
    {
      PlanRank(plan, build, ids, order, tasks, i, d);
    }
  }

  /** From an accepted plan, no run without a stranding step stalls short of its end, and in every run
      each task's lease comes back for transient failures fewer times than its attempt limit. */
  lemma AcceptedPlansFinish(plan: seq<ProposedTask>, build: ProposedTask -> Option<Built>,
                            ids: map<Name, Id>, order: seq<Name>, tasks: seq<Task>, steps: seq<RunStep>)
    requires Accepted(plan, build, ids, order, tasks)
    ensures Sound(Seed(tasks), RankOf(ids, order))
    ensures var end := NoStall.Run(Seed(tasks), RankOf(ids, order), steps);
            && (Careful(Seed(tasks), RankOf(ids, order), steps) && !Active(end) ==>
                  forall id :: id in end.tasks ==> Terminal(end.tasks[id]))
            && (forall id :: id in Seed(tasks).tasks ==>
                  |Retried(end.settled, id)| <= Seed(tasks).tasks[id].maxAttempts - 1)
  {
    AcceptedIsFresh(plan, build, ids, order, tasks);
    SeedSound(tasks, RankOf(ids, order));
    SeedParts(tasks);
    hide Seed, RankOf, Fresh, Accepted;
    var w, rank := Seed(tasks), RankOf(ids, order);
    if Careful(w, rank, steps) {
      NeverStalls(w, rank, steps);
    }
    forall id | id in w.tasks
      ensures |Retried(NoStall.Run(w, rank, steps).settled, id)| <= w.tasks[id].maxAttempts - 1
    {
      RetriesAreBounded(w, rank, steps, id);
    }
  }
}
