/** What a run of the executor keeps: nothing starts before its dependencies, and nothing is stranded. */
module Scheduling {
  import opened Wrappers
  import opened Sequences
  import opened Graphs
  import opened Lifecycle
  import opened Dependencies
  import opened Executor

  type Tasks = map<Id, Task>

  predicate Done(tasks: Tasks, id: Id) {
    id in tasks && tasks[id].status == Succeeded
  }

  /** Every dependency has succeeded. */
  ghost predicate Clear(tasks: Tasks, t: Task) {
    forall i :: 0 <= i < |t.dependsOn| ==> Done(tasks, t.dependsOn[i])
  }

  ghost predicate WellFormed(w: World) {
    && NoRepeats(w.order)
    && (forall id :: id in w.order <==> id in w.tasks)
    && (forall id :: id in w.tasks ==> w.tasks[id].id == id && Joint(w.tasks[id]) && w.tasks[id].status != Archived)
  }

  /** The dependency graph is closed and `rank` decreases along it, so it has no cycle. */
  ghost predicate Ranked(tasks: Tasks, rank: Id -> nat) {
    forall id, d :: id in tasks && d in tasks[id].dependsOn ==> d in tasks && rank(d) < rank(id)
  }

  /** Whatever is past PENDING, unless canceled, has all its dependencies behind it. */
  ghost predicate Orderly(tasks: Tasks) {
    forall id :: id in tasks && tasks[id].status !in {Pending, Canceled} ==> Clear(tasks, tasks[id])
  }

  ghost predicate Base(w: World, rank: Id -> nat) {
    WellFormed(w) && Ranked(w.tasks, rank) && Orderly(w.tasks)
  }

  /** A queue entry exists that will notice the task: its own, or one of a dependency. */
  ghost predicate Stirred(w: World, t: Task) {
    t.id in w.live || exists d :: d in t.dependsOn && d in w.live
  }

  /** Will never succeed. */
  predicate Dead(w: World, id: Id) {
    && id in w.tasks
    && var t := w.tasks[id];
    t.status == Canceled || (t.status == Failed && (id !in w.live || t.attempts >= t.maxAttempts))
  }

  /** Waits for an approval that can never be given, because its call is already running. */
  predicate Parked(t: Task) {
    t.status == WaitingApproval && t.toolCall.Some? && t.toolCall.value.status == CallRunning
  }

  ghost predicate Lively(w: World, id: Id)
    requires id in w.tasks
  {
    var t := w.tasks[id];
    && !Parked(t)
    && (t.status in {Queued, Running} ==> id in w.live)
    && (t.status == Pending && Clear(w.tasks, t) ==> Stirred(w, t))
    && (t.status == Pending ==> forall d :: d in t.dependsOn ==> !Dead(w, d))
  }

  /** No task is stranded. */
  ghost predicate Sound(w: World, rank: Id -> nat) {
    Base(w, rank) && forall id :: id in w.tasks ==> Lively(w, id)
  }

  // ---------- The listing ----------

  predicate Stores(w: World, t: Task) {
    t.id in w.tasks && w.tasks[t.id] == t
  }

  lemma WellFormedListed(w: World)
    requires WellFormed(w)
    ensures Listed(w.tasks, w.order)
    ensures DistinctIds(List(w.tasks, w.order))
    ensures forall t: Task :: t in List(w.tasks, w.order) <==> Stores(w, t)
  {
    forall i | 0 <= i < |w.order|
      ensures w.order[i] in w.tasks
    {
      assert w.order[i] in w.order;
    }
    var list := List(w.tasks, w.order);
    forall t: Task | Stores(w, t)
      ensures t in list
    {
      var i :| 0 <= i < |w.order| && w.order[i] == t.id;
      assert list[i] == t;
    }
  }

  lemma ListLookup(w: World, id: Id)
    requires WellFormed(w)
    ensures Listed(w.tasks, w.order)
    ensures Lookup(List(w.tasks, w.order), id) == if id in w.tasks then Some(w.tasks[id]) else None
  {
    WellFormedListed(w);
    if id in w.tasks {
      assert Stores(w, w.tasks[id]);
    }
    hide Lookup, List, Joint;
  }

  lemma ListAllMet(w: World, t: Task)
    requires WellFormed(w)
    ensures Listed(w.tasks, w.order)
    ensures AllMet(List(w.tasks, w.order), t) <==> Clear(w.tasks, t)
  {
    WellFormedListed(w);
    forall i | 0 <= i < |t.dependsOn|
      ensures Met(List(w.tasks, w.order), t.dependsOn[i]) <==> Done(w.tasks, t.dependsOn[i])
    {
      ListLookup(w, t.dependsOn[i]);
    }
    hide Met, Done, List;
  }

  lemma ListReady(w: World, id: Id)
    requires WellFormed(w)
    ensures Listed(w.tasks, w.order)
    ensures var ready := Ready(id, List(w.tasks, w.order));
            && DistinctIds(ready)
            && forall t: Task :: t in ready
                            <==> Stores(w, t) && t.status == Pending && id in t.dependsOn && Clear(w.tasks, t)
  {
    WellFormedListed(w);
    var list := List(w.tasks, w.order);
    FilterMembers(ReadyAfter(id, list), list);
    var differ := (a: Task, b: Task) => a.id != b.id;
    assert Pairwise(differ, list);
    FilterPairwise(differ, ReadyAfter(id, list), list);
    forall t
      ensures AllMet(list, t) <==> Clear(w.tasks, t)
    {
      ListAllMet(w, t);
    }
    hide AllMet, Clear, List, WellFormed;
  }

  /** The blocked tasks are pending and closed under pending dependents. */
  lemma ListBlocked(w: World, id: Id)
    requires WellFormed(w)
    ensures Listed(w.tasks, w.order)
    ensures var blocked := Blocked(id, List(w.tasks, w.order));
            && DistinctIds(blocked)
            && (forall t: Task :: t in blocked ==> Stores(w, t) && t.status == Pending && t.id != id)
            && (forall t: Task, d: Id :: && Stores(w, t) && t.status == Pending && t.id != id && d in t.dependsOn
                               && (d == id || (d in w.tasks && w.tasks[d] in blocked))
                               ==> t in blocked)
  {
    WellFormedListed(w);
    var list := List(w.tasks, w.order);
    BlockedExact(id, list);
    PendingIsFilter(list);
    FilterMembers(IsPending(), list);
    var pending, blocked := PendingById(list), Blocked(id, list);
    forall t: Task, d: Id | && Stores(w, t) && t.status == Pending && t.id != id && d in t.dependsOn
                  && (d == id || (d in w.tasks && w.tasks[d] in blocked))
      ensures t in blocked
    {
      assert t in pending;
      if d != id {
        assert w.tasks[d] in pending && w.tasks[d].id == d;
      }
      ReachesStep(pending, id, d, t);
    }
  }

  // ---------- Queueing and canceling several ----------

  predicate QueuedFrom(t: Task, t': Task) {
    && t.toolCall.Some? && t.status == Pending && t'.status == Queued
    && Joint(t') && SameIdentity(t, t') && t'.attempts == t.attempts
  }

  predicate CanceledFrom(t: Task, t': Task) {
    && t.toolCall.Some? && t.status == Pending && t'.status == Canceled
    && Joint(t') && SameIdentity(t, t') && t'.attempts == t.attempts
  }

  ghost predicate Holds(tasks: Tasks, some: seq<Task>) {
    && DistinctIds(some)
    && (forall id :: id in tasks ==> tasks[id].id == id)
    && forall i :: 0 <= i < |some| ==>
         some[i].id in tasks && tasks[some[i].id] == some[i] && some[i].status == Pending && Joint(some[i])
  }

  ghost predicate QueuedOrSame(tasks: Tasks, live: multiset<Id>, ready: seq<Task>, q: Queueing, id: Id)
    requires id in tasks && id in q.tasks
  {
    || (q.tasks[id] == tasks[id] && q.live[id] == live[id])
    || (tasks[id] in ready && QueuedFrom(tasks[id], q.tasks[id]) && q.live[id] == live[id] + 1)
  }

  lemma HoldsRest(tasks: Tasks, some: seq<Task>, t': Task)
    requires Holds(tasks, some) && some != [] && t'.id == some[0].id
    ensures Holds(tasks[t'.id := t'], some[1..])
  {
    var rest := some[1..];
    forall i | 0 <= i < |rest|
      ensures rest[i].id in tasks && tasks[rest[i].id] == rest[i] && rest[i].status == Pending && Joint(rest[i])
      ensures rest[i].id != t'.id
    {
      assert rest[i] == some[i + 1] && some[0].id != some[i + 1].id;
    }
  }

  lemma {:induction false} QueueAllFacts(tasks: Tasks, live: multiset<Id>, ready: seq<Task>, accepts: Id -> bool)
    requires Holds(tasks, ready)
    ensures var q := QueueAll(tasks, live, ready, accepts);
            && q.tasks.Keys == tasks.Keys
            && (forall id :: id in tasks ==> QueuedOrSame(tasks, live, ready, q, id))
            && (forall id :: id !in tasks ==> q.live[id] == live[id])
            && (q.failure.None? ==> forall i :: 0 <= i < |ready| ==> q.tasks[ready[i].id].status == Queued)
    decreases |ready|
  {
    if ready != [] {
      var t := ready[0];
      StepExact(t, Queue);
      var queued := TransitionTask(t, Queued).value;
      assert QueuedFrom(t, queued);
      if accepts(queued.id) {
        HoldsRest(tasks, ready, queued);
        var tasks1, live1 := tasks[queued.id := queued], live + multiset{queued.id};
        QueueAllFacts(tasks1, live1, ready[1..], accepts);
        var q := QueueAll(tasks, live, ready, accepts);
        assert q == QueueAll(tasks1, live1, ready[1..], accepts);
        hide *;
        QueueAllStep(tasks, live, ready, queued, q);
      }
    }
  }

  lemma QueueAllStep(tasks: Tasks, live: multiset<Id>, ready: seq<Task>, queued: Task, q: Queueing)
    requires Holds(tasks, ready) && ready != [] && QueuedFrom(ready[0], queued)
    requires var tasks1, live1 := tasks[queued.id := queued], live + multiset{queued.id};
             && q.tasks.Keys == tasks1.Keys
             && (forall id :: id in tasks1 ==> QueuedOrSame(tasks1, live1, ready[1..], q, id))
             && (forall id :: id !in tasks1 ==> q.live[id] == live1[id])
    requires q.failure.None? ==> forall i :: 0 <= i < |ready[1..]| ==> q.tasks[ready[1..][i].id].status == Queued
    ensures q.tasks.Keys == tasks.Keys
    ensures forall id :: id in tasks ==> QueuedOrSame(tasks, live, ready, q, id)
    ensures forall id :: id !in tasks ==> q.live[id] == live[id]
    ensures q.failure.None? ==> forall i :: 0 <= i < |ready| ==> q.tasks[ready[i].id].status == Queued
  {
    var tasks1, live1 := tasks[queued.id := queued], live + multiset{queued.id};
    forall id | id in tasks
      ensures QueuedOrSame(tasks, live, ready, q, id)
    {
      assert QueuedOrSame(tasks1, live1, ready[1..], q, id);
    }
    assert QueuedOrSame(tasks1, live1, ready[1..], q, queued.id);
    forall i | 0 <= i < |ready| && q.failure.None?
      ensures q.tasks[ready[i].id].status == Queued
    {
      if i > 0 {
        assert ready[1..][i - 1] == ready[i];
      }
    }
  }

  lemma {:induction false} CancelAllFacts(tasks: Tasks, blocked: seq<Task>, nowMs: int)
    requires Holds(tasks, blocked)
    ensures var r := CancelAll(tasks, blocked, nowMs);
            r.Ok? ==> && r.value.Keys == tasks.Keys
                      && forall id :: id in tasks ==>
                           if tasks[id] in blocked then CanceledFrom(tasks[id], r.value[id])
                           else r.value[id] == tasks[id]
    decreases |blocked|
  {
    if blocked != [] {
      var t := blocked[0];
      StepExact(t, Cancel(nowMs));
      var state := CompleteCanceled(t, t.toolCall.value, nowMs);
      if state.Ok? {
        var t' := state.value.task;
        assert CanceledFrom(t, t');
        HoldsRest(tasks, blocked, t');
        var tasks1 := tasks[t'.id := t'];
        CancelAllFacts(tasks1, blocked[1..], nowMs);
        var r := CancelAll(tasks, blocked, nowMs);
        assert r == CancelAll(tasks1, blocked[1..], nowMs);
        hide *;
        if r.Ok? {
          CancelAllStep(tasks, blocked, t', r.value);
        }
      }
    }
  }

  lemma CancelAllStep(tasks: Tasks, blocked: seq<Task>, t': Task, r: Tasks)
    requires Holds(tasks, blocked) && blocked != [] && CanceledFrom(blocked[0], t')
    requires var tasks1 := tasks[t'.id := t'];
             && r.Keys == tasks1.Keys
             && forall id :: id in tasks1 ==>
                  if tasks1[id] in blocked[1..] then CanceledFrom(tasks1[id], r[id]) else r[id] == tasks1[id]
    ensures r.Keys == tasks.Keys
    ensures forall id :: id in tasks ==>
              if tasks[id] in blocked then CanceledFrom(tasks[id], r[id]) else r[id] == tasks[id]
  {
    var tasks1 := tasks[t'.id := t'];
    assert blocked == [blocked[0]] + blocked[1..];
    forall id | id in tasks
      ensures if tasks[id] in blocked then CanceledFrom(tasks[id], r[id]) else r[id] == tasks[id]
    {
      if id == t'.id {
        assert t' !in blocked[1..];
      } else {
        assert tasks1[id] == tasks[id] && tasks[id] != blocked[0];
      }
    }
  }

  // ---------- Every change keeps the base ----------

  /** Success and cancellation are kept, attempts only grow, and entering RUNNING takes an attempt. */
  predicate Progress(t: Task, t': Task) {
    && t.toolCall.Some? && SameIdentity(t, t') && t.attempts <= t'.attempts
    && (t.status in {Succeeded, Canceled} ==> t'.status == t.status)
    && (t'.status == Running ==> t.attempts < t'.attempts || t.status == Running)
  }

  /** The stored task moved on, past PENDING only with its dependencies behind it. */
  ghost predicate Moves(tasks: Tasks, id: Id, t': Task)
    requires id in tasks
  {
    var t := tasks[id];
    && Progress(t, t') && Joint(t') && t'.status != Archived
    && (t'.status !in {Pending, Canceled} ==> Clear(tasks, t))
  }

  ghost predicate Kept(tasks: Tasks, tasks': Tasks) {
    tasks'.Keys == tasks.Keys && forall id :: id in tasks ==> Progress(tasks[id], tasks'[id])
  }

  ghost predicate Evolves(tasks: Tasks, tasks': Tasks) {
    tasks'.Keys == tasks.Keys && forall id :: id in tasks ==> Moves(tasks, id, tasks'[id])
  }

  lemma ClearStays(tasks: Tasks, tasks': Tasks, t: Task, t': Task)
    requires Evolves(tasks, tasks') && t'.dependsOn == t.dependsOn && Clear(tasks, t)
    ensures Clear(tasks', t')
  {
    forall i | 0 <= i < |t'.dependsOn|
      ensures Done(tasks', t'.dependsOn[i])
    {
      assert Done(tasks, t.dependsOn[i]);
      assert Moves(tasks, t.dependsOn[i], tasks'[t.dependsOn[i]]);
    }
  }

  lemma EvolvesKeepsRanks(tasks: Tasks, tasks': Tasks, rank: Id -> nat)
    requires Ranked(tasks, rank) && Evolves(tasks, tasks')
    ensures Ranked(tasks', rank)
  {
    hide Clear, Joint;
    forall id, d | id in tasks' && d in tasks'[id].dependsOn
      ensures d in tasks' && rank(d) < rank(id)
    {
      assert Moves(tasks, id, tasks'[id]);
      assert d in tasks[id].dependsOn;
    }
  }

  lemma EvolvesKeepsOrder(tasks: Tasks, tasks': Tasks)
    requires Evolves(tasks, tasks')
    ensures Orderly(tasks')
  {
    forall id | id in tasks' && tasks'[id].status !in {Pending, Canceled}
      ensures Clear(tasks', tasks'[id])
    {
      assert Moves(tasks, id, tasks'[id]);
      hide Clear, Evolves, Joint;
      ClearStays(tasks, tasks', tasks[id], tasks'[id]);
    }
  }

  lemma EvolvesKeepsBase(w: World, w': World, rank: Id -> nat)
    requires Base(w, rank) && Evolves(w.tasks, w'.tasks) && w'.order == w.order
    ensures Base(w', rank)
  {
    EvolvesKeepsRanks(w.tasks, w'.tasks, rank);
    EvolvesKeepsOrder(w.tasks, w'.tasks);
    hide Ranked, Orderly, Clear, Joint;
    forall id | id in w'.tasks
      ensures w'.tasks[id].id == id && Joint(w'.tasks[id]) && w'.tasks[id].status != Archived
    {
      assert Moves(w.tasks, id, w'.tasks[id]);
    }
  }

  lemma SameMoves(w: World, rank: Id -> nat, id: Id)
    requires Base(w, rank) && id in w.tasks
    ensures Moves(w.tasks, id, w.tasks[id])
  {
  }

  lemma UpdateEvolves(w: World, rank: Id -> nat, id: Id, t': Task)
    requires Base(w, rank) && id in w.tasks && Moves(w.tasks, id, t')
    ensures Evolves(w.tasks, w.tasks[id := t'])
    ensures Base(w.(tasks := w.tasks[id := t']), rank)
  {
    var tasks' := w.tasks[id := t'];
    assert tasks'.Keys == w.tasks.Keys;
    forall x | x in w.tasks
      ensures Moves(w.tasks, x, tasks'[x])
    {
      SameMoves(w, rank, x);
    }
    EvolvesKeepsBase(w, w.(tasks := tasks'), rank);
  }

  // ---------- Single moves ----------

  /** A live task that moves on without being given up strands nobody. */
  lemma MoveSound(w: World, rank: Id -> nat, id: Id, t': Task)
    requires Sound(w, rank) && id in w.tasks && id in w.live && Moves(w.tasks, id, t')
    requires t'.status !in {Pending, Canceled} && !Parked(t')
    requires t'.status == Failed ==> t'.attempts < t'.maxAttempts
    requires w.tasks[id].status == Succeeded ==> t' == w.tasks[id]
    ensures Sound(w.(tasks := w.tasks[id := t']), rank)
  {
    var w' := w.(tasks := w.tasks[id := t']);
    UpdateEvolves(w, rank, id, t');
    forall x | x in w'.tasks
      ensures Lively(w', x)
    {
      if x != id {
        MoveLively(w, rank, id, t', x);
      }
    }
  }

  lemma MoveLively(w: World, rank: Id -> nat, id: Id, t': Task, x: Id)
    requires Sound(w, rank) && id in w.tasks && id in w.live && x in w.tasks && x != id
    requires t'.status !in {Pending, Canceled}
    requires t'.status == Failed ==> t'.attempts < t'.maxAttempts
    ensures Lively(w.(tasks := w.tasks[id := t']), x)
  {
    var w', t := w.(tasks := w.tasks[id := t']), w.tasks[x];
    assert Lively(w, x);
    assert w'.tasks[x] == t;
    if t.status == Pending {
      forall d | d in t.dependsOn
        ensures !Dead(w', d)
      {
        assert !Dead(w, d);
      }
      if Clear(w'.tasks, t) && id !in t.dependsOn {
        forall i | 0 <= i < |t.dependsOn|
          ensures Done(w.tasks, t.dependsOn[i])
        {
          assert Done(w'.tasks, t.dependsOn[i]);
        }
      }
    }
  }

  /** More queue entries do no harm. */
  lemma AddLiveSound(w: World, rank: Id -> nat, id: Id)
    requires Sound(w, rank)
    ensures Sound(w.(live := w.live + multiset{id}), rank)
  {
    var w' := w.(live := w.live + multiset{id});
    forall x | x in w'.tasks
      ensures Lively(w', x)
    {
      assert Lively(w, x);
      var t := w.tasks[x];
      if t.status == Pending {
        forall d | d in t.dependsOn
          ensures !Dead(w', d)
        {
          assert !Dead(w, d);
        }
        if Stirred(w, t) && t.id !in w.live {
          var d :| d in t.dependsOn && d in w.live;
          assert d in w'.live;
        }
      }
    }
  }

  // ---------- Success ----------

  lemma DoneSame(tasks: Tasks, live: multiset<Id>, ready: seq<Task>, q: Queueing, d: Id)
    requires q.tasks.Keys == tasks.Keys
    requires forall id :: id in tasks ==> QueuedOrSame(tasks, live, ready, q, id)
    ensures Done(q.tasks, d) <==> Done(tasks, d)
  {
    if d in tasks {
      assert QueuedOrSame(tasks, live, ready, q, d);
    }
  }

  lemma ClearSame(tasks: Tasks, live: multiset<Id>, ready: seq<Task>, q: Queueing, t: Task)
    requires q.tasks.Keys == tasks.Keys
    requires forall id :: id in tasks ==> QueuedOrSame(tasks, live, ready, q, id)
    ensures Clear(q.tasks, t) <==> Clear(tasks, t)
  {
    forall i | 0 <= i < |t.dependsOn|
      ensures Done(q.tasks, t.dependsOn[i]) <==> Done(tasks, t.dependsOn[i])
    {
      DoneSame(tasks, live, ready, q, t.dependsOn[i]);
    }
    hide Done, QueuedOrSame;
  }

  /** No dependent of the task is still waiting to be queued. */
  ghost predicate NoneReady(w: World, id: Id) {
    forall x :: x in w.tasks && w.tasks[x].status == Pending && id in w.tasks[x].dependsOn ==>
      !Clear(w.tasks, w.tasks[x])
  }

  lemma QueueReadyBase(w: World, rank: Id -> nat, id: Id, accepts: Id -> bool)
    requires Base(w, rank)
    ensures Listed(w.tasks, w.order)
    ensures var ready := Ready(id, List(w.tasks, w.order));
            var q := QueueAll(w.tasks, w.live, ready, accepts);
            && Holds(w.tasks, ready)
            && (forall t: Task :: t in ready ==> Clear(w.tasks, t))
            && Evolves(w.tasks, q.tasks)
            && Base(w.(tasks := q.tasks, live := q.live), rank)
  {
    ListReady(w, id);
    var ready := Ready(id, List(w.tasks, w.order));
    var q := QueueAll(w.tasks, w.live, ready, accepts);
    QueueAllFacts(w.tasks, w.live, ready, accepts);
    forall x | x in w.tasks
      ensures Moves(w.tasks, x, q.tasks[x])
    {
      assert QueuedOrSame(w.tasks, w.live, ready, q, x);
      SameMoves(w, rank, x);
    }
    EvolvesKeepsBase(w, w.(tasks := q.tasks, live := q.live), rank);
  }

  /** Queueing the dependents that became ready, as far as the queue accepts them, strands nobody, and
      when all are accepted none is left over. */
  lemma QueueReadySound(w: World, rank: Id -> nat, id: Id, accepts: Id -> bool)
    requires Sound(w, rank)
    ensures Listed(w.tasks, w.order)
    ensures var (w', failure) := QueueReady(w, id, accepts);
            && Sound(w', rank) && Evolves(w.tasks, w'.tasks) && w.live <= w'.live
            && w'.order == w.order && w'.settled == w.settled
            && (failure.None? ==> NoneReady(w', id))
  {
    QueueReadyBase(w, rank, id, accepts);
    ListReady(w, id);
    var ready := Ready(id, List(w.tasks, w.order));
    var q := QueueAll(w.tasks, w.live, ready, accepts);
    QueueAllFacts(w.tasks, w.live, ready, accepts);
    var (w', failure) := QueueReady(w, id, accepts);
    hide QueueAll, Ready, List, QueueReady, Joint;
    assert w.live <= q.live by {
      forall x
        ensures w.live[x] <= q.live[x]
      {
        if x in w.tasks {
          assert QueuedOrSame(w.tasks, w.live, ready, q, x);
        }
      }
    }
    forall x | x in w'.tasks
      ensures Lively(w', x)
    {
      QueuedLively(w, rank, ready, q, x);
    }
    if failure.None? {
      forall x | x in w'.tasks && w'.tasks[x].status == Pending && id in w'.tasks[x].dependsOn
        ensures !Clear(w'.tasks, w'.tasks[x])
      {
        assert QueuedOrSame(w.tasks, w.live, ready, q, x);
        assert w'.tasks[x] == w.tasks[x];
        ClearSame(w.tasks, w.live, ready, q, w.tasks[x]);
        assert Stores(w, w.tasks[x]);
      }
    }
  }

  lemma QueuedLively(w: World, rank: Id -> nat, ready: seq<Task>, q: Queueing, x: Id)
    requires Sound(w, rank) && x in w.tasks
    requires q.tasks.Keys == w.tasks.Keys && w.live <= q.live
    requires forall id :: id in w.tasks ==> QueuedOrSame(w.tasks, w.live, ready, q, id)
    ensures Lively(w.(tasks := q.tasks, live := q.live), x)
  {
    var w', t := w.(tasks := q.tasks, live := q.live), w.tasks[x];
    assert Lively(w, x) && QueuedOrSame(w.tasks, w.live, ready, q, x);
    if q.tasks[x] == t && t.status == Pending {
      ClearSame(w.tasks, w.live, ready, q, t);
      forall d | d in t.dependsOn
        ensures !Dead(w', d)
      {
        assert !Dead(w, d);
        if d in w.tasks {
          assert QueuedOrSame(w.tasks, w.live, ready, q, d);
        }
      }
      if Stirred(w, t) && t.id !in w.live {
        var d :| d in t.dependsOn && d in w.live;
        assert d in w'.live;
      }
    }
  }

  // ---------- Failure ----------

  /** No pending task depends on this one. */
  ghost predicate NoPendingDependents(w: World, id: Id) {
    forall x :: x in w.tasks && w.tasks[x].status == Pending ==> id !in w.tasks[x].dependsOn
  }

  ghost predicate CanceledOrSame(tasks: Tasks, blocked: seq<Task>, tasks': Tasks) {
    && tasks'.Keys == tasks.Keys
    && forall id :: id in tasks ==>
         if tasks[id] in blocked then CanceledFrom(tasks[id], tasks'[id]) else tasks'[id] == tasks[id]
  }

  /** What canceling the blocked tasks of a given-up task does to the store. */
  lemma CancelBlockedBase(w: World, rank: Id -> nat, id: Id, nowMs: int)
    requires Base(w, rank) && id in w.tasks
    ensures Listed(w.tasks, w.order)
    ensures var blocked := Blocked(id, List(w.tasks, w.order));
            var r := CancelAll(w.tasks, blocked, nowMs);
            r.Ok? ==> && Evolves(w.tasks, r.value) && Base(w.(tasks := r.value), rank)
                      && CanceledOrSame(w.tasks, blocked, r.value) && r.value[id] == w.tasks[id]
  {
    ListBlocked(w, id);
    var blocked := Blocked(id, List(w.tasks, w.order));
    hide CancelAll, Blocked, List, Listed, Joint;
    assert Holds(w.tasks, blocked);
    CancelAllFacts(w.tasks, blocked, nowMs);
    var r := CancelAll(w.tasks, blocked, nowMs);
    if r.Ok? {
      assert CanceledOrSame(w.tasks, blocked, r.value);
      hide Holds, DistinctIds;
      forall x | x in w.tasks
        ensures Moves(w.tasks, x, r.value[x])
      {
        SameMoves(w, rank, x);
      }
      EvolvesKeepsBase(w, w.(tasks := r.value), rank);
    }
  }

  /** A task in `w` was live and well before it was given up; `id` is the one given up. */
  ghost predicate SoundBut(w: World, rank: Id -> nat, id: Id) {
    && Base(w, rank) && id in w.tasks && w.tasks[id].status in {Canceled, Failed}
    && forall x :: x in w.tasks && x != id ==>
         && var t := w.tasks[x];
         && !Parked(t)
         && (t.status in {Queued, Running} ==> x in w.live)
         && (t.status == Pending && Clear(w.tasks, t) ==> Stirred(w, t))
         && (t.status == Pending ==> forall d :: d in t.dependsOn && d != id ==> !Dead(w, d))
  }

  lemma GiveUpSoundBut(w: World, rank: Id -> nat, id: Id, t': Task)
    requires Sound(w, rank) && id in w.tasks && Moves(w.tasks, id, t') && t'.status in {Canceled, Failed}
    requires w.tasks[id].status != Succeeded
    ensures SoundBut(w.(tasks := w.tasks[id := t']), rank, id)
  {
    var w' := w.(tasks := w.tasks[id := t']);
    UpdateEvolves(w, rank, id, t');
    forall x | x in w.tasks && x != id
      ensures var t := w.tasks[x];
              && !Parked(t)
              && (t.status in {Queued, Running} ==> x in w.live)
              && (t.status == Pending && Clear(w'.tasks, t) ==> Stirred(w', t))
              && (t.status == Pending ==> forall d :: d in t.dependsOn && d != id ==> !Dead(w', d))
    {
      var t := w.tasks[x];
      assert Lively(w, x);
      if t.status == Pending {
        forall d | d in t.dependsOn && d != id
          ensures !Dead(w', d)
        {
          assert !Dead(w, d);
        }
        if Clear(w'.tasks, t) {
          forall i | 0 <= i < |t.dependsOn|
            ensures Done(w.tasks, t.dependsOn[i])
          {
            assert Done(w'.tasks, t.dependsOn[i]);
          }
        }
      }
    }
  }

  /** Canceling everything blocked by a given-up task strands nobody and leaves no pending dependent. */
  lemma CancelBlockedSound(w: World, rank: Id -> nat, id: Id, nowMs: int)
    requires SoundBut(w, rank, id)
    ensures Listed(w.tasks, w.order)
    ensures var r := CancelAll(w.tasks, Blocked(id, List(w.tasks, w.order)), nowMs);
            r.Ok? ==> && Sound(w.(tasks := r.value), rank) && NoPendingDependents(w.(tasks := r.value), id)
                      && Evolves(w.tasks, r.value) && r.value[id] == w.tasks[id]
  {
    CancelBlockedBase(w, rank, id, nowMs);
    ListBlocked(w, id);
    var blocked := Blocked(id, List(w.tasks, w.order));
    var r := CancelAll(w.tasks, blocked, nowMs);
    hide CancelAll, Blocked, List, Evolves;
    if r.Ok? {
      var w' := w.(tasks := r.value);
      forall x | x in w'.tasks
        ensures Lively(w', x)
        ensures w'.tasks[x].status == Pending ==> id !in w'.tasks[x].dependsOn
      {
        CanceledLively(w, rank, id, blocked, w', x);
      }
    }
  }

  lemma CanceledLively(w: World, rank: Id -> nat, id: Id, blocked: seq<Task>, w': World, x: Id)
    requires SoundBut(w, rank, id) && x in w.tasks
    requires w' == w.(tasks := w'.tasks) && CanceledOrSame(w.tasks, blocked, w'.tasks) && w'.tasks[id] == w.tasks[id]
    requires forall t: Task, d: Id :: && Stores(w, t) && t.status == Pending && t.id != id && d in t.dependsOn
                                      && (d == id || (d in w.tasks && w.tasks[d] in blocked))
                                      ==> t in blocked
    ensures Lively(w', x)
    ensures w'.tasks[x].status == Pending ==> id !in w'.tasks[x].dependsOn
  {
    var t := w.tasks[x];
    if w'.tasks[x].status == Pending {
      assert x != id && t !in blocked && Stores(w, t);
      forall d | d in t.dependsOn
        ensures d != id && !Dead(w', d)
      {
        assert !Dead(w, d);
      }
      if Clear(w'.tasks, t) {
        forall i | 0 <= i < |t.dependsOn|
          ensures Done(w.tasks, t.dependsOn[i])
        {
          assert Done(w'.tasks, t.dependsOn[i]);
        }
      }
    }
  }

  // ---------- Acknowledging ----------

  /** Some other queue entry will notice the task. */
  ghost predicate StirredBesides(w: World, t: Task, id: Id) {
    (t.id != id && t.id in w.live) || exists d :: d in t.dependsOn && d != id && d in w.live
  }

  /** Whether the last queue entry of a task may go: the task is not under way, no pending task hopes for
      its retry, and no ready task is noticed through it alone. */
  ghost predicate MayLeave(w: World, id: Id) {
    && (id in w.tasks ==> w.tasks[id].status !in {Queued, Running})
    && (id in w.tasks && w.tasks[id].status == Failed ==> NoPendingDependents(w, id))
    && forall x :: x in w.tasks && w.tasks[x].status == Pending && Clear(w.tasks, w.tasks[x]) ==>
         StirredBesides(w, w.tasks[x], id)
  }

  /** Acknowledging an entry keeps the run sound if and only if it is not the last entry of its task or
      the task may leave the queue. */
  lemma AckExact(w: World, rank: Id -> nat, id: Id)
    requires Sound(w, rank) && id in w.live
    ensures Sound(Settle(w, Ack(id)), rank) <==> w.live[id] > 1 || MayLeave(w, id)
  {
    var w' := Settle(w, Ack(id));
    assert w'.live[id] == w.live[id] - 1;
    if w.live[id] > 1 {
      assert forall d :: d in w'.live <==> d in w.live;
      forall x | x in w'.tasks
        ensures Lively(w', x)
      {
        assert Lively(w, x);
      }
    } else {
      assert forall d :: d in w'.live <==> d in w.live && d != id;
      if MayLeave(w, id) {
        forall x | x in w'.tasks
          ensures Lively(w', x)
        {
          assert Lively(w, x);
          LeaveLively(w, w', rank, id, x);
        }
      }
      if Sound(w', rank) {
        SoundMayLeave(w, w', rank, id);
      }
    }
  }

  lemma LeaveLively(w: World, w': World, rank: Id -> nat, id: Id, x: Id)
    requires Sound(w, rank) && MayLeave(w, id) && x in w.tasks && w'.tasks == w.tasks
    requires forall d :: d in w'.live <==> d in w.live && d != id
    ensures Lively(w', x)
  {
    assert Lively(w, x);
    var t := w.tasks[x];
    if t.status == Pending {
      forall d | d in t.dependsOn
        ensures !Dead(w', d)
      {
        assert !Dead(w, d);
      }
      if Clear(w.tasks, t) && StirredBesides(w, t, id) && !(t.id != id && t.id in w.live) {
        var d :| d in t.dependsOn && d != id && d in w.live;
        assert d in w'.live;
      }
    }
  }

  lemma SoundMayLeave(w: World, w': World, rank: Id -> nat, id: Id)
    requires Sound(w, rank) && Sound(w', rank) && w'.tasks == w.tasks
    requires forall d :: d in w'.live <==> d in w.live && d != id
    ensures MayLeave(w, id)
  {
    if id in w.tasks {
      assert Lively(w', id);
    }
    forall x | x in w.tasks && w.tasks[x].status == Pending
      ensures id in w.tasks && w.tasks[id].status == Failed ==> id !in w.tasks[x].dependsOn
      ensures Clear(w.tasks, w.tasks[x]) ==> StirredBesides(w, w.tasks[x], id)
    {
      assert Lively(w', x);
      assert id in w.tasks && w.tasks[id].status == Failed ==> Dead(w', id);
    }
  }

  lemma Leaves(w: World, rank: Id -> nat, id: Id)
    requires Sound(w, rank) && id in w.tasks
    requires match w.tasks[id].status
             case WaitingApproval => true
             case Canceled => true
             case Failed => NoPendingDependents(w, id)
             case Succeeded => NoneReady(w, id)
             case _ => false
    ensures MayLeave(w, id)
  {
    forall x | x in w.tasks && w.tasks[x].status == Pending && Clear(w.tasks, w.tasks[x])
      ensures StirredBesides(w, w.tasks[x], id)
    {
      assert Lively(w, x);
      var t := w.tasks[x];
      if t.id !in w.live {
        var d :| d in t.dependsOn && d in w.live;
        assert Done(w.tasks, d);
      }
    }
  }

  // ---------- What an attempt does to its task ----------

  lemma StartFacts(t: Task, nowMs: int)
    requires Joint(t)
    ensures var r := StartExecution(t, t.toolCall.value, nowMs);
            && (r.Ok? <==> Enabled(t, Start(nowMs)))
            && (r.Ok? ==> Moved(t, Start(nowMs), r.value.task) && r.value.task.toolCall == Some(r.value.toolCall))
  {
    StepExact(t, Start(nowMs));
    hide TransitionCall;
  }

  function StatusAfter(d: Disposition): TaskStatus {
    match d
    case DWaitingApproval => WaitingApproval
    case DDenied => Canceled
    case DCanceled => Canceled
    case DSucceeded => Succeeded
    case DCached => Succeeded
    case _ => Failed
  }

  /** A disposition that goes through takes the task where it says.  A run costs an attempt unless it
      had already started. */
  predicate Applied(t: Task, d: Disposition, t': Task) {
    && Joint(t') && Progress(t, t') && t'.status == StatusAfter(d)
    && t.status !in {Succeeded, Canceled, Archived}
    && (Parked(t') <==> d == DWaitingApproval && t.status == Running)
    && t'.attempts == t.attempts + if StatusAfter(d) in {Succeeded, Failed} && t.status != Running then 1 else 0
  }

  lemma EnsureStartedFacts(t: Task, nowMs: int)
    requires Joint(t)
    ensures var r := EnsureStarted(t, t.toolCall.value, nowMs);
            r.Ok? ==> && var t1 := r.value.task;
                      && Joint(t1) && t1.status == Running && t1.toolCall == Some(r.value.toolCall)
                      && t.status in {Pending, Queued, Running, Failed} && SameIdentity(t, t1)
                      && t1.attempts == t.attempts + if t.status != Running then 1 else 0
  {
    StartFacts(t, nowMs);
    hide StartExecution;
  }

  lemma CompletesFacts(t: Task, nowMs: int)
    requires Joint(t)
    ensures var r := CompleteSucceeded(t, t.toolCall.value, nowMs); r.Ok? ==> Moved(t, Succeed(nowMs), r.value.task)
    ensures var r := CompleteFailed(t, t.toolCall.value, nowMs); r.Ok? ==> Moved(t, Fail(nowMs), r.value.task)
  {
    StepExact(t, Succeed(nowMs));
    StepExact(t, Fail(nowMs));
    hide CompleteSucceeded, CompleteFailed;
  }

  lemma ApplyFacts(t: Task, d: Disposition, nowMs: int)
    requires Joint(t) && d != DCached
    ensures var r := ApplyStateTransition(t, t.toolCall.value, d, nowMs); r.Ok? ==> Applied(t, d, r.value.task)
  {
    match d {
      case DWaitingApproval => StepExact(t, Wait);
      case DDenied =>
        StepExact(t, Deny(nowMs));
        StepExact(t, Cancel(nowMs));
      case DCanceled => StepExact(t, Cancel(nowMs));
      case _ => RunFacts(t, d, nowMs);
    }
    hide EnsureStarted, CompleteSucceeded, CompleteFailed, CompleteDenied, CompleteCanceled, MarkWaitingApproval;
  }

  /** A denial is recorded on the call as denied exactly when the task was never started; otherwise the
      call is canceled. */
  lemma DeniedExact(t: Task, nowMs: int)
    requires Joint(t)
    ensures var r := ApplyStateTransition(t, t.toolCall.value, DDenied, nowMs);
            r.Ok? ==> r.value.task.toolCall == Some(r.value.toolCall)
                      && r.value.toolCall.status == if t.attempts == 0 then CallDenied else CallCanceled
  {
    StepExact(t, Deny(nowMs));
    StepExact(t, Cancel(nowMs));
  }

  /** How an outcome is read: a refusal outranks the result, a good result outranks the error class, and
      a refused call never counts as success, failure or a wait. */
  lemma ClassifyExact(t: Task, outcome: Outcome)
    requires t.status != Canceled
    ensures var d := Classify(t, outcome);
            var refused := outcome.approval == Some(ApprovalDenied) || outcome.decision == Refused;
            && (d == DDenied <==> refused)
            && (d == DSucceeded <==> outcome.ok && !refused)
            && (d == DFailedTransient <==> !outcome.ok && !refused && outcome.failure == Transient)
            && (d == DFailedPermanent <==> !outcome.ok && !refused && outcome.failure == Permanent)
            && (d == DWaitingApproval <==> !outcome.ok && !refused && outcome.failure == ApprovalRequired)
  {
  }

  lemma RunFacts(t: Task, d: Disposition, nowMs: int)
    requires Joint(t) && d in {DSucceeded, DFailedTransient, DFailedPermanent}
    ensures var r := ApplyStateTransition(t, t.toolCall.value, d, nowMs); r.Ok? ==> Applied(t, d, r.value.task)
  {
    hide StartExecution, CompleteSucceeded, CompleteFailed, EnsureStarted;
    EnsureStartedFacts(t, nowMs);
    var started := EnsureStarted(t, t.toolCall.value, nowMs);
    if started.Ok? {
      CompletesFacts(started.value.task, nowMs);
    }
  }

  // ---------- One attempt ----------

  /** The lease gets as far as running the task. */
  ghost predicate Reached(w: World, id: Id) {
    && id in w.tasks
    && var t := w.tasks[id];
    && t.status in {Pending, Queued, Running, Failed} && Clear(w.tasks, t)
    && (t.status == Failed ==> t.attempts < t.maxAttempts)
  }

  lemma StartBase(w: World, rank: Id -> nat, id: Id, nowMs: int)
    requires Base(w, rank) && Reached(w, id)
    ensures var (w1, failure) := PersistStarted(w, id, nowMs);
            && Base(w1, rank) && Evolves(w.tasks, w1.tasks) && w1 == w.(tasks := w1.tasks) && Reached(w1, id)
            && (failure.None? ==> w1.tasks[id].status == Running)
            && (failure.Some? ==> w1 == w)
            && w1.tasks == w.tasks[id := w1.tasks[id]] && Moves(w.tasks, id, w1.tasks[id])
            && (failure.None? <==> w.tasks[id].status == Running || Enabled(w.tasks[id], Start(nowMs)))
            && w1.tasks[id].attempts == w.tasks[id].attempts + if failure.None?
            && w.tasks[id].status != Running then 1 else 0
  {
    var t := w.tasks[id];
    StartFacts(t, nowMs);
    var (w1, failure) := PersistStarted(w, id, nowMs);
    hide StartExecution;
    SameMoves(w, rank, id);
    var t1 := w1.tasks[id];
    assert w1.tasks == w.tasks[id := t1];
    assert Moves(w.tasks, id, t1);
    UpdateEvolves(w, rank, id, t1);
    ClearStays(w.tasks, w1.tasks, t, t1);
  }

  lemma StartSound(w: World, rank: Id -> nat, id: Id, nowMs: int)
    requires Sound(w, rank) && Reached(w, id) && id in w.live
    ensures Sound(PersistStarted(w, id, nowMs).0, rank)
  {
    StartBase(w, rank, id, nowMs);
    var (w1, failure) := PersistStarted(w, id, nowMs);
    hide PersistStarted;
    if failure.None? {
      MoveSound(w, rank, id, w1.tasks[id]);
    }
  }

  lemma KeptTrans(a: Tasks, b: Tasks, c: Tasks)
    requires Kept(a, b) && Kept(b, c)
    ensures Kept(a, c)
  {
    forall id | id in a
      ensures Progress(a[id], c[id])
    {
      assert Progress(a[id], b[id]) && Progress(b[id], c[id]);
    }
  }

  /** The task ended where its disposition says; a run that ended cost an attempt unless it had
      already started. */
  ghost predicate Outcomes(w: World, id: Id, d: Disposition, w1: World) {
    && id in w.tasks && id in w1.tasks && w1.tasks[id].status == StatusAfter(d)
    && (StatusAfter(d) in {Succeeded, Failed} ==>
          w1.tasks[id].attempts == w.tasks[id].attempts + if w.tasks[id].status != Running then 1 else 0)
  }

  ghost predicate Framed(w: World, w1: World) {
    w1.order == w.order && w1.settled == w.settled && Kept(w.tasks, w1.tasks)
  }

  lemma AppliedMoves(w: World, rank: Id -> nat, id: Id, d: Disposition, t': Task)
    requires Base(w, rank) && Reached(w, id) && Applied(w.tasks[id], d, t')
    ensures Moves(w.tasks, id, t')
    ensures var w' := w.(tasks := w.tasks[id := t']);
            Base(w', rank) && Evolves(w.tasks, w'.tasks) && Outcomes(w, id, d, w') && Framed(w, w')
  {
    UpdateEvolves(w, rank, id, t');
    EvolvesKept(w.tasks, w.tasks[id := t']);
  }

  lemma ReachedLoads(w: World, rank: Id -> nat, id: Id)
    requires Base(w, rank) && Reached(w, id)
    ensures Listed(w.tasks, w.order) && Loads(w, id) && Joint(w.tasks[id]) && w.tasks[id].status != Canceled
  {
    WellFormedListed(w);
  }

  lemma FramedTrans(a: World, b: World, c: World)
    requires Framed(a, b) && Framed(b, c)
    ensures Framed(a, c)
  {
    KeptTrans(a.tasks, b.tasks, c.tasks);
  }

  lemma FramedSelf(w: World, rank: Id -> nat)
    requires Base(w, rank)
    ensures Framed(w, w)
  {
    KeptSelf(w, rank);
  }

  /** Canceling what the given-up task blocks keeps the base and the task itself. */
  lemma CancelBlockedFrame(w: World, rank: Id -> nat, id: Id, nowMs: int)
    requires Base(w, rank) && id in w.tasks
    ensures Listed(w.tasks, w.order)
    ensures var r := CancelAll(w.tasks, Blocked(id, List(w.tasks, w.order)), nowMs);
            r.Ok? ==> var w1 := w.(tasks := r.value);
                      Base(w1, rank) && Framed(w, w1) && id in w1.tasks && w1.tasks[id] == w.tasks[id]
  {
    CancelBlockedBase(w, rank, id, nowMs);
    var r := CancelAll(w.tasks, Blocked(id, List(w.tasks, w.order)), nowMs);
    hide CancelAll, Blocked, List;
    if r.Ok? {
      EvolvesKept(w.tasks, r.value);
    }
  }

  lemma OutcomeBase(w: World, rank: Id -> nat, id: Id, outcome: Outcome, env: Env)
    requires Base(w, rank) && Reached(w, id)
    ensures Listed(w.tasks, w.order)
    ensures var (w1, reply) := PersistOutcome(w, id, outcome, env);
            && Base(w1, rank) && Framed(w, w1)
            && (reply.Ok? ==> Outcomes(w, id, reply.value, w1) && reply.value != DCached)
  {
    ReachedLoads(w, rank, id);
    FramedSelf(w, rank);
    hide Base, Reached, Joint, Applied, Evolves, Moves, Framed, ApplyStateTransition;
    hide QueueReady, CancelAll, Blocked, List, Listed;
    var t := w.tasks[id];
    var d := Classify(t, outcome);
    ApplyFacts(t, d, env.nowMs);
    var r := ApplyStateTransition(t, t.toolCall.value, d, env.nowMs);
    var (w1, reply) := PersistOutcome(w, id, outcome, env);
    if r.Ok? {
      var t' := r.value.task;
      AppliedMoves(w, rank, id, d, t');
      var w' := w.(tasks := w.tasks[id := t']);
      if t'.status == Succeeded {
        QueueReadyFrame(w', rank, id, env.accepts);
        FramedTrans(w, w', w1);
      } else if t'.status in {Canceled, Failed} && !WillRetry(t', d) {
        CancelBlockedFrame(w', rank, id, env.nowMs);
        if reply.Ok? {
          FramedTrans(w, w', w1);
        }
      }
    }
  }

  lemma EvolvesKept(a: Tasks, b: Tasks)
    requires Evolves(a, b)
    ensures Kept(a, b)
  {
    forall id | id in a
      ensures Progress(a[id], b[id])
    {
      assert Moves(a, id, b[id]);
    }
  }

  lemma KeptSelf(w: World, rank: Id -> nat)
    requires Base(w, rank)
    ensures Kept(w.tasks, w.tasks)
  {
  }

  lemma QueueReadyFrame(w: World, rank: Id -> nat, id: Id, accepts: Id -> bool)
    requires Base(w, rank) && id in w.tasks && w.tasks[id].status == Succeeded
    ensures Listed(w.tasks, w.order)
    ensures var (w1, failure) := QueueReady(w, id, accepts);
            Base(w1, rank) && Framed(w, w1) && w1.tasks[id] == w.tasks[id]
  {
    QueueReadyBase(w, rank, id, accepts);
    var ready := Ready(id, List(w.tasks, w.order));
    var q := QueueAll(w.tasks, w.live, ready, accepts);
    QueueAllFacts(w.tasks, w.live, ready, accepts);
    assert QueuedOrSame(w.tasks, w.live, ready, q, id);
    EvolvesKept(w.tasks, q.tasks);
  }

  /** Nothing is waiting on the task any more, unless it will be retried. */
  ghost predicate Wrapped(w: World, id: Id, d: Disposition) {
    && id in w.tasks
    && (d == DSucceeded ==> NoneReady(w, id))
    && (w.tasks[id].status == Failed && !WillRetry(w.tasks[id], d) ==> NoPendingDependents(w, id))
  }

  /** The outcome asks for an approval of a call that is already running. */
  predicate OutcomeParks(w: World, id: Id, outcome: Outcome) {
    && id in w.tasks && w.tasks[id].status == Running
    && Classify(w.tasks[id], outcome) == DWaitingApproval
  }

  /** Persisting an outcome keeps the run sound, unless it parks the task. */
  lemma OutcomeSound(w: World, rank: Id -> nat, id: Id, outcome: Outcome, env: Env)
    requires Sound(w, rank) && Reached(w, id) && id in w.live
    ensures Listed(w.tasks, w.order)
    ensures var (w1, reply) := PersistOutcome(w, id, outcome, env);
            && w.live <= w1.live
            && (OutcomeParks(w, id, outcome) ==> id in w1.tasks && Parked(w1.tasks[id]))
            && (!OutcomeParks(w, id, outcome) ==> Sound(w1, rank) && (reply.Ok? ==> Wrapped(w1, id, reply.value)))
  {
    WellFormedListed(w);
    var t := w.tasks[id];
    var d := Classify(t, outcome);
    ApplyFacts(t, d, env.nowMs);
    WaitExact(t);
    var r := ApplyStateTransition(t, t.toolCall.value, d, env.nowMs);
    var (w1, reply) := PersistOutcome(w, id, outcome, env);
    assert d == DWaitingApproval && t.status == Running ==> r.Ok?;
    if r.Ok? {
      var t' := r.value.task;
      AppliedMoves(w, rank, id, d, t');
      var w' := w.(tasks := w.tasks[id := t']);
      hide ApplyStateTransition, QueueReady, CancelAll, Blocked, List, Joint, Base, Moves, Sound;
      if t'.status == Succeeded {
        MoveSound(w, rank, id, t');
        QueueReadySound(w', rank, id, env.accepts);
      } else if t'.status in {Canceled, Failed} && !WillRetry(t', d) {
        GiveUpSoundBut(w, rank, id, t');
        CancelBlockedSound(w', rank, id, env.nowMs);
      } else if !Parked(t') {
        MoveSound(w, rank, id, t');
      }
    }
  }

  /** What running the task may leave it as. */
  ghost predicate Ended(w: World, id: Id, env: Env, d: Disposition, w1: World) {
    && id in w.tasks && id in w1.tasks
    && match env.attempt
       case Delayed(starts) =>
         && d == DFailedTransient
         && (if starts then w1.tasks[id].status == Running else w1.tasks == w.tasks)
         && w1.tasks[id].attempts == w.tasks[id].attempts + if starts && w.tasks[id].status != Running then 1 else 0
       case _ =>
         && (d == DCached <==> env.attempt.Cached?)
         && Outcomes(w, id, d, w1)
  }

  lemma CachedFacts(t: Task, nowMs: int)
    requires Joint(t)
    ensures var r := StartExecution(t, t.toolCall.value, nowMs);
            && (r.Ok? <==> Enabled(t, Start(nowMs)))
            && (r.Ok? ==> var s := CompleteSucceeded(r.value.task, r.value.toolCall, nowMs);
                          s.Ok? && Applied(t, DSucceeded, s.value.task) && t.status != Running)
  {
    StartFacts(t, nowMs);
    var r := StartExecution(t, t.toolCall.value, nowMs);
    if r.Ok? {
      assert r.value.task.startedAtMs == Some(nowMs);
      StepExact(r.value.task, Succeed(nowMs));
    }
    hide StartExecution, CompleteSucceeded;
  }

  lemma CachedBase(w: World, rank: Id -> nat, id: Id, nowMs: int)
    requires Base(w, rank) && Reached(w, id)
    ensures var (w1, reply) := UseCached(w, id, nowMs);
            && Base(w1, rank) && Framed(w, w1)
            && (reply.Ok? <==> Enabled(w.tasks[id], Start(nowMs)))
            && (reply.Err? ==> w1 == w)
            && (reply.Ok? ==> && reply.value == DCached && Outcomes(w, id, DCached, w1) && w.tasks[id].status != Running
                              && w1 == w.(tasks := w.tasks[id := w1.tasks[id]]) && Moves(w.tasks, id, w1.tasks[id]))
  {
    var t := w.tasks[id];
    CachedFacts(t, nowMs);
    var (w1, reply) := UseCached(w, id, nowMs);
    hide StartExecution, CompleteSucceeded;
    if reply.Ok? {
      AppliedMoves(w, rank, id, DSucceeded, w1.tasks[id]);
      EvolvesKept(w.tasks, w1.tasks);
    } else {
      KeptSelf(w, rank);
    }
  }

  ghost predicate ExecutedBase(w: World, rank: Id -> nat, id: Id, env: Env, w1: World, reply: Reply) {
    Base(w1, rank) && Framed(w, w1) && (reply.Ok? ==> Ended(w, id, env, reply.value, w1))
  }

  lemma DelayedBase(w: World, rank: Id -> nat, id: Id, env: Env)
    requires Base(w, rank) && Reached(w, id) && env.attempt.Delayed?
    ensures Listed(w.tasks, w.order) && Loads(w, id)
    ensures var (w1, reply) := ExecuteTask(w, id, env); ExecutedBase(w, rank, id, env, w1, reply)
  {
    WellFormedListed(w);
    KeptSelf(w, rank);
    StartBase(w, rank, id, env.nowMs);
    EvolvesKept(w.tasks, PersistStarted(w, id, env.nowMs).0.tasks);
    hide PersistStarted, Evolves, Kept, Base, Listed;
  }

  /** The world in which the outcome is persisted. */
  function BeforeOutcome(w: World, id: Id, env: Env): (World, Option<Failure>)
    requires Loads(w, id) && env.attempt.Ran?
  {
    if env.attempt.starts then PersistStarted(w, id, env.nowMs) else (w, None)
  }

  lemma BeforeOutcomeFacts(w: World, rank: Id -> nat, id: Id, env: Env)
    requires Base(w, rank) && Reached(w, id) && env.attempt.Ran?
    ensures Listed(w.tasks, w.order) && Loads(w, id)
    ensures var (w1, failure) := BeforeOutcome(w, id, env);
            && Base(w1, rank) && Framed(w, w1) && w1.live == w.live && Reached(w1, id) && Loads(w1, id)
            && Listed(w1.tasks, w1.order)
            && w1.tasks[id].attempts
               == w.tasks[id].attempts
                  + (if w1.tasks[id].status == Running && w.tasks[id].status != Running then 1 else 0)
            && (w.tasks[id].status == Running ==> w1.tasks[id].status == Running)
            && ExecuteTask(w, id, env)
               == if failure.Some? then (w1, Err(failure.value)) else PersistOutcome(w1, id, env.attempt.outcome, env)
  {
    WellFormedListed(w);
    KeptSelf(w, rank);
    StartBase(w, rank, id, env.nowMs);
    var (w1, failure) := BeforeOutcome(w, id, env);
    if env.attempt.starts {
      EvolvesKept(w.tasks, w1.tasks);
    }
    WellFormedListed(w1);
    hide PersistStarted, PersistOutcome, Evolves, Kept, Listed, Moves;
  }

  lemma RanBase(w: World, rank: Id -> nat, id: Id, env: Env)
    requires Base(w, rank) && Reached(w, id) && env.attempt.Ran?
    ensures Listed(w.tasks, w.order) && Loads(w, id)
    ensures var (w1, reply) := ExecuteTask(w, id, env); ExecutedBase(w, rank, id, env, w1, reply)
  {
    BeforeOutcomeFacts(w, rank, id, env);
    hide ExecuteTask, BeforeOutcome, PersistOutcome, Base, Listed, Reached, Kept;
    var (w1, failure) := BeforeOutcome(w, id, env);
    if failure.None? {
      OutcomeBase(w1, rank, id, env.attempt.outcome, env);
      KeptTrans(w.tasks, w1.tasks, PersistOutcome(w1, id, env.attempt.outcome, env).0.tasks);
    }
  }

  lemma ExecuteBase(w: World, rank: Id -> nat, id: Id, env: Env)
    requires Base(w, rank) && Reached(w, id)
    ensures Listed(w.tasks, w.order) && Loads(w, id)
    ensures var (w1, reply) := ExecuteTask(w, id, env); ExecutedBase(w, rank, id, env, w1, reply)
  {
    WellFormedListed(w);
    match env.attempt {
      case Cached =>
        CachedBase(w, rank, id, env.nowMs);
        hide UseCached, Base, Framed;
      case Delayed(_) => DelayedBase(w, rank, id, env);
      case Ran(_, _) => RanBase(w, rank, id, env);
    }
  }

  /** The lease's outcome asks for an approval after the call has started. */
  predicate Parks(w: World, id: Id, env: Env) {
    && Loads(w, id) && env.attempt.Ran?
    && var t := w.tasks[id];
    && Classify(t, env.attempt.outcome) == DWaitingApproval
    && (t.status == Running || (env.attempt.starts && Enabled(t, Start(env.nowMs))))
  }

  lemma RanSound(w: World, rank: Id -> nat, id: Id, env: Env)
    requires Sound(w, rank) && Reached(w, id) && id in w.live && env.attempt.Ran?
    ensures Listed(w.tasks, w.order) && Loads(w, id)
    ensures var (w1, reply) := ExecuteTask(w, id, env);
            && w.live <= w1.live
            && (Parks(w, id, env) ==> id in w1.tasks && Parked(w1.tasks[id]))
            && (!Parks(w, id, env) ==> Sound(w1, rank) && (reply.Ok? ==> Wrapped(w1, id, reply.value)))
  {
    BeforeOutcomeFacts(w, rank, id, env);
    StartBase(w, rank, id, env.nowMs);
    StartSound(w, rank, id, env.nowMs);
    var (w1, failure) := BeforeOutcome(w, id, env);
    assert Parks(w, id, env) <==> failure.None? && OutcomeParks(w1, id, env.attempt.outcome);
    assert Sound(w1, rank);
    hide ExecuteTask, PersistStarted, PersistOutcome, Sound, Base, Listed, Parks, Joint;
    if failure.None? {
      OutcomeSound(w1, rank, id, env.attempt.outcome, env);
    }
  }

  /** An attempt keeps the run sound, unless it parks the task. */
  lemma ExecuteSound(w: World, rank: Id -> nat, id: Id, env: Env)
    requires Sound(w, rank) && Reached(w, id) && id in w.live
    ensures Listed(w.tasks, w.order) && Loads(w, id)
    ensures var (w1, reply) := ExecuteTask(w, id, env);
            && w.live <= w1.live
            && (Parks(w, id, env) ==> id in w1.tasks && Parked(w1.tasks[id]))
            && (!Parks(w, id, env) ==>
                  Sound(w1, rank) && (reply.Ok? && env.attempt.Ran? ==> Wrapped(w1, id, reply.value)))
  {
    WellFormedListed(w);
    match env.attempt {
      case Cached =>
        CachedBase(w, rank, id, env.nowMs);
        var (w1, reply) := UseCached(w, id, env.nowMs);
        if reply.Ok? {
          MoveSound(w, rank, id, w1.tasks[id]);
        }
      case Delayed(starts) =>
        StartBase(w, rank, id, env.nowMs);
        StartSound(w, rank, id, env.nowMs);
      case Ran(starts, outcome) => RanSound(w, rank, id, env);
    }
    hide UseCached, PersistStarted, PersistOutcome, Base, Sound, Listed;
  }

  // ---------- One lease ----------

  /** A pending task that this task's success makes ready and that nothing else in the queue will
      notice. */
  ghost predicate Overlooked(w: World, id: Id, x: Id) {
    && x in w.tasks && w.tasks[x].status == Pending && id in w.tasks[x].dependsOn
    && (forall d :: d in w.tasks[x].dependsOn && d != id ==> Done(w.tasks, d))
    && !StirredBesides(w, w.tasks[x], id)
  }

  /** The last queue entry of a task is dropped too early: a success taken from the ledger does not
      queue what it made ready, and a guard's delay on the last attempt leaves the task RUNNING. */
  ghost predicate Strands(w: World, id: Id, env: Env) {
    && Reached(w, id) && w.live[id] == 1
    && var t := w.tasks[id];
    t.toolCall.Some?
    && match env.attempt
       case Cached => Enabled(t, Start(env.nowMs)) && exists x :: Overlooked(w, id, x)
       case Delayed(starts) =>
         || (t.status == Running && t.attempts >= t.maxAttempts)
         || (starts && Enabled(t, Start(env.nowMs)) && t.attempts + 1 >= t.maxAttempts)
       case Ran(_, _) => false
  }

  lemma HandleCases(w: World, rank: Id -> nat, id: Id, env: Env)
    requires Base(w, rank)
    ensures Listed(w.tasks, w.order)
    ensures Reached(w, id) ==> Loads(w, id) && Handle(w, id, env) == Conclude(w, id, env)
    ensures id !in w.tasks ==> Handle(w, id, env) == (w, Err(TaskNotFound), None)
    ensures !Reached(w, id) && id in w.tasks ==>
              var t := w.tasks[id];
              if t.status in {Pending, Queued} then
                Handle(w, id, env) == (w, Ok(DFailedTransient), Some(Nack(id, DependenciesUnmet)))
              else if t.status == Succeeded then
                var (w1, failure) := QueueReady(w, id, env.accepts);
                Handle(w, id, env)
                == if failure.Some? then (w1, Err(failure.value), None) else (w1, Ok(DSucceeded), Some(Ack(id)))
              else
                && t.status in {WaitingApproval, Canceled, Failed}
                && Handle(w, id, env).0 == w && Handle(w, id, env).2 == Some(Ack(id))
                && (t.status == Failed ==> t.attempts >= t.maxAttempts)
  {
    WellFormedListed(w);
    if id in w.tasks {
      ListAllMet(w, w.tasks[id]);
    }
    hide AllMet, List, QueueReady, Conclude;
  }

  lemma ParkedUnsound(w: World, rank: Id -> nat, id: Id)
    requires id in w.tasks && Parked(w.tasks[id])
    ensures !Sound(w, rank)
  {
    assert !Lively(w, id);
  }

  /** What a lease persists before it is settled strands nobody, unless it parks its own task. */
  lemma HandleSound(w: World, rank: Id -> nat, id: Id, env: Env)
    requires Sound(w, rank) && id in w.live
    ensures Listed(w.tasks, w.order)
    ensures Sound(Handle(w, id, env).0, rank) <==> !(Reached(w, id) && Parks(w, id, env))
    ensures w.live <= Handle(w, id, env).0.live
  {
    HandleCases(w, rank, id, env);
    hide Handle, Sound, Base, Parks;
    if Reached(w, id) {
      ExecuteSound(w, rank, id, env);
      hide ExecuteTask;
      if Parks(w, id, env) {
        ParkedUnsound(Handle(w, id, env).0, rank, id);
      }
    } else if id in w.tasks && w.tasks[id].status == Succeeded {
      QueueReadySound(w, rank, id, env.accepts);
    }
  }

  lemma HandleBase(w: World, rank: Id -> nat, id: Id, env: Env)
    requires Base(w, rank)
    ensures Listed(w.tasks, w.order)
    ensures Base(Handle(w, id, env).0, rank) && Framed(w, Handle(w, id, env).0)
  {
    HandleCases(w, rank, id, env);
    KeptSelf(w, rank);
    hide Handle, Base;
    if Reached(w, id) {
      ExecuteBase(w, rank, id, env);
      hide ExecuteTask;
    } else if id in w.tasks && w.tasks[id].status == Succeeded {
      QueueReadyFrame(w, rank, id, env.accepts);
    }
  }

  lemma NackSound(w: World, rank: Id -> nat, id: Id, reason: NackReason)
    requires Sound(w, rank)
    ensures Sound(Settle(w, Nack(id, reason)), rank)
  {
    var w' := Settle(w, Nack(id, reason));
    forall x | x in w'.tasks
      ensures Lively(w', x)
    {
      assert Lively(w, x);
    }
  }

  function After(c: (World, Reply, Option<Settlement>)): World {
    if c.2.Some? then Settle(c.0, c.2.value) else c.0
  }

  /** After a success taken from the ledger the entry may go exactly when nobody is overlooked. */
  lemma CachedMayLeave(w: World, rank: Id -> nat, id: Id, w1: World)
    requires Sound(w, rank) && Reached(w, id) && Sound(w1, rank)
    requires id in w1.tasks && w1 == w.(tasks := w.tasks[id := w1.tasks[id]])
    requires w1.tasks[id].status == Succeeded
    ensures MayLeave(w1, id) <==> !exists x :: Overlooked(w, id, x)
  {
    forall x | Overlooked(w, id, x)
      ensures !MayLeave(w1, id)
    {
      var t := w.tasks[x];
      assert x != id && w1.tasks[x] == t;
      forall i | 0 <= i < |t.dependsOn|
        ensures Done(w1.tasks, t.dependsOn[i])
      {
        assert t.dependsOn[i] != id ==> Done(w.tasks, t.dependsOn[i]);
      }
      assert Clear(w1.tasks, t) && !StirredBesides(w1, t, id);
    }
    if !exists x :: Overlooked(w, id, x) {
      forall x | x in w1.tasks && w1.tasks[x].status == Pending && Clear(w1.tasks, w1.tasks[x])
        ensures StirredBesides(w1, w1.tasks[x], id)
      {
        var t := w1.tasks[x];
        assert !Overlooked(w, id, x) && x != id && Lively(w1, x);
        if id in t.dependsOn {
          forall d | d in t.dependsOn && d != id
            ensures Done(w.tasks, d)
          {
            assert Done(w1.tasks, d);
          }
        }
      }
    }
  }

  lemma CachedExact(w: World, rank: Id -> nat, id: Id, env: Env)
    requires Sound(w, rank) && Reached(w, id) && id in w.live && env.attempt.Cached?
    ensures Listed(w.tasks, w.order) && Loads(w, id)
    ensures Sound(After(Conclude(w, id, env)), rank) <==> !Strands(w, id, env)
  {
    hide UseCached, Base, Moves, Framed, Parks, Enabled, Lively;
    ExecuteSound(w, rank, id, env);
    CachedBase(w, rank, id, env.nowMs);
    hide Sound;
    var (w1, reply) := UseCached(w, id, env.nowMs);
    if reply.Ok? {
      AckExact(w1, rank, id);
      CachedMayLeave(w, rank, id, w1);
      hide MayLeave, Overlooked, Reached, Moves, Framed;
      assert Conclude(w, id, env) == (w1, reply, Some(Ack(id)));
    }
  }

  /** A delay leaves the task as it was, or started; it costs the entry exactly when no attempt is left. */
  lemma DelayedFacts(w: World, rank: Id -> nat, id: Id, env: Env)
    requires Base(w, rank) && Reached(w, id) && env.attempt.Delayed?
    ensures Listed(w.tasks, w.order) && Loads(w, id)
    ensures var (w1, reply) := ExecuteTask(w, id, env);
            && (reply.Ok? ==>
                  && reply.value == DFailedTransient && id in w1.tasks && w1.live == w.live
                  && (w1.tasks[id].attempts >= w1.tasks[id].maxAttempts ==> w1.tasks[id].status == Running)
                  && (w1.tasks[id].attempts >= w1.tasks[id].maxAttempts <==>
                        || (w.tasks[id].status == Running && w.tasks[id].attempts >= w.tasks[id].maxAttempts)
                        || (&& env.attempt.starts && Enabled(w.tasks[id], Start(env.nowMs))
                            && w.tasks[id].attempts + 1 >= w.tasks[id].maxAttempts)))
            && (reply.Err? ==> w.tasks[id].status != Running && !Enabled(w.tasks[id], Start(env.nowMs)))
  {
    ReachedLoads(w, rank, id);
    StartBase(w, rank, id, env.nowMs);
    hide PersistStarted, Base, Evolves;
  }

  lemma DelayedExact(w: World, rank: Id -> nat, id: Id, env: Env)
    requires Sound(w, rank) && Reached(w, id) && id in w.live && env.attempt.Delayed?
    ensures Listed(w.tasks, w.order) && Loads(w, id)
    ensures Sound(After(Conclude(w, id, env)), rank) <==> !Strands(w, id, env)
  {
    ExecuteSound(w, rank, id, env);
    DelayedFacts(w, rank, id, env);
    hide ExecuteTask, Sound, Base, Enabled, Joint;
    var (w1, reply) := ExecuteTask(w, id, env);
    if reply.Ok? {
      if w1.tasks[id].attempts < w1.tasks[id].maxAttempts {
        NackSound(w1, rank, id, ExecutionDelayed);
        assert After(Conclude(w, id, env)) == Settle(w1, Nack(id, ExecutionDelayed));
      } else {
        AckExact(w1, rank, id);
        assert After(Conclude(w, id, env)) == Settle(w1, Ack(id));
      }
    }
  }

  lemma RanExact(w: World, rank: Id -> nat, id: Id, env: Env)
    requires Sound(w, rank) && Reached(w, id) && id in w.live && env.attempt.Ran?
    ensures Listed(w.tasks, w.order) && Loads(w, id)
    ensures Sound(After(Conclude(w, id, env)), rank) <==> !Parks(w, id, env)
  {
    ExecuteSound(w, rank, id, env);
    ExecuteBase(w, rank, id, env);
    var (w1, reply) := ExecuteTask(w, id, env);
    hide ExecuteTask, Sound, Base, Reached, NoneReady, NoPendingDependents, Framed, Parks;
    if Parks(w, id, env) {
      ParkedUnsound(After(Conclude(w, id, env)), rank, id);
    } else if reply.Ok? {
      var d := reply.value;
      if d == DFailedTransient && w1.tasks[id].attempts < w1.tasks[id].maxAttempts {
        NackSound(w1, rank, id, TransientFailure(w1.tasks[id].attempts));
      } else {
        Leaves(w1, rank, id);
        AckExact(w1, rank, id);
        assert Conclude(w, id, env) == (w1, reply, Some(Ack(id)));
      }
    }
  }

  /** Handling and settling a lease keeps the run sound, except in exactly three situations: a success
      taken from the ledger overlooks a dependent, a delay uses up the last attempt, or an approval is
      asked for after the call has started. */
  lemma ProcessExact(w: World, rank: Id -> nat, id: Id, env: Env)
    requires Sound(w, rank) && id in w.live
    ensures Listed(w.tasks, w.order)
    ensures Sound(Process(w, id, env).0, rank) <==> !Strands(w, id, env) && !(Reached(w, id) && Parks(w, id, env))
  {
    HandleCases(w, rank, id, env);
    HandleSound(w, rank, id, env);
    assert Process(w, id, env).0 == After(Handle(w, id, env));
    if Reached(w, id) {
      ReachedLoads(w, rank, id);
      assert !env.attempt.Ran? ==> !Parks(w, id, env);
      assert env.attempt.Ran? ==> !Strands(w, id, env);
      hide Handle, Sound, Base, Process, Strands, Parks;
      match env.attempt {
        case Cached => CachedExact(w, rank, id, env);
        case Delayed(_) => DelayedExact(w, rank, id, env);
        case Ran(_, _) => RanExact(w, rank, id, env);
      }
    } else if id in w.tasks {
      var w1 := Handle(w, id, env).0;
      hide Handle, Process;
      if w.tasks[id].status in {Pending, Queued} {
        NackSound(w1, rank, id, DependenciesUnmet);
      } else if w.tasks[id].status == Succeeded {
        QueueReadySound(w, rank, id, env.accepts);
        SettleSucceeded(w, w1, rank, id);
      } else {
        SettleUnreached(w, rank, id);
      }
    }
  }

  lemma SettleSucceeded(w: World, w1: World, rank: Id -> nat, id: Id)
    requires Sound(w1, rank) && id in w.tasks && w.tasks[id].status == Succeeded && Kept(w.tasks, w1.tasks)
    requires id in w1.live
    ensures NoneReady(w1, id) ==> Sound(Settle(w1, Ack(id)), rank)
  {
    assert Progress(w.tasks[id], w1.tasks[id]);
    if NoneReady(w1, id) {
      Leaves(w1, rank, id);
      AckExact(w1, rank, id);
    }
  }

  lemma SettleUnreached(w: World, rank: Id -> nat, id: Id)
    requires Sound(w, rank) && id in w.tasks && id in w.live
    requires w.tasks[id].status in {WaitingApproval, Canceled}
             || (w.tasks[id].status == Failed && w.tasks[id].attempts >= w.tasks[id].maxAttempts)
    ensures Sound(Settle(w, Ack(id)), rank)
  {
    if w.tasks[id].status == Failed {
      assert Dead(w, id);
      forall x | x in w.tasks && w.tasks[x].status == Pending
        ensures id !in w.tasks[x].dependsOn
      {
        assert Lively(w, x);
      }
    }
    Leaves(w, rank, id);
    AckExact(w, rank, id);
  }
}
