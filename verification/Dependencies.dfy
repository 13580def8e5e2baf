/** Who is ready and who is blocked: `executor/service/dependencies.py`. */
module Dependencies {
  import opened Wrappers
  import opened Sequences
  import opened Graphs
  import opened Lifecycle

  /** `{t.task_id: t for t in tasks}.get(id)`: a later task wins. */
  function Lookup(tasks: seq<Task>, id: Id): (r: Option<Task>)
    ensures r.Some? ==> r.value in tasks && r.value.id == id
    ensures r.None? ==> forall t :: t in tasks ==> t.id != id
  {
    if tasks == [] then None
    else if tasks[|tasks| - 1].id == id then Some(tasks[|tasks| - 1])
    else
      assert tasks == tasks[..|tasks| - 1] + [tasks[|tasks| - 1]];
      Lookup(tasks[..|tasks| - 1], id)
  }

  predicate Met(tasks: seq<Task>, id: Id) {
    var t := Lookup(tasks, id);
    t.Some? && t.value.status == Succeeded
  }

  predicate AllMet(tasks: seq<Task>, t: Task) {
    forall i :: 0 <= i < |t.dependsOn| ==> Met(tasks, t.dependsOn[i])
  }

  method HasUnmetDependencies(t: Task, tasks: seq<Task>) returns (r: bool)
    ensures r <==> exists d :: d in t.dependsOn && !Met(tasks, d)
    ensures r <==> !AllMet(tasks, t)
  {
    for i := 0 to |t.dependsOn|
      invariant forall k :: 0 <= k < i ==> Met(tasks, t.dependsOn[k])
    {
      var dependency := Lookup(tasks, t.dependsOn[i]);
      if dependency.None? {
        assert !Met(tasks, t.dependsOn[i]);
        return true;
      }
      if dependency.value.status != Succeeded {
        assert !Met(tasks, t.dependsOn[i]);
        return true;
      }
    }
    return false;
  }

  // ---------- Ready dependents ----------

  function ReadyAfter(id: Id, tasks: seq<Task>): Task -> bool {
    (t: Task) => t.status == Pending && id in t.dependsOn && AllMet(tasks, t)
  }

  function Ready(id: Id, tasks: seq<Task>): seq<Task> {
    Filter(ReadyAfter(id, tasks), tasks)
  }

  method ReadyDependentsAfterSuccess(id: Id, tasks: seq<Task>) returns (ready: seq<Task>)
    ensures ready == Ready(id, tasks)
    ensures forall x :: x in ready <==> x in tasks && x.status == Pending && id in x.dependsOn && AllMet(tasks, x)
  {
    ready := [];
    for i := 0 to |tasks|
      invariant ready == Filter(ReadyAfter(id, tasks), tasks[..i])
    {
      var candidate := tasks[i];
      assert tasks[..i + 1] == tasks[..i] + [candidate];
      FilterAppend(ReadyAfter(id, tasks), tasks[..i], [candidate]);
      if candidate.status == Pending && id in candidate.dependsOn {
        var unmet := HasUnmetDependencies(candidate, tasks);
        if !unmet {
          ready := ready + [candidate];
        }
      }
    }
    assert tasks[..|tasks|] == tasks;
    FilterMembers(ReadyAfter(id, tasks), tasks);
  }

  // ---------- Blocked dependents ----------

  /** `d[t.task_id] = t` on an insertion-ordered dictionary of tasks. */
  function DictSet(d: seq<Task>, t: Task): (r: seq<Task>) {
    if d == [] then [t]
    else if d[0].id == t.id then [t] + d[1..]
    else [d[0]] + DictSet(d[1..], t)
  }

  /** The pending tasks by id, in dictionary order. */
  function PendingById(tasks: seq<Task>): seq<Task> {
    if tasks == [] then []
    else
      var d, last := PendingById(tasks[..|tasks| - 1]), tasks[|tasks| - 1];
      if last.status == Pending then DictSet(d, last) else d
  }

  lemma {:induction false} DictSetFacts(d: seq<Task>, t: Task)
    requires DistinctIds(d)
    ensures DistinctIds(DictSet(d, t))
    ensures forall i :: 0 <= i < |DictSet(d, t)| ==>
              DictSet(d, t)[i] == t || (DictSet(d, t)[i] in d && DictSet(d, t)[i].id != t.id)
    ensures (forall i :: 0 <= i < |d| ==> d[i].id != t.id) ==> DictSet(d, t) == d + [t]
  {
    if d != [] && d[0].id != t.id {
      DictSetFacts(d[1..], t);
      assert forall i :: 0 < i < |d| ==> d[0].id != d[i].id;
    }
  }

  lemma {:induction false} PendingFacts(tasks: seq<Task>)
    ensures DistinctIds(PendingById(tasks))
    ensures forall i :: 0 <= i < |PendingById(tasks)| ==>
              PendingById(tasks)[i] in tasks && PendingById(tasks)[i].status == Pending
  {
    if tasks != [] {
      PendingFacts(tasks[..|tasks| - 1]);
      if tasks[|tasks| - 1].status == Pending {
        DictSetFacts(PendingById(tasks[..|tasks| - 1]), tasks[|tasks| - 1]);
      }
    }
  }

  function IsPending(): Task -> bool {
    (t: Task) => t.status == Pending
  }

  /** With distinct ids the dictionary is just the pending tasks in order. */
  lemma {:induction false} PendingIsFilter(tasks: seq<Task>)
    requires DistinctIds(tasks)
    ensures PendingById(tasks) == Filter(IsPending(), tasks)
  {
    if tasks != [] {
      var before, last := tasks[..|tasks| - 1], tasks[|tasks| - 1];
      PendingIsFilter(before);
      FilterAppend(IsPending(), before, [last]);
      assert tasks == before + [last];
      if last.status == Pending {
        PendingFacts(before);
        DictSetFacts(PendingById(before), last);
      }
    }
  }

  /** A task once for every time it lists the dependency. */
  function Copies(t: Task, id: Id, deps: seq<Id>): seq<Task> {
    if deps == [] then []
    else Copies(t, id, deps[..|deps| - 1]) + if deps[|deps| - 1] == id then [t] else []
  }

  /** The value list of `dependents_by_task_id` at an id. */
  function DependentsOf(pending: seq<Task>, id: Id): seq<Task> {
    if pending == [] then []
    else
      var last := pending[|pending| - 1];
      DependentsOf(pending[..|pending| - 1], id) + Copies(last, id, last.dependsOn)
  }

  function AtOr(m: map<Id, seq<Task>>, id: Id): seq<Task> {
    if id in m then m[id] else []
  }

  method IndexDependents(pending: seq<Task>) returns (m: map<Id, seq<Task>>)
    ensures forall id :: AtOr(m, id) == DependentsOf(pending, id)
  {
    m := map[];
    for i := 0 to |pending|
      invariant forall id :: AtOr(m, id) == DependentsOf(pending[..i], id)
    {
      assert pending[..i + 1][..i] == pending[..i];
      m := IndexOne(m, pending[i]);
    }
    assert pending[..|pending|] == pending;
  }

  /** The dictionary after the first `k` dependencies of a task have been entered. */
  ghost predicate Entered(m0: map<Id, seq<Task>>, m: map<Id, seq<Task>>, t: Task, k: nat)
    requires k <= |t.dependsOn|
  {
    forall id :: AtOr(m, id) == AtOr(m0, id) + Copies(t, id, t.dependsOn[..k])
  }

  lemma EnterOne(m0: map<Id, seq<Task>>, m: map<Id, seq<Task>>, t: Task, k: nat)
    requires k < |t.dependsOn| && Entered(m0, m, t, k)
    ensures Entered(m0, m[t.dependsOn[k] := AtOr(m, t.dependsOn[k]) + [t]], t, k + 1)
  {
    assert t.dependsOn[..k + 1][..k] == t.dependsOn[..k];
    var m' := m[t.dependsOn[k] := AtOr(m, t.dependsOn[k]) + [t]];
    forall id
      ensures AtOr(m', id) == AtOr(m0, id) + Copies(t, id, t.dependsOn[..k + 1])
    {
      assert AtOr(m', id) == AtOr(m, id) + if t.dependsOn[k] == id then [t] else [];
    }
  }

  lemma AllEntered(m0: map<Id, seq<Task>>, m: map<Id, seq<Task>>, t: Task)
    requires Entered(m0, m, t, |t.dependsOn|)
    ensures forall id :: AtOr(m, id) == AtOr(m0, id) + Copies(t, id, t.dependsOn)
  {
    assert t.dependsOn[..|t.dependsOn|] == t.dependsOn;
  }

  method IndexOne(m0: map<Id, seq<Task>>, t: Task) returns (m: map<Id, seq<Task>>)
    ensures forall id :: AtOr(m, id) == AtOr(m0, id) + Copies(t, id, t.dependsOn)
  {
    m := m0;
    assert Entered(m0, m, t, 0);
    hide *;
    for k := 0 to |t.dependsOn|
      invariant Entered(m0, m, t, k)
    {
      EnterOne(m0, m, t, k);
      m := m[t.dependsOn[k] := AtOr(m, t.dependsOn[k]) + [t]];
    }
    AllEntered(m0, m, t);
  }

  function IdsOf(tasks: seq<Task>): (r: seq<Id>)
    ensures |r| == |tasks| && forall i :: 0 <= i < |tasks| ==> r[i] == tasks[i].id
  {
    seq(|tasks|, i requires 0 <= i < |tasks| => tasks[i].id)
  }

  function Elems(s: seq<Id>): set<Id> {
    set x | x in s
  }

  /** The inner loop: the dependents not met before, once each. */
  function NewOnes(dependents: seq<Task>, met: set<Id>): seq<Task> {
    if dependents == [] then []
    else if dependents[0].id in met then NewOnes(dependents[1..], met)
    else [dependents[0]] + NewOnes(dependents[1..], met + {dependents[0].id})
  }

  lemma {:induction false} NewOnesFacts(dependents: seq<Task>, met: set<Id>)
    ensures forall t :: t in NewOnes(dependents, met) ==> t in dependents && t.id !in met
    ensures forall t :: t in dependents ==> t.id in met || t.id in Elems(IdsOf(NewOnes(dependents, met)))
    ensures DistinctIds(NewOnes(dependents, met))
  {
    if dependents != [] {
      var t, rest := dependents[0], dependents[1..];
      assert dependents == [t] + rest;
      if t.id in met {
        NewOnesFacts(rest, met);
      } else {
        NewOnesFacts(rest, met + {t.id});
        var more := NewOnes(rest, met + {t.id});
        IdsCons(t, more);
        forall i | 0 <= i < |more|
          ensures more[i].id != t.id
        {
          assert more[i] in more;
        }
      }
    }
  }

  lemma IdsCons(t: Task, rest: seq<Task>)
    ensures Elems(IdsOf([t] + rest)) == {t.id} + Elems(IdsOf(rest))
  {
    var ids := IdsOf([t] + rest);
    assert ids == [t.id] + IdsOf(rest);
  }

  lemma {:induction false} IdsAppend(a: seq<Task>, b: seq<Task>)
    ensures IdsOf(a + b) == IdsOf(a) + IdsOf(b)
    ensures Elems(IdsOf(a + b)) == Elems(IdsOf(a)) + Elems(IdsOf(b))
  {
    assert IdsOf(a + b) == IdsOf(a) + IdsOf(b);
  }

  lemma IdsMember(tasks: seq<Task>, id: Id)
    ensures id in Elems(IdsOf(tasks)) <==> exists t :: t in tasks && t.id == id
  {
    if id in Elems(IdsOf(tasks)) {
      var i :| 0 <= i < |tasks| && IdsOf(tasks)[i] == id;
      assert tasks[i] in tasks;
    }
    if t :| t in tasks && t.id == id {
      var i :| 0 <= i < |tasks| && tasks[i] == t;
      assert IdsOf(tasks)[i] == id;
    }
  }

  /** The tasks a search from the queue adds, in the order it adds them.  `all` bounds the ids it can
      see, so it ends on cyclic graphs too. */
  function Bfs(pending: seq<Task>, queue: seq<Id>, seen: set<Id>, blockedIds: set<Id>, ghost all: set<Id>): seq<Task>
    requires Elems(queue) <= all && Elems(IdsOf(pending)) <= all
    decreases |all - seen|, |queue|
  {
    if queue == [] then []
    else if queue[0] in seen then
      assert Elems(queue[1..]) <= Elems(queue);
      Bfs(pending, queue[1..], seen, blockedIds, all)
    else
      var added := NewOnes(DependentsOf(pending, queue[0]), seen + {queue[0]} + blockedIds);
      NextQueue(pending, queue, seen, blockedIds, all);
      added + Bfs(pending, queue[1..] + IdsOf(added), seen + {queue[0]}, blockedIds + Elems(IdsOf(added)), all)
  }

  lemma NextQueue(pending: seq<Task>, queue: seq<Id>, seen: set<Id>, blockedIds: set<Id>, all: set<Id>)
    requires Elems(queue) <= all && Elems(IdsOf(pending)) <= all && queue != [] && queue[0] !in seen
    ensures var added := NewOnes(DependentsOf(pending, queue[0]), seen + {queue[0]} + blockedIds);
            Elems(queue[1..] + IdsOf(added)) <= all
    ensures |all - (seen + {queue[0]})| < |all - seen|
  {
    var id := queue[0];
    var added := NewOnes(DependentsOf(pending, id), seen + {id} + blockedIds);
    NewOnesFacts(DependentsOf(pending, id), seen + {id} + blockedIds);
    DependentsMembers(pending, id);
    assert id in Elems(queue);
    SmallerRest(all, seen, id);
    forall x | x in queue[1..] + IdsOf(added)
      ensures x in all
    {
      if x in queue[1..] {
        assert x in Elems(queue);
      } else {
        assert x in Elems(IdsOf(added));
        IdsMember(added, x);
        var t :| t in added && t.id == x;
        IdsMember(pending, x);
      }
    }
  }

  lemma SmallerRest(all: set<Id>, seen: set<Id>, id: Id)
    requires id in all && id !in seen
    ensures |all - (seen + {id})| < |all - seen|
  {
    assert all - seen == (all - (seen + {id})) + {id};
  }

  lemma {:induction false} CopiesMembers(t: Task, id: Id, deps: seq<Id>)
    ensures forall i :: 0 <= i < |Copies(t, id, deps)| ==> Copies(t, id, deps)[i] == t
    ensures Copies(t, id, deps) != [] <==> id in deps
  {
    if deps != [] {
      CopiesMembers(t, id, deps[..|deps| - 1]);
      assert deps == deps[..|deps| - 1] + [deps[|deps| - 1]];
    }
  }

  lemma {:induction false} DependentsMembers(pending: seq<Task>, id: Id)
    ensures forall t :: t in DependentsOf(pending, id) <==> t in pending && id in t.dependsOn
    ensures forall i :: 0 <= i < |DependentsOf(pending, id)| ==> DependentsOf(pending, id)[i] in pending
  {
    if pending != [] {
      var before, last := pending[..|pending| - 1], pending[|pending| - 1];
      DependentsMembers(before, id);
      CopiesMembers(last, id, last.dependsOn);
      assert pending == before + [last];
      if id in last.dependsOn {
        assert Copies(last, id, last.dependsOn)[0] == last;
      }
    }
  }

  ghost function Universe(id: Id, tasks: seq<Task>): set<Id> {
    {id} + Elems(IdsOf(PendingById(tasks)))
  }

  function Blocked(id: Id, tasks: seq<Task>): seq<Task> {
    Bfs(PendingById(tasks), [id], {}, {}, Universe(id, tasks))
  }

  // ---------- What the search finds ----------

  /** A chain of pending tasks, the first depending on `src`, each next on the one before. */
  ghost predicate Chain(pending: seq<Task>, src: Id, p: seq<Task>) {
    && p != [] && src in p[0].dependsOn
    && (forall i :: 0 <= i < |p| ==> p[i] in pending)
    && (forall i :: 0 <= i < |p| - 1 ==> p[i].id in p[i + 1].dependsOn)
  }

  ghost predicate Reaches(pending: seq<Task>, src: Id, t: Task) {
    exists p :: Chain(pending, src, p) && p[|p| - 1] == t
  }

  lemma ReachesStep(pending: seq<Task>, src: Id, id: Id, t: Task)
    requires t in pending && id in t.dependsOn
    requires id == src || exists u :: u in pending && u.id == id && Reaches(pending, src, u)
    ensures Reaches(pending, src, t)
  {
    if id == src {
      assert Chain(pending, src, [t]) && [t][|[t]| - 1] == t;
    } else {
      var u :| u in pending && u.id == id && Reaches(pending, src, u);
      var p :| Chain(pending, src, p) && p[|p| - 1] == u;
      var q := p + [t];
      forall i | 0 <= i < |q| - 1
        ensures q[i].id in q[i + 1].dependsOn
      {
        if i < |p| - 1 {
          assert p[i].id in p[i + 1].dependsOn;
        }
      }
      assert Chain(pending, src, q) && q[|q| - 1] == t;
    }
  }

  /** The search so far: `done` are the tasks added. */
  ghost predicate Searching(pending: seq<Task>, src: Id, queue: seq<Id>, seen: set<Id>, done: seq<Task>) {
    && DistinctIds(done)
    && (forall t :: t in done ==> t in pending && t.id != src && Reaches(pending, src, t))
    && (src in seen || src in queue)
    && (src !in seen ==> done == [] && queue == [src])
    && (forall id :: id in queue || id in seen ==> id == src || id in Elems(IdsOf(done)))
    && (forall id :: id in Elems(IdsOf(done)) ==> id in seen || id in queue)
    && (forall t, id :: t in pending && id in seen && id in t.dependsOn ==> t.id == src || t.id in Elems(IdsOf(done)))
  }

  /** What the search finds at one id. */
  ghost function FoundAt(pending: seq<Task>, id: Id, seen: set<Id>, done: seq<Task>): seq<Task> {
    NewOnes(DependentsOf(pending, id), seen + {id} + Elems(IdsOf(done)))
  }

  lemma FoundFacts(pending: seq<Task>, id: Id, seen: set<Id>, done: seq<Task>)
    requires DistinctIds(pending) && DistinctIds(done)
    ensures var added := FoundAt(pending, id, seen, done);
            && DistinctIds(done + added)
            && (forall t :: t in added ==> t in pending && id in t.dependsOn)
            && (forall t :: t in added ==> t.id != id && t.id !in seen && t.id !in Elems(IdsOf(done)))
            && (forall t :: t in pending && id in t.dependsOn ==>
                 t.id == id || t.id in seen || t.id in Elems(IdsOf(done + added)))
  {
    var met := seen + {id} + Elems(IdsOf(done));
    var added := FoundAt(pending, id, seen, done);
    NewOnesFacts(DependentsOf(pending, id), met);
    DependentsMembers(pending, id);
    IdsAppend(done, added);
    hide NewOnes, DependentsOf;
    forall i, j | 0 <= i < |done| && 0 <= j < |added|
      ensures done[i].id != added[j].id
    {
      assert IdsOf(done)[i] in Elems(IdsOf(done)) && added[j] in added;
    }
  }

  lemma FoundReached(pending: seq<Task>, src: Id, queue: seq<Id>, seen: set<Id>, done: seq<Task>, t: Task)
    requires DistinctIds(pending) && Searching(pending, src, queue, seen, done) && queue != [] && queue[0] !in seen
    requires t in FoundAt(pending, queue[0], seen, done)
    ensures t in pending && t.id != src && Reaches(pending, src, t)
  {
    FoundFacts(pending, queue[0], seen, done);
    hide FoundAt, Reaches;
    assert queue == [queue[0]] + queue[1..];
    if queue[0] != src {
      IdsMember(done, queue[0]);
    }
    ReachesStep(pending, src, queue[0], t);
  }

  /** The dependents of everything seen are accounted for. */
  lemma SeenAccounted(pending: seq<Task>, src: Id, queue: seq<Id>, seen: set<Id>, done: seq<Task>, t: Task, d: Id)
    requires DistinctIds(pending) && Searching(pending, src, queue, seen, done) && queue != [] && queue[0] !in seen
    requires t in pending && d in seen + {queue[0]} && d in t.dependsOn
    ensures t.id == src || t.id in Elems(IdsOf(done + FoundAt(pending, queue[0], seen, done)))
  {
    var added := FoundAt(pending, queue[0], seen, done);
    hide FoundAt, Reaches;
    FoundFacts(pending, queue[0], seen, done);
    IdsAppend(done, added);
    assert queue[0] in queue;
  }

  lemma SearchStep(pending: seq<Task>, src: Id, queue: seq<Id>, seen: set<Id>, done: seq<Task>)
    requires DistinctIds(pending) && Searching(pending, src, queue, seen, done) && queue != [] && queue[0] !in seen
    ensures var added := FoundAt(pending, queue[0], seen, done);
            Searching(pending, src, queue[1..] + IdsOf(added), seen + {queue[0]}, done + added)
  {
    var id := queue[0];
    var added := FoundAt(pending, id, seen, done);
    hide FoundAt, Reaches;
    FoundFacts(pending, id, seen, done);
    IdsAppend(done, added);
    hide DistinctIds;
    assert queue == [id] + queue[1..];
    forall t | t in added
      ensures t in pending && t.id != src && Reaches(pending, src, t)
    {
      FoundReached(pending, src, queue, seen, done, t);
    }
    forall t, d | t in pending && d in seen + {id} && d in t.dependsOn
      ensures t.id == src || t.id in Elems(IdsOf(done + added))
    {
      SeenAccounted(pending, src, queue, seen, done, t, d);
    }
  }

  lemma FoundIs(pending: seq<Task>, id: Id, seen: set<Id>, done: seq<Task>)
    ensures FoundAt(pending, id, seen, done)
         == NewOnes(DependentsOf(pending, id), seen + {id} + Elems(IdsOf(done)))
  {
  }

  lemma SkipStep(pending: seq<Task>, src: Id, queue: seq<Id>, seen: set<Id>, done: seq<Task>)
    requires Searching(pending, src, queue, seen, done) && queue != [] && queue[0] in seen
    ensures Searching(pending, src, queue[1..], seen, done)
  {
    assert queue == [queue[0]] + queue[1..];
  }

  lemma BfsSkips(pending: seq<Task>, queue: seq<Id>, seen: set<Id>, blockedIds: set<Id>, all: set<Id>)
    requires Elems(queue) <= all && Elems(IdsOf(pending)) <= all && queue != [] && queue[0] in seen
    ensures Elems(queue[1..]) <= all
    ensures Bfs(pending, queue, seen, blockedIds, all) == Bfs(pending, queue[1..], seen, blockedIds, all)
  {
    assert Elems(queue[1..]) <= Elems(queue);
  }

  lemma BfsVisits(pending: seq<Task>, queue: seq<Id>, seen: set<Id>, blockedIds: set<Id>, all: set<Id>)
    requires Elems(queue) <= all && Elems(IdsOf(pending)) <= all && queue != [] && queue[0] !in seen
    ensures var added := NewOnes(DependentsOf(pending, queue[0]), seen + {queue[0]} + blockedIds);
            && Elems(queue[1..] + IdsOf(added)) <= all
            && |all - (seen + {queue[0]})| < |all - seen|
            && Bfs(pending, queue, seen, blockedIds, all)
               == added + Bfs(pending, queue[1..] + IdsOf(added), seen + {queue[0]},
                              blockedIds + Elems(IdsOf(added)), all)
  {
    NextQueue(pending, queue, seen, blockedIds, all);
  }

  lemma {:induction false} BfsExact(
    pending: seq<Task>, src: Id, queue: seq<Id>, seen: set<Id>, done: seq<Task>, all: set<Id>)
    returns (final: set<Id>)
    requires DistinctIds(pending) && Elems(queue) <= all && Elems(IdsOf(pending)) <= all
    requires Searching(pending, src, queue, seen, done)
    ensures Searching(pending, src, [], final, done + Bfs(pending, queue, seen, Elems(IdsOf(done)), all))
    decreases |all - seen|, |queue|
  {
    hide *;
    if queue == [] {
      BfsEnds(pending, seen, Elems(IdsOf(done)), all);
      assert done + [] == done;
      final := seen;
    } else if queue[0] in seen {
      SkipStep(pending, src, queue, seen, done);
      BfsSkips(pending, queue, seen, Elems(IdsOf(done)), all);
      final := BfsExact(pending, src, queue[1..], seen, done, all);
    } else {
      var added := FoundAt(pending, queue[0], seen, done);
      FoundIs(pending, queue[0], seen, done);
      SearchStep(pending, src, queue, seen, done);
      BfsVisits(pending, queue, seen, Elems(IdsOf(done)), all);
      IdsAppend(done, added);
      var queue' := queue[1..] + IdsOf(added);
      final := BfsExact(pending, src, queue', seen + {queue[0]}, done + added, all);
      var rest := Bfs(pending, queue', seen + {queue[0]}, Elems(IdsOf(done + added)), all);
      assert (done + added) + rest == done + (added + rest);
    }
  }

  lemma {:induction false} ChainIsFound(pending: seq<Task>, src: Id, seen: set<Id>, done: seq<Task>, p: seq<Task>)
    requires DistinctIds(pending) && Searching(pending, src, [], seen, done) && Chain(pending, src, p)
    ensures p[|p| - 1].id == src || p[|p| - 1] in done
    decreases |p|
  {
    var t := p[|p| - 1];
    if |p| > 1 {
      var before := p[..|p| - 1];
      ChainIsFound(pending, src, seen, done, before);
      assert p[|p| - 2].id in p[|p| - 2 + 1].dependsOn;
      IdsMember(done, p[|p| - 2].id);
    }
    if t.id != src {
      IdsMember(done, t.id);
      var u :| u in done && u.id == t.id;
      assert u in pending;
    }
  }

  /** The blocked tasks are, each once, exactly the pending tasks other than the failed one that are
      reachable from it through pending dependents. */
  lemma BlockedExact(id: Id, tasks: seq<Task>)
    ensures DistinctIds(Blocked(id, tasks))
    ensures forall t :: t in Blocked(id, tasks)
                   <==> t in PendingById(tasks) && t.id != id && Reaches(PendingById(tasks), id, t)
  {
    var pending := PendingById(tasks);
    PendingFacts(tasks);
    assert Elems([id]) <= Universe(id, tasks);
    assert Elems(IdsOf([])) == {};
    var seen := BfsExact(pending, id, [id], {}, [], Universe(id, tasks));
    var blocked := Blocked(id, tasks);
    assert [] + blocked == blocked;
    forall t | t in pending && t.id != id && Reaches(pending, id, t)
      ensures t in blocked
    {
      var p :| Chain(pending, id, p) && p[|p| - 1] == t;
      ChainIsFound(pending, id, seen, blocked, p);
    }
  }

  // ---------- The loop itself ----------

  method BlockedDependentsAfterFailure(src: Id, tasks: seq<Task>) returns (blocked: seq<Task>)
    ensures blocked == Blocked(src, tasks)
    ensures DistinctIds(blocked)
    ensures forall x :: x in blocked <==> x in PendingById(tasks) && x.id != src && Reaches(PendingById(tasks), src, x)
  {
    var pending := PendingById(tasks);
    var dependents := IndexDependents(pending);
    blocked := [];
    var queue, seen: set<Id>, blockedIds: set<Id> := [src], {}, {};
    ghost var all := Universe(src, tasks);
    BlockedExact(src, tasks);
    BfsStarts(src, tasks);
    hide *;
    while queue != []
      invariant Elems(queue) <= all && Elems(IdsOf(pending)) <= all
      invariant blocked + Bfs(pending, queue, seen, blockedIds, all) == Blocked(src, tasks)
      decreases |all - seen|, |queue|
    {
      var id := queue[0];
      if id in seen {
        BfsSkips(pending, queue, seen, blockedIds, all);
        queue := queue[1..];
        continue;
      }
      BfsVisits(pending, queue, seen, blockedIds, all);
      seen := seen + {id};
      var added := CollectNew(AtOr(dependents, id), seen + blockedIds);
      ghost var rest := Bfs(pending, queue[1..] + IdsOf(added), seen, blockedIds + Elems(IdsOf(added)), all);
      assert (blocked + added) + rest == blocked + (added + rest);
      blocked := blocked + added;
      blockedIds := blockedIds + Elems(IdsOf(added));
      queue := queue[1..] + IdsOf(added);
    }
    BfsEnds(pending, seen, blockedIds, all);
  }

  lemma BfsStarts(src: Id, tasks: seq<Task>)
    ensures var pending, all := PendingById(tasks), Universe(src, tasks);
            && Elems([src]) <= all && Elems(IdsOf(pending)) <= all
            && [] + Bfs(pending, [src], {}, {}, all) == Blocked(src, tasks)
  {
  }

  lemma BfsEnds(pending: seq<Task>, seen: set<Id>, blockedIds: set<Id>, all: set<Id>)
    requires Elems(IdsOf(pending)) <= all
    ensures Bfs(pending, [], seen, blockedIds, all) == []
  {
  }

  method CollectNew(dependents: seq<Task>, met0: set<Id>) returns (added: seq<Task>)
    ensures added == NewOnes(dependents, met0)
  {
    added := [];
    var met := met0;
    for i := 0 to |dependents|
      invariant added + NewOnes(dependents[i..], met) == NewOnes(dependents, met0)
    {
      var dependent := dependents[i];
      assert dependents[i..][1..] == dependents[i + 1..];
      if dependent.id !in met {
        added := added + [dependent];
        met := met + {dependent.id};
      }
    }
  }
}
