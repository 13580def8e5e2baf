/** Plan validation: `orchestrator/validation.py`. */
module PlanValidation {
  import opened Wrappers
  import opened Graphs
  import opened Lifecycle

  type Name = string

  /** The part of a proposed task the dependency check reads. */
  datatype ProposedTask = ProposedTask(name: Name, dependsOn: seq<Name>)

  datatype PlanError =
    | DuplicateName(name: Name)
    | SelfDependency(name: Name)
    | UnknownDependency(name: Name, dependency: Name)
    | CyclicDependency(name: Name)
    | BuildFailed(name: Name)
    | DuplicateIdempotencyKey(previous: Name, name: Name)

  // ---------- What the check is for ----------

  ghost predicate DistinctNames(plan: seq<ProposedTask>) {
    forall i, j :: 0 <= i < j < |plan| ==> plan[i].name != plan[j].name
  }

  ghost predicate Names(plan: seq<ProposedTask>, n: Name) {
    exists i :: 0 <= i < |plan| && plan[i].name == n
  }

  ghost predicate KnownDependencies(plan: seq<ProposedTask>) {
    forall i :: 0 <= i < |plan| ==> Known(plan, plan[i])
  }

  ghost predicate Known(plan: seq<ProposedTask>, t: ProposedTask) {
    forall d :: d in t.dependsOn ==> d != t.name && Names(plan, d)
  }

  /** The plan as written, as a graph. */
  function PlanGraph(plan: seq<ProposedTask>): Graph {
    if plan == [] then map[]
    else PlanGraph(plan[..|plan| - 1])[plan[|plan| - 1].name := Dedup(plan[|plan| - 1].dependsOn)]
  }

  /** First occurrences, in order. */
  function Dedup(names: seq<Name>): (r: seq<Name>)
    ensures NoRepeats(r) && forall n :: n in r <==> n in names
  {
    if names == [] then []
    else
      var rest, last := Dedup(names[..|names| - 1]), names[|names| - 1];
      assert names == names[..|names| - 1] + [last];
      if last in rest then rest else rest + [last]
  }

  lemma {:induction false} PlanGraphKeys(plan: seq<ProposedTask>)
    ensures forall n :: n in PlanGraph(plan) ==> Names(plan, n)
    ensures forall i :: 0 <= i < |plan| ==> plan[i].name in PlanGraph(plan)
  {
    if plan != [] {
      var before, last := plan[..|plan| - 1], plan[|plan| - 1];
      PlanGraphKeys(before);
      forall n | n in PlanGraph(plan)
        ensures Names(plan, n)
      {
        if n == last.name {
          assert plan[|plan| - 1].name == n;
        } else {
          assert Names(before, n);
          var i :| 0 <= i < |before| && before[i].name == n;
          assert plan[i].name == n;
        }
      }
    }
  }

  lemma {:induction false} PlanGraphAt(plan: seq<ProposedTask>)
    requires DistinctNames(plan)
    ensures forall i :: 0 <= i < |plan| ==>
              plan[i].name in PlanGraph(plan) && PlanGraph(plan)[plan[i].name] == Dedup(plan[i].dependsOn)
  {
    if plan != [] {
      PlanGraphAt(plan[..|plan| - 1]);
    }
  }

  lemma PlanGraphClosed(plan: seq<ProposedTask>)
    requires DistinctNames(plan) && KnownDependencies(plan)
    ensures Graphs.Closed(PlanGraph(plan))
  {
    PlanGraphKeys(plan);
    PlanGraphAt(plan);
    var g := PlanGraph(plan);
    forall n, d | n in g && d in g[n]
      ensures d in g
    {
      var i :| 0 <= i < |plan| && plan[i].name == n;
      assert d in plan[i].dependsOn;
    }
  }

  // ---------- The depth-first search ----------

  /** The stack of calls below this one: the path that led here. */
  ghost predicate Stack(g: Graph, visiting: set<Name>, path: seq<Name>, name: Name) {
    && name in g && Path(g, path + [name])
    && (forall n :: n in visiting <==> n in path)
    && (forall n :: n in path ==> n in g)
  }

  ghost predicate OnCycle(g: Graph, name: Name) {
    exists p :: Cycle(g, p) && p[0] == name
  }

  lemma StackCycle(g: Graph, visiting: set<Name>, path: seq<Name>, name: Name)
    requires Stack(g, visiting, path, name) && name in visiting
    ensures OnCycle(g, name) && !Acyclic(g)
  {
    var i :| 0 <= i < |path| && path[i] == name;
    var all := path + [name];
    var p := all[i..];
    forall k | 0 <= k < |p| - 1
      ensures Edge(g, p[k], p[k + 1])
    {
      assert Edge(g, all[i + k], all[i + k + 1]);
    }
    assert Cycle(g, p) && p[0] == name;
  }

  lemma StackPush(g: Graph, visiting: set<Name>, path: seq<Name>, name: Name, dependency: Name)
    requires Stack(g, visiting, path, name) && Graphs.Closed(g) && dependency in g[name]
    ensures Stack(g, visiting + {name}, path + [name], dependency)
  {
    var all := path + [name];
    assert Edge(g, name, dependency);
    assert forall k :: 0 <= k < |all| ==> (all + [dependency])[k] == all[k];
  }

  /** `visit`: names in `visiting` are on the call stack, names in `visited` are done, in the order they
      were marked.  It ends on every graph, because the stack cannot hold a name twice. */
  method Visit(g: Graph, name: Name, visiting: set<Name>, visited: seq<Name>, ghost path: seq<Name>)
    returns (r: Result<seq<Name>, PlanError>)
    requires Graphs.Closed(g) && Graphs.Sorted(g, visited) && Stack(g, visiting, path, name)
    requires forall n :: n in visiting ==> n !in visited
    ensures r.Ok? ==> visited <= r.value && Graphs.Sorted(g, r.value) && name in r.value
    ensures r.Ok? ==> forall n :: n in visiting ==> n !in r.value
    ensures r.Err? ==> r.error.CyclicDependency? && OnCycle(g, r.error.name) && !Acyclic(g)
    decreases |g.Keys - visiting|
  {
    if name in visited {
      return Ok(visited);
    }
    if name in visiting {
      StackCycle(g, visiting, path, name);
      return Err(CyclicDependency(name));
    }
    var visiting' := visiting + {name};
    var visited' := visited;
    assert g.Keys - visiting' < g.Keys - visiting;
    Shrinks(g.Keys - visiting', g.Keys - visiting);
    for i := 0 to |g[name]|
      invariant visited <= visited' && Graphs.Sorted(g, visited')
      invariant forall n :: n in visiting' ==> n !in visited'
      invariant forall k :: 0 <= k < i ==> g[name][k] in visited'
    {
      StackPush(g, visiting, path, name, g[name][i]);
      ghost var before := visited';
      var v := Visit(g, g[name][i], visiting', visited', path + [name]);
      if v.Err? {
        return v;
      }
      visited' := v.value;
      assert forall k :: 0 <= k < i ==> g[name][k] in before;
    }
    SortedExtends(g, visited', name);
    return Ok(visited' + [name]);
  }

  lemma Shrinks(a: set<Name>, b: set<Name>)
    requires a < b
    ensures |a| < |b|
  {
    var rest := b - a;
    assert b == a + rest && rest != {};
  }

  // ---------- The whole check ----------

  ghost predicate Repeated(plan: seq<ProposedTask>, n: Name) {
    exists i, j :: 0 <= i < j < |plan| && plan[i].name == n && plan[j].name == n
  }

  /** Names, then dependencies one by one, as the source raises. */
  method CheckNames(plan: seq<ProposedTask>) returns (r: Option<PlanError>)
    ensures r.None? <==> DistinctNames(plan)
    ensures r.Some? ==> r.value.DuplicateName? && Repeated(plan, r.value.name)
  {
    var byName: set<Name> := {};
    for j := 0 to |plan|
      invariant forall n :: n in byName <==> exists i :: 0 <= i < j && plan[i].name == n
      invariant DistinctNames(plan[..j])
    {
      if plan[j].name in byName {
        ghost var i :| 0 <= i < j && plan[i].name == plan[j].name;
        assert Repeated(plan, plan[j].name);
        return Some(DuplicateName(plan[j].name));
      }
      byName := byName + {plan[j].name};
    }
    assert plan[..|plan|] == plan;
    return None;
  }

  /** The error is about this task's dependencies. */
  ghost predicate BadDependency(plan: seq<ProposedTask>, t: ProposedTask, e: PlanError) {
    match e
    case SelfDependency(n) => n == t.name && n in t.dependsOn
    case UnknownDependency(n, d) => n == t.name && d in t.dependsOn && !Names(plan, d)
    case _ => false
  }

  method CheckDependencies(plan: seq<ProposedTask>, t: ProposedTask) returns (r: Result<seq<Name>, PlanError>)
    ensures r.Ok? <==> Known(plan, t)
    ensures r.Ok? ==> r.value == Dedup(t.dependsOn)
    ensures r.Err? ==> BadDependency(plan, t, r.error)
  {
    var deduped: seq<Name> := [];
    for k := 0 to |t.dependsOn|
      invariant deduped == Dedup(t.dependsOn[..k])
      invariant forall d :: d in t.dependsOn[..k] ==> d != t.name && Names(plan, d)
    {
      var d := t.dependsOn[k];
      assert d in t.dependsOn;
      if d == t.name {
        return Err(SelfDependency(t.name));
      }
      var known := Knows(plan, d);
      if !known {
        return Err(UnknownDependency(t.name, d));
      }
      assert t.dependsOn[..k + 1][..k] == t.dependsOn[..k];
      assert t.dependsOn[..k + 1] == t.dependsOn[..k] + [d];
      if d !in deduped {
        deduped := deduped + [d];
      }
    }
    assert t.dependsOn[..|t.dependsOn|] == t.dependsOn;
    return Ok(deduped);
  }

  method Knows(plan: seq<ProposedTask>, n: Name) returns (r: bool)
    ensures r <==> Names(plan, n)
  {
    for i := 0 to |plan|
      invariant forall k :: 0 <= k < i ==> plan[k].name != n
    {
      if plan[i].name == n {
        return true;
      }
    }
    return false;
  }

  /** The second loop: check every task's dependencies and collect them, deduplicated. */
  method CollectDependencies(plan: seq<ProposedTask>) returns (r: Result<Graph, PlanError>)
    ensures r.Ok? <==> KnownDependencies(plan)
    ensures r.Ok? ==> r.value == PlanGraph(plan)
    ensures r.Err? ==> exists i :: 0 <= i < |plan| && BadDependency(plan, plan[i], r.error)
  {
    var g: Graph := map[];
    for i := 0 to |plan|
      invariant g == PlanGraph(plan[..i])
      invariant forall k :: 0 <= k < i ==> Known(plan, plan[k])
    {
      var deps := CheckDependencies(plan, plan[i]);
      if deps.Err? {
        return Err(deps.error);
      }
      assert plan[..i + 1][..i] == plan[..i];
      g := g[plan[i].name := deps.value];
    }
    assert plan[..|plan|] == plan;
    return Ok(g);
  }

  /** The third loop: visit every name, in plan order. */
  method VisitAll(g: Graph, names: seq<Name>) returns (r: Result<seq<Name>, PlanError>)
    requires Graphs.Closed(g)
    requires (forall n :: n in g <==> n in names)
    ensures r.Ok? <==> Acyclic(g)
    ensures r.Ok? ==> Topological(g, r.value)
    ensures r.Err? ==> r.error.CyclicDependency? && OnCycle(g, r.error.name)
  {
    var order: seq<Name> := [];
    for i := 0 to |names|
      invariant Graphs.Sorted(g, order)
      invariant forall n :: n in names[..i] ==> n in order
    {
      assert [] + [names[i]] == [names[i]] && names[i] in names;
      var v := Visit(g, names[i], {}, order, []);
      if v.Err? {
        return Err(v.error);
      }
      assert names[..i + 1] == names[..i] + [names[i]];
      order := v.value;
    }
    assert names[..|names|] == names;
    TopologicalIsAcyclic(g, order);
    return Ok(order);
  }

  function NamesOf(plan: seq<ProposedTask>): seq<Name> {
    seq(|plan|, i requires 0 <= i < |plan| => plan[i].name)
  }

  /** The dependency check accepts exactly the plans with distinct names, known dependencies on other
      tasks, and no cycle.  It returns the deduplicated graph and, as the order in which tasks were
      marked visited, a topological order of it. */
  method NormalizeDependencyNames(plan: seq<ProposedTask>) returns (r: Result<Graph, PlanError>, order: seq<Name>)
    ensures r.Ok? <==> DistinctNames(plan) && KnownDependencies(plan) && Acyclic(PlanGraph(plan))
    ensures r.Ok? ==> r.value == PlanGraph(plan) && Topological(PlanGraph(plan), order)
    ensures r.Err? ==> Explains(plan, r.error)
  {
    order := [];
    var duplicate := CheckNames(plan);
    if duplicate.Some? {
      return Err(duplicate.value), order;
    }
    var g := CollectDependencies(plan);
    if g.Err? {
      return g, order;
    }
    PlanGraphKeys(plan);
    PlanGraphClosed(plan);
    var names := NamesOf(plan);
    assert forall i :: 0 <= i < |plan| ==> names[i] == plan[i].name;
    var v := VisitAll(g.value, names);
    if v.Err? {
      return Err(v.error), order;
    }
    return g, v.value;
  }

  /** What an error says about the plan. */
  ghost predicate Explains(plan: seq<ProposedTask>, e: PlanError) {
    match e
    case DuplicateName(n) => Repeated(plan, n)
    case CyclicDependency(n) => DistinctNames(plan) && KnownDependencies(plan) && OnCycle(PlanGraph(plan), n)
    case _ => exists i :: 0 <= i < |plan| && BadDependency(plan, plan[i], e)
  }

  // ---------- From names to tasks ----------

  /** What `build_task` makes of one proposed task: registry, scope and argument checks are not modelled. */
  datatype Built = Built(task: Task, idempotencyKey: string)

  ghost predicate AllBuild(plan: seq<ProposedTask>, build: ProposedTask -> Option<Built>) {
    forall i :: 0 <= i < |plan| ==> build(plan[i]).Some?
  }

  ghost predicate DistinctKeys(plan: seq<ProposedTask>, build: ProposedTask -> Option<Built>)
    requires AllBuild(plan, build)
  {
    forall i, j :: 0 <= i < j < |plan| ==> build(plan[i]).value.idempotencyKey != build(plan[j]).value.idempotencyKey
  }

  method BuildAll(plan: seq<ProposedTask>, build: ProposedTask -> Option<Built>)
    returns (r: Result<seq<Built>, PlanError>, ids: map<Name, Id>)
    requires DistinctNames(plan)
    ensures r.Ok? <==> AllBuild(plan, build)
    ensures r.Ok? ==> |r.value| == |plan| && forall i :: 0 <= i < |plan| ==> build(plan[i]) == Some(r.value[i])
    ensures r.Ok? ==> forall i :: 0 <= i < |plan| ==> plan[i].name in ids && ids[plan[i].name] == r.value[i].task.id
    ensures r.Ok? ==> forall n :: n in ids ==> Names(plan, n)
  {
    ids := map[];
    var built: seq<Built> := [];
    for i := 0 to |plan|
      invariant |built| == i && forall k :: 0 <= k < i ==> build(plan[k]) == Some(built[k])
      invariant forall k :: 0 <= k < i ==> plan[k].name in ids && ids[plan[k].name] == built[k].task.id
      invariant forall n :: n in ids ==> exists k :: 0 <= k < i && plan[k].name == n
    {
      var b := build(plan[i]);
      if b.None? {
        return Err(BuildFailed(plan[i].name)), ids;
      }
      built := built + [b.value];
      ids := ids[plan[i].name := b.value.task.id];
    }
    return Ok(built), ids;
  }

  method CheckKeys(plan: seq<ProposedTask>, built: seq<Built>) returns (r: Option<PlanError>)
    requires |built| == |plan|
    ensures r.None? <==> forall i, j :: 0 <= i < j < |built| ==> built[i].idempotencyKey != built[j].idempotencyKey
  {
    var seen: map<string, Name> := map[];
    for i := 0 to |plan|
      invariant forall k :: k in seen ==> exists j :: 0 <= j < i && built[j].idempotencyKey == k
      invariant forall j :: 0 <= j < i ==> built[j].idempotencyKey in seen
      invariant forall j, k :: 0 <= j < k < i ==> built[j].idempotencyKey != built[k].idempotencyKey
    {
      var key := built[i].idempotencyKey;
      if key in seen {
        return Some(DuplicateIdempotencyKey(seen[key], plan[i].name));
      }
      seen := seen[key := plan[i].name];
    }
    return None;
  }

  /** The built tasks with dependencies resolved to the ids of the tasks they name. */
  ghost predicate Resolved(
    plan: seq<ProposedTask>, build: ProposedTask -> Option<Built>, ids: map<Name, Id>, tasks: seq<Task>)
  {
    && |tasks| == |plan| && AllBuild(plan, build)
    && (forall n :: n in ids ==> Names(plan, n))
    && forall i :: 0 <= i < |plan| ==>
         && plan[i].name in ids && ids[plan[i].name] == tasks[i].id
         && tasks[i] == build(plan[i]).value.task.(dependsOn := RenameAll(ids, Dedup(plan[i].dependsOn)))
  }

  /** The tasks' own dependency graph. */
  function TaskGraph(tasks: seq<Task>): Graph {
    if tasks == [] then map[]
    else TaskGraph(tasks[..|tasks| - 1])[tasks[|tasks| - 1].id := tasks[|tasks| - 1].dependsOn]
  }

  lemma {:induction false} TaskGraphAt(tasks: seq<Task>)
    requires DistinctIds(tasks)
    ensures forall i :: 0 <= i < |tasks| ==>
              tasks[i].id in TaskGraph(tasks) && TaskGraph(tasks)[tasks[i].id] == tasks[i].dependsOn
    ensures forall id :: id in TaskGraph(tasks) ==> exists i :: 0 <= i < |tasks| && tasks[i].id == id
    decreases |tasks|
  {
    if tasks != [] {
      var before, last := tasks[..|tasks| - 1], tasks[|tasks| - 1];
      TaskGraphAt(before);
      forall id | id in TaskGraph(tasks)
        ensures exists i :: 0 <= i < |tasks| && tasks[i].id == id
      {
        if id == last.id {
          assert tasks[|tasks| - 1].id == id;
        } else {
          var i :| 0 <= i < |before| && before[i].id == id;
          assert tasks[i].id == id;
        }
      }
    }
  }

  lemma ResolvedInjective(
    plan: seq<ProposedTask>, build: ProposedTask -> Option<Built>, ids: map<Name, Id>, tasks: seq<Task>)
    requires DistinctNames(plan) && Resolved(plan, build, ids, tasks) && DistinctIds(tasks)
    ensures InjectiveOn(ids, PlanGraph(plan).Keys)
  {
    PlanGraphKeys(plan);
    forall a, b | a in PlanGraph(plan).Keys && b in PlanGraph(plan).Keys && Renamed(ids, a) == Renamed(ids, b)
      ensures a == b
    {
      var i :| 0 <= i < |plan| && plan[i].name == a;
      var j :| 0 <= j < |plan| && plan[j].name == b;
      assert tasks[i].id == tasks[j].id;
    }
  }

  /** The built tasks depend on each other exactly as the plan says, under the names' ids. */
  lemma ResolvedNode(
    plan: seq<ProposedTask>, build: ProposedTask -> Option<Built>, ids: map<Name, Id>, tasks: seq<Task>,
                     i: nat)
    requires DistinctNames(plan) && Resolved(plan, build, ids, tasks) && DistinctIds(tasks) && i < |plan|
    ensures var g, h, n := PlanGraph(plan), TaskGraph(tasks), plan[i].name;
            && n in g && Renamed(ids, n) == tasks[i].id && tasks[i].id in h
            && h[tasks[i].id] == RenameAll(ids, g[n])
  {
    PlanGraphAt(plan);
    TaskGraphAt(tasks);
    hide PlanGraph, TaskGraph, AllBuild;
    assert plan[i].name in ids && ids[plan[i].name] == tasks[i].id;
  }

  lemma TaskOf(tasks: seq<Task>, x: Id) returns (i: nat)
    requires DistinctIds(tasks) && x in TaskGraph(tasks)
    ensures i < |tasks| && tasks[i].id == x
  {
    TaskGraphAt(tasks);
    i :| 0 <= i < |tasks| && tasks[i].id == x;
  }

  lemma NameOf(plan: seq<ProposedTask>, n: Name) returns (i: nat)
    requires n in PlanGraph(plan)
    ensures i < |plan| && plan[i].name == n
  {
    PlanGraphKeys(plan);
    assert Names(plan, n);
    i :| 0 <= i < |plan| && plan[i].name == n;
  }

  lemma ResolvedGraph(
    plan: seq<ProposedTask>, build: ProposedTask -> Option<Built>, ids: map<Name, Id>, tasks: seq<Task>)
    requires DistinctNames(plan) && Resolved(plan, build, ids, tasks) && DistinctIds(tasks)
    ensures RenamedGraph(ids, PlanGraph(plan), TaskGraph(tasks))
  {
    assert |tasks| == |plan|;
    hide PlanGraph, TaskGraph, RenameAll, Resolved, DistinctNames, Renamed, DistinctIds;
    forall x | x in TaskGraph(tasks)
      ensures exists n :: n in PlanGraph(plan) && Renamed(ids, n) == x
    {
      var i := TaskOf(tasks, x);
      ResolvedNode(plan, build, ids, tasks, i);
      assert plan[i].name in PlanGraph(plan) && Renamed(ids, plan[i].name) == x;
    }
    forall n | n in PlanGraph(plan)
      ensures && Renamed(ids, n) in TaskGraph(tasks)
              && TaskGraph(tasks)[Renamed(ids, n)] == RenameAll(ids, PlanGraph(plan)[n])
    {
      var i := NameOf(plan, n);
      ResolvedNode(plan, build, ids, tasks, i);
    }
  }

  lemma ResolvedTopological(plan: seq<ProposedTask>, build: ProposedTask -> Option<Built>, ids: map<Name, Id>,
                            order: seq<Name>, tasks: seq<Task>)
    requires DistinctNames(plan) && Resolved(plan, build, ids, tasks) && DistinctIds(tasks)
    requires Topological(PlanGraph(plan), order)
    ensures Topological(TaskGraph(tasks), RenameAll(ids, order))
  {
    ResolvedInjective(plan, build, ids, tasks);
    ResolvedGraph(plan, build, ids, tasks);
    RenamedTopological(ids, PlanGraph(plan), order, TaskGraph(tasks));
  }

  /** A plan becomes tasks exactly when its dependency check passes, every task builds and no two
      share an idempotency key. */
  method BuildTasks(plan: seq<ProposedTask>, build: ProposedTask -> Option<Built>)
    returns (r: Result<seq<Task>, PlanError>, ids: map<Name, Id>, order: seq<Name>)
    ensures r.Ok? <==> && DistinctNames(plan) && KnownDependencies(plan) && Acyclic(PlanGraph(plan))
                       && AllBuild(plan, build) && DistinctKeys(plan, build)
    ensures r.Ok? ==> Topological(PlanGraph(plan), order) && Resolved(plan, build, ids, r.value)
    ensures r.Ok? && DistinctIds(r.value) ==> Topological(TaskGraph(r.value), RenameAll(ids, order))
  {
    ids := map[];
    var names;
    names, order := NormalizeDependencyNames(plan);
    if names.Err? {
      return Err(names.error), ids, order;
    }
    var built;
    built, ids := BuildAll(plan, build);
    if built.Err? {
      return Err(built.error), ids, order;
    }
    var duplicate := CheckKeys(plan, built.value);
    assert duplicate.None? <==> DistinctKeys(plan, build);
    if duplicate.Some? {
      return Err(duplicate.value), ids, order;
    }
    var tasks := Resolve(plan, names.value, built.value, ids);
    if DistinctIds(tasks) {
      ResolvedTopological(plan, build, ids, order, tasks);
    }
    return Ok(tasks), ids, order;
  }

  method Resolve(
    plan: seq<ProposedTask>, names: Graph, built: seq<Built>, ids: map<Name, Id>) returns (tasks: seq<Task>)
    requires DistinctNames(plan) && names == PlanGraph(plan) && |built| == |plan|
    ensures |tasks| == |plan|
    ensures forall i :: 0 <= i < |plan| ==>
              tasks[i] == built[i].task.(dependsOn := RenameAll(ids, Dedup(plan[i].dependsOn)))
  {
    PlanGraphAt(plan);
    tasks := [];
    for i := 0 to |plan|
      invariant |tasks| == i
      invariant forall k :: 0 <= k < i ==>
                  tasks[k] == built[k].task.(dependsOn := RenameAll(ids, Dedup(plan[k].dependsOn)))
    {
      tasks := tasks + [built[i].task.(dependsOn := RenameAll(ids, names[plan[i].name]))];
    }
  }
}
