/** Scheduling does not depend on what ids are called: renaming every id consistently renames the
    answers of `executor/service/dependencies.py`, in the same order. */
module Renaming {
  import opened Wrappers
  import opened Sequences
  import opened Graphs
  import opened Lifecycle
  import opened Dependencies

  type Renaming = map<Id, Id>

  function RenameCall(calls: Renaming, c: Option<ToolCall>): Option<ToolCall> {
    if c.Some? then Some(c.value.(id := Renamed(calls, c.value.id))) else None
  }

  function RenameTask(m: Renaming, calls: Renaming, t: Task): (r: Task)
    ensures r.id == Renamed(m, t.id) && r.dependsOn == RenameAll(m, t.dependsOn) && r.status == t.status
  {
    t.(id := Renamed(m, t.id), dependsOn := RenameAll(m, t.dependsOn), toolCall := RenameCall(calls, t.toolCall))
  }

  function RenameTasks(m: Renaming, calls: Renaming, tasks: seq<Task>): (r: seq<Task>)
    ensures |r| == |tasks| && forall i :: 0 <= i < |tasks| ==> r[i] == RenameTask(m, calls, tasks[i])
  {
    seq(|tasks|, i requires 0 <= i < |tasks| => RenameTask(m, calls, tasks[i]))
  }

  /** All the ids a task mentions are in `u`. */
  ghost predicate Mentions(t: Task, u: set<Id>) {
    t.id in u && forall i :: 0 <= i < |t.dependsOn| ==> t.dependsOn[i] in u
  }

  ghost predicate AllMention(tasks: seq<Task>, u: set<Id>) {
    forall i :: 0 <= i < |tasks| ==> Mentions(tasks[i], u)
  }

  function Image(m: Renaming, s: set<Id>): set<Id> {
    set x | x in s :: Renamed(m, x)
  }

  lemma ImageMember(m: Renaming, u: set<Id>, s: set<Id>, id: Id)
    requires InjectiveOn(m, u) && s <= u && id in u
    ensures Renamed(m, id) in Image(m, s) <==> id in s
  {
  }

  lemma RenamedIn(m: Renaming, u: set<Id>, s: seq<Id>, id: Id)
    requires InjectiveOn(m, u) && id in u && forall i :: 0 <= i < |s| ==> s[i] in u
    ensures Renamed(m, id) in RenameAll(m, s) <==> id in s
  {
    if id in s {
      var i :| 0 <= i < |s| && s[i] == id;
      assert RenameAll(m, s)[i] == Renamed(m, id);
    }
    if Renamed(m, id) in RenameAll(m, s) {
      var i :| 0 <= i < |s| && RenameAll(m, s)[i] == Renamed(m, id);
      assert s[i] in u;
    }
  }

  // ---------- Looking up and readiness ----------

  lemma {:induction false} LookupRenames(m: Renaming, calls: Renaming, u: set<Id>, tasks: seq<Task>, id: Id)
    requires InjectiveOn(m, u) && AllMention(tasks, u) && id in u
    ensures Lookup(RenameTasks(m, calls, tasks), Renamed(m, id))
            == match Lookup(tasks, id) case None => None case Some(t) => Some(RenameTask(m, calls, t))
    decreases |tasks|
  {
    if tasks != [] {
      var before := tasks[..|tasks| - 1];
      LookupRenames(m, calls, u, before, id);
      assert RenameTasks(m, calls, tasks)[..|tasks| - 1] == RenameTasks(m, calls, before);
      assert Mentions(tasks[|tasks| - 1], u);
    }
  }

  lemma MetRenames(m: Renaming, calls: Renaming, u: set<Id>, tasks: seq<Task>, id: Id)
    requires InjectiveOn(m, u) && AllMention(tasks, u) && id in u
    ensures Met(RenameTasks(m, calls, tasks), Renamed(m, id)) <==> Met(tasks, id)
  {
    LookupRenames(m, calls, u, tasks, id);
    hide Lookup;
  }

  /** The unmet-dependency test gives the same answer. */
  lemma AllMetRenames(m: Renaming, calls: Renaming, u: set<Id>, tasks: seq<Task>, t: Task)
    requires InjectiveOn(m, u) && AllMention(tasks, u) && Mentions(t, u)
    ensures AllMet(RenameTasks(m, calls, tasks), RenameTask(m, calls, t)) <==> AllMet(tasks, t)
  {
    var t' := RenameTask(m, calls, t);
    forall i | 0 <= i < |t.dependsOn|
      ensures Met(RenameTasks(m, calls, tasks), t'.dependsOn[i]) <==> Met(tasks, t.dependsOn[i])
    {
      MetRenames(m, calls, u, tasks, t.dependsOn[i]);
    }
    hide Met;
  }

  ghost predicate Matches(m: Renaming, calls: Renaming, p: Task -> bool, q: Task -> bool, tasks: seq<Task>) {
    forall i :: 0 <= i < |tasks| ==> (q(RenameTask(m, calls, tasks[i])) <==> p(tasks[i]))
  }

  lemma {:induction false} FilterRenames(
    m: Renaming, calls: Renaming, p: Task -> bool, q: Task -> bool, tasks: seq<Task>)
    requires Matches(m, calls, p, q, tasks)
    ensures Filter(q, RenameTasks(m, calls, tasks)) == RenameTasks(m, calls, Filter(p, tasks))
    decreases |tasks|
  {
    hide RenameTask;
    if tasks != [] {
      var t, rest := tasks[0], tasks[1..];
      assert q(RenameTask(m, calls, t)) <==> p(t);
      assert Matches(m, calls, p, q, rest);
      FilterRenames(m, calls, p, q, rest);
      RenamesCons(m, calls, tasks);
      RenamesCons(m, calls, [t] + Filter(p, rest));
      hide RenameTasks, Matches;
      var renamed := [RenameTask(m, calls, t)] + RenameTasks(m, calls, rest);
      assert renamed[1..] == RenameTasks(m, calls, rest) && ([t] + Filter(p, rest))[1..] == Filter(p, rest);
    }
  }

  /** The ready dependents are the renamed ones, in order. */
  lemma ReadyRenames(m: Renaming, calls: Renaming, u: set<Id>, tasks: seq<Task>, id: Id)
    requires InjectiveOn(m, u) && AllMention(tasks, u) && id in u
    ensures Ready(Renamed(m, id), RenameTasks(m, calls, tasks)) == RenameTasks(m, calls, Ready(id, tasks))
  {
    var tasks', id' := RenameTasks(m, calls, tasks), Renamed(m, id);
    forall i | 0 <= i < |tasks|
      ensures ReadyAfter(id', tasks')(RenameTask(m, calls, tasks[i])) <==> ReadyAfter(id, tasks)(tasks[i])
    {
      var t := tasks[i];
      assert Mentions(t, u);
      AllMetRenames(m, calls, u, tasks, t);
      RenamedIn(m, u, t.dependsOn, id);
      hide AllMet;
    }
    FilterRenames(m, calls, ReadyAfter(id, tasks), ReadyAfter(id', tasks'), tasks);
  }

  // ---------- Blocked dependents ----------

  lemma RenamesAppend(m: Renaming, calls: Renaming, a: seq<Task>, b: seq<Task>)
    ensures RenameTasks(m, calls, a + b) == RenameTasks(m, calls, a) + RenameTasks(m, calls, b)
  {
  }

  lemma RenamesCons(m: Renaming, calls: Renaming, d: seq<Task>)
    requires d != []
    ensures RenameTasks(m, calls, d) == [RenameTask(m, calls, d[0])] + RenameTasks(m, calls, d[1..])
  {
    hide RenameTask;
  }

  lemma {:induction false} DictSetRenames(m: Renaming, calls: Renaming, u: set<Id>, d: seq<Task>, t: Task)
    requires InjectiveOn(m, u) && AllMention(d, u) && Mentions(t, u)
    ensures DictSet(RenameTasks(m, calls, d), RenameTask(m, calls, t)) == RenameTasks(m, calls, DictSet(d, t))
    ensures AllMention(DictSet(d, t), u)
    decreases |d|
  {
    hide RenameTask, RenameTasks;
    if d == [] {
      RenamesCons(m, calls, [t]);
      assert RenameTasks(m, calls, [t]) == [RenameTask(m, calls, t)];
    } else {
      var rest := d[1..];
      assert Mentions(d[0], u);
      RenamesCons(m, calls, d);
      if d[0].id == t.id {
        RenamesCons(m, calls, [t] + rest);
        assert ([t] + rest)[1..] == rest;
      } else {
        DictSetRenames(m, calls, u, rest, t);
        RenamesCons(m, calls, [d[0]] + DictSet(rest, t));
        assert ([d[0]] + DictSet(rest, t))[1..] == DictSet(rest, t);
      }
    }
  }

  lemma {:induction false} PendingRenames(m: Renaming, calls: Renaming, u: set<Id>, tasks: seq<Task>)
    requires InjectiveOn(m, u) && AllMention(tasks, u)
    ensures PendingById(RenameTasks(m, calls, tasks)) == RenameTasks(m, calls, PendingById(tasks))
    ensures AllMention(PendingById(tasks), u)
    decreases |tasks|
  {
    if tasks != [] {
      var before, last := tasks[..|tasks| - 1], tasks[|tasks| - 1];
      PendingRenames(m, calls, u, before);
      assert RenameTasks(m, calls, tasks)[..|tasks| - 1] == RenameTasks(m, calls, before);
      assert Mentions(last, u);
      DictSetRenames(m, calls, u, PendingById(before), last);
    }
  }

  lemma {:induction false} CopiesRenames(m: Renaming, calls: Renaming, u: set<Id>, t: Task, id: Id, deps: seq<Id>)
    requires InjectiveOn(m, u) && id in u && forall i :: 0 <= i < |deps| ==> deps[i] in u
    ensures Copies(RenameTask(m, calls, t), Renamed(m, id), RenameAll(m, deps))
         == RenameTasks(m, calls, Copies(t, id, deps))
    decreases |deps|
  {
    hide RenameTask;
    if deps != [] {
      var before, last := deps[..|deps| - 1], deps[|deps| - 1];
      CopiesRenames(m, calls, u, t, id, before);
      assert RenameAll(m, deps)[..|deps| - 1] == RenameAll(m, before);
      assert last in u && (Renamed(m, last) == Renamed(m, id) <==> last == id);
      hide InjectiveOn, Renamed;
      RenamesAppend(m, calls, Copies(t, id, before), [t]);
      assert RenameTasks(m, calls, [t]) == [RenameTask(m, calls, t)];
    }
  }

  lemma {:induction false} DependentsRename(m: Renaming, calls: Renaming, u: set<Id>, pending: seq<Task>, id: Id)
    requires InjectiveOn(m, u) && AllMention(pending, u) && id in u
    ensures DependentsOf(RenameTasks(m, calls, pending), Renamed(m, id))
         == RenameTasks(m, calls, DependentsOf(pending, id))
    decreases |pending|
  {
    if pending != [] {
      var before, last := pending[..|pending| - 1], pending[|pending| - 1];
      DependentsRename(m, calls, u, before, id);
      assert RenameTasks(m, calls, pending)[..|pending| - 1] == RenameTasks(m, calls, before);
      assert Mentions(last, u);
      CopiesRenames(m, calls, u, last, id, last.dependsOn);
      RenamesAppend(m, calls, DependentsOf(before, id), Copies(last, id, last.dependsOn));
    }
  }

  lemma {:induction false} NewOnesRename(m: Renaming, calls: Renaming, u: set<Id>, dependents: seq<Task>, met: set<Id>)
    requires InjectiveOn(m, u) && met <= u && forall i :: 0 <= i < |dependents| ==> dependents[i].id in u
    ensures NewOnes(RenameTasks(m, calls, dependents), Image(m, met)) == RenameTasks(m, calls, NewOnes(dependents, met))
    decreases |dependents|
  {
    if dependents != [] {
      var t, rest := dependents[0], dependents[1..];
      assert RenameTasks(m, calls, dependents)[1..] == RenameTasks(m, calls, rest);
      ImageMember(m, u, met, t.id);
      if t.id in met {
        NewOnesRename(m, calls, u, rest, met);
      } else {
        NewOnesRename(m, calls, u, rest, met + {t.id});
        assert Image(m, met + {t.id}) == Image(m, met) + {Renamed(m, t.id)};
        RenamesAppend(m, calls, [t], NewOnes(rest, met + {t.id}));
        assert RenameTasks(m, calls, [t]) == [RenameTask(m, calls, t)];
      }
    }
  }

  lemma IdsRename(m: Renaming, calls: Renaming, tasks: seq<Task>)
    ensures IdsOf(RenameTasks(m, calls, tasks)) == RenameAll(m, IdsOf(tasks))
    ensures Elems(IdsOf(RenameTasks(m, calls, tasks))) == Image(m, Elems(IdsOf(tasks)))
  {
    ElemsRename(m, IdsOf(tasks));
  }

  lemma ElemsRename(m: Renaming, s: seq<Id>)
    ensures Elems(RenameAll(m, s)) == Image(m, Elems(s))
  {
    forall x | x in Elems(RenameAll(m, s))
      ensures x in Image(m, Elems(s))
    {
      var i :| 0 <= i < |s| && RenameAll(m, s)[i] == x;
      assert s[i] in Elems(s);
    }
    forall x | x in Image(m, Elems(s))
      ensures x in Elems(RenameAll(m, s))
    {
      var y :| y in Elems(s) && Renamed(m, y) == x;
      var i :| 0 <= i < |s| && s[i] == y;
      assert RenameAll(m, s)[i] == x;
    }
  }

  /** Everything a search sees is mentioned. */
  ghost predicate InView(
    pending: seq<Task>, queue: seq<Id>, seen: set<Id>, blockedIds: set<Id>, all: set<Id>, u: set<Id>)
  {
    && AllMention(pending, u) && Elems(queue) <= all && Elems(IdsOf(pending)) <= all && all <= u && seen <= u
    && blockedIds <= u
  }

  lemma BfsRenameReady(
    m: Renaming, calls: Renaming, u: set<Id>, pending: seq<Task>, queue: seq<Id>, seen: set<Id>, blockedIds: set<Id>,
    all: set<Id>)
    requires InView(pending, queue, seen, blockedIds, all, u)
    ensures Elems(RenameAll(m, queue)) <= Image(m, all)
    ensures Elems(IdsOf(RenameTasks(m, calls, pending))) <= Image(m, all)
  {
    ElemsRename(m, queue);
    IdsRename(m, calls, pending);
  }

  lemma ImageUnion(m: Renaming, a: set<Id>, b: set<Id>)
    ensures Image(m, a + b) == Image(m, a) + Image(m, b)
  {
  }

  lemma DependentsInView(u: set<Id>, pending: seq<Task>, id: Id)
    requires AllMention(pending, u)
    ensures forall i :: 0 <= i < |DependentsOf(pending, id)| ==> DependentsOf(pending, id)[i].id in u
  {
    DependentsMembers(pending, id);
    hide DependentsOf;
    forall i | 0 <= i < |DependentsOf(pending, id)|
      ensures DependentsOf(pending, id)[i].id in u
    {
      var k :| 0 <= k < |pending| && pending[k] == DependentsOf(pending, id)[i];
      assert Mentions(pending[k], u);
    }
  }

  lemma AddedInView(u: set<Id>, dependents: seq<Task>, met: set<Id>)
    requires forall i :: 0 <= i < |dependents| ==> dependents[i].id in u
    ensures Elems(IdsOf(NewOnes(dependents, met))) <= u
  {
    NewOnesFacts(dependents, met);
    var added := NewOnes(dependents, met);
    hide NewOnes;
    forall x | x in Elems(IdsOf(added))
      ensures x in u
    {
      var i :| 0 <= i < |added| && IdsOf(added)[i] == x;
      assert added[i] in added;
    }
  }

  /** One visit of the search, renamed. */
  lemma VisitRenames(
    m: Renaming, calls: Renaming, u: set<Id>, pending: seq<Task>, id: Id, seen: set<Id>, blockedIds: set<Id>)
    requires InjectiveOn(m, u) && AllMention(pending, u) && id in u && seen <= u && blockedIds <= u
    ensures var added := NewOnes(DependentsOf(pending, id), seen + {id} + blockedIds);
            && NewOnes(DependentsOf(RenameTasks(m, calls, pending), Renamed(m, id)),
                       Image(m, seen) + {Renamed(m, id)} + Image(m, blockedIds))
               == RenameTasks(m, calls, added)
            && Elems(IdsOf(added)) <= u
  {
    var met := seen + {id} + blockedIds;
    assert Image(m, met) == Image(m, seen) + {Renamed(m, id)} + Image(m, blockedIds);
    hide *;
    var dependents := DependentsOf(pending, id);
    DependentsRename(m, calls, u, pending, id);
    DependentsInView(u, pending, id);
    NewOnesRename(m, calls, u, dependents, met);
    AddedInView(u, dependents, met);
  }

  /** The search one visit later still sees only what is mentioned. */
  lemma InViewNext(
    u: set<Id>, pending: seq<Task>, queue: seq<Id>, seen: set<Id>, blockedIds: set<Id>, all: set<Id>, added: seq<Task>)
    requires InView(pending, queue, seen, blockedIds, all, u) && queue != [] && Elems(IdsOf(added)) <= u
    ensures queue[0] in u && seen <= u && blockedIds <= u && AllMention(pending, u)
    ensures InView(pending, queue[1..], seen, blockedIds, all, u)
    ensures Elems(queue[1..] + IdsOf(added)) <= all ==>
              InView(pending, queue[1..] + IdsOf(added), seen + {queue[0]}, blockedIds + Elems(IdsOf(added)), all, u)
  {
    assert queue[0] in Elems(queue) && Elems(queue[1..]) <= Elems(queue);
  }

  lemma RenameHead(m: Renaming, queue: seq<Id>)
    requires queue != []
    ensures RenameAll(m, queue) != [] && RenameAll(m, queue)[0] == Renamed(m, queue[0])
    ensures RenameAll(m, queue)[1..] == RenameAll(m, queue[1..])
  {
  }

  lemma {:induction false} BfsRenames(
    m: Renaming, calls: Renaming, u: set<Id>, pending: seq<Task>, queue: seq<Id>, seen: set<Id>, blockedIds: set<Id>,
    all: set<Id>)
    requires InjectiveOn(m, u) && InView(pending, queue, seen, blockedIds, all, u)
    ensures Elems(queue) <= all && Elems(IdsOf(pending)) <= all
    ensures Elems(RenameAll(m, queue)) <= Image(m, all) && Elems(IdsOf(RenameTasks(m, calls, pending))) <= Image(m, all)
    ensures Bfs(RenameTasks(m, calls, pending), RenameAll(m, queue), Image(m, seen), Image(m, blockedIds),
                Image(m, all))
            == RenameTasks(m, calls, Bfs(pending, queue, seen, blockedIds, all))
    decreases |all - seen|, |queue|
  {
    BfsRenameReady(m, calls, u, pending, queue, seen, blockedIds, all);
    if queue != [] {
      InViewNext(u, pending, queue, seen, blockedIds, all, []);
      hide *;
      var id, rest := queue[0], queue[1..];
      var pending', queue', all' := RenameTasks(m, calls, pending), RenameAll(m, queue), Image(m, all);
      RenameHead(m, queue);
      ImageMember(m, u, seen, id);
      if id in seen {
        BfsSkips(pending, queue, seen, blockedIds, all);
        BfsRenames(m, calls, u, pending, rest, seen, blockedIds, all);
        BfsSkips(pending', queue', Image(m, seen), Image(m, blockedIds), all');
      } else {
        var added := NewOnes(DependentsOf(pending, id), seen + {id} + blockedIds);
        BfsVisits(pending, queue, seen, blockedIds, all);
        VisitRenames(m, calls, u, pending, id, seen, blockedIds);
        BfsVisits(pending', queue', Image(m, seen), Image(m, blockedIds), all');
        InViewNext(u, pending, queue, seen, blockedIds, all, added);
        BfsRenames(m, calls, u, pending, rest + IdsOf(added), seen + {id}, blockedIds + Elems(IdsOf(added)), all);
        AfterVisit(m, calls, rest, added, seen, id, blockedIds);
        RenamesAppend(
          m, calls, added, Bfs(pending, rest + IdsOf(added), seen + {id}, blockedIds + Elems(IdsOf(added)), all));
      }
    }
  }

  lemma AfterVisit(
    m: Renaming, calls: Renaming, rest: seq<Id>, added: seq<Task>, seen: set<Id>, id: Id, blockedIds: set<Id>)
    ensures RenameAll(m, rest) + IdsOf(RenameTasks(m, calls, added)) == RenameAll(m, rest + IdsOf(added))
    ensures Image(m, seen) + {Renamed(m, id)} == Image(m, seen + {id})
    ensures Image(m, blockedIds) + Elems(IdsOf(RenameTasks(m, calls, added)))
         == Image(m, blockedIds + Elems(IdsOf(added)))
  {
    IdsRename(m, calls, added);
    ImageUnion(m, blockedIds, Elems(IdsOf(added)));
  }

  /** The blocked dependents are the renamed ones, in order. */
  lemma BlockedRenames(m: Renaming, calls: Renaming, u: set<Id>, tasks: seq<Task>, id: Id)
    requires InjectiveOn(m, u) && AllMention(tasks, u) && id in u
    ensures Blocked(Renamed(m, id), RenameTasks(m, calls, tasks)) == RenameTasks(m, calls, Blocked(id, tasks))
  {
    PendingRenames(m, calls, u, tasks);
    var pending := PendingById(tasks);
    UniverseRenames(m, calls, id, tasks);
    UniverseInView(u, id, tasks);
    BfsRenames(m, calls, u, pending, [id], {}, {}, Universe(id, tasks));
    assert RenameAll(m, [id]) == [Renamed(m, id)];
    assert Image(m, {}) == {};
  }

  lemma UniverseInView(u: set<Id>, id: Id, tasks: seq<Task>)
    requires AllMention(PendingById(tasks), u) && id in u
    ensures Elems([id]) <= Universe(id, tasks) <= u && Elems(IdsOf(PendingById(tasks))) <= Universe(id, tasks)
  {
    var pending := PendingById(tasks);
    forall x | x in Elems(IdsOf(pending))
      ensures x in u
    {
      var i :| 0 <= i < |pending| && IdsOf(pending)[i] == x;
      assert Mentions(pending[i], u);
    }
  }

  lemma UniverseRenames(m: Renaming, calls: Renaming, id: Id, tasks: seq<Task>)
    requires PendingById(RenameTasks(m, calls, tasks)) == RenameTasks(m, calls, PendingById(tasks))
    ensures Universe(Renamed(m, id), RenameTasks(m, calls, tasks)) == Image(m, Universe(id, tasks))
  {
    IdsRename(m, calls, PendingById(tasks));
    ImageUnion(m, {id}, Elems(IdsOf(PendingById(tasks))));
    assert Image(m, {id}) == {Renamed(m, id)};
  }
}
