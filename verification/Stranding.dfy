/** Being left behind is for good: what the stranding steps of a run mean for the tasks they strand. */
module Stranding {
  import opened Wrappers
  import opened Sequences
  import opened Graphs
  import opened Lifecycle
  import opened Dependencies
  import opened Executor
  import opened Scheduling
  import opened Interruptions
  import opened NoStall

  /** Nothing will notice the task: it is under way without a queue entry, parked, or ready with no entry
      of its own or of a dependency. */
  ghost predicate Lost(w: World, x: Id) {
    && x in w.tasks
    && var t := w.tasks[x];
    || (t.status in {Queued, Running} && x !in w.live)
    || Parked(t)
    || (t.status == Pending && Clear(w.tasks, t) && !Stirred(w, t))
  }

  lemma LostIsUnfinished(w: World, x: Id)
    requires Lost(w, x)
    ensures !Terminal(w.tasks[x])
  {
  }

  // ---------- Once lost, always lost ----------

  /** Entries only come back to tasks that were pending with this dependency or are the leased one. */
  lemma LostStays(w: World, w1: World, rank: Id -> nat, id: Id, x: Id)
    requires Base(w, rank) && Base(w1, rank) && Kept(w.tasks, w1.tasks) && Lost(w, x) && Touches(w, id, w1)
    requires id in w.live && (id == x ==> id in w.tasks && w1.tasks[id] == w.tasks[id])
    ensures w1.tasks[x] == w.tasks[x] && Lost(w1, x)
  {
    var t := w.tasks[x];
    assert t.id == x;
    if x != id {
      assert Touch(w, id, w1, x);
      if t.status == Pending {
        forall d | d in t.dependsOn
          ensures Done(w.tasks, d) && Done(w1.tasks, d) && d !in w1.live
        {
          assert d !in w.live && d != id;
          var i :| 0 <= i < |t.dependsOn| && t.dependsOn[i] == d;
          assert Done(w.tasks, t.dependsOn[i]);
          assert Touch(w, id, w1, d) && Progress(w.tasks[d], w1.tasks[d]);
        }
        assert w1.tasks[x] == t;
      }
    }
  }

  /** Dropping an entry does not help a lost task. */
  lemma LostAfterSettling(w: World, s: Settlement, x: Id)
    requires Lost(w, x)
    ensures Lost(Settle(w, s), x) && Settle(w, s).tasks == w.tasks
  {
  }

  lemma LeaseKeepsLost(w: World, rank: Id -> nat, id: Id, env: Env, x: Id)
    requires Base(w, rank) && Lost(w, x) && id in w.live
    ensures Listed(w.tasks, w.order)
    ensures var w1 := Handle(w, id, env).0; x in w1.tasks && w1.tasks[x] == w.tasks[x] && Lost(w1, x)
    ensures var w1 := Process(w, id, env).0; x in w1.tasks && w1.tasks[x] == w.tasks[x] && Lost(w1, x)
    ensures var w1 := TornLease(w, id, env); x in w1.tasks && w1.tasks[x] == w.tasks[x] && Lost(w1, x)
  {
    HandleBase(w, rank, id, env);
    HandleTouches(w, rank, id, env);
    TornLeaseBase(w, rank, id, env);
    TornLeaseTouches(w, rank, id, env);
    var (w1, reply, settlement) := Handle(w, id, env);
    hide Handle, TornLease, Base, Touches, Clear;
    LostStays(w, w1, rank, id, x);
    LostStays(w, TornLease(w, id, env), rank, id, x);
    if settlement.Some? {
      LostAfterSettling(w1, settlement.value, x);
    }
  }

  /** A change of one task that had not succeeded leaves other lost tasks lost. */
  lemma LostBeside(w: World, w1: World, rank: Id -> nat, id: Id, x: Id)
    requires Base(w, rank) && Lost(w, x) && id != x && OwnChange(w, id, w1.(live := w.live))
    requires w.tasks[id].status != Succeeded && forall y :: y != id ==> w1.live[y] == w.live[y]
    ensures x in w1.tasks && w1.tasks[x] == w.tasks[x] && Lost(w1, x)
  {
    var t := w.tasks[x];
    if t.status == Pending {
      forall d | d in t.dependsOn
        ensures d != id && Done(w1.tasks, d) && d !in w1.live
      {
        var i :| 0 <= i < |t.dependsOn| && t.dependsOn[i] == d;
        assert Done(w.tasks, t.dependsOn[i]);
        assert d !in w.live;
      }
    }
  }

  /** No decision about another task concerns a lost one. */
  lemma DecisionKeepsLost(w: World, rank: Id -> nat, s: RunStep, x: Id)
    requires Base(w, rank) && Listed(w.tasks, w.order) && Lost(w, x) && !(s.Refuse? && s.id == x)
    requires s.Approve? || s.HalfApprove? || s.Refuse?
    ensures var w1 := NoStall.Next(w, s); x in w1.tasks && w1.tasks[x] == w.tasks[x] && Lost(w1, x)
  {
    assert !Waiting(w, x);
    hide HalfApproving, Refusing, Lost, Base, Waiting, Listed;
    match s {
      case Approve(id, accepted) =>
        HalfApprovingFacts(w, rank, id);
        if Waiting(w, id) && accepted {
          LostBeside(w, Approving(w, id, accepted), rank, id, x);
        }
      case HalfApprove(id) =>
        HalfApprovingFacts(w, rank, id);
        if Waiting(w, id) {
          LostBeside(w, HalfApproving(w, id), rank, id, x);
        }
      case Refuse(id, nowMs) =>
        RefusingFacts(w, rank, id, nowMs);
        if Refusing(w, id, nowMs) != w {
          LostBeside(w, Refusing(w, id, nowMs), rank, id, x);
        }
    }
  }

  /** No step brings a lost task back, short of an operator's refusal of that very task. */
  lemma StepKeepsLost(w: World, rank: Id -> nat, s: RunStep, x: Id)
    requires Base(w, rank) && Lost(w, x) && !(s.Refuse? && s.id == x)
    ensures Listed(w.tasks, w.order)
    ensures var w1 := NoStall.Next(w, s); x in w1.tasks && w1.tasks[x] == w.tasks[x] && Lost(w1, x)
  {
    BaseListed(w, rank);
    hide Handle, Process, TornLease, PersistStarted, HalfApproving, Approving, Refusing, Lost, Base, Reached, Listed;
    match s {
      case Lease(id, env) => if id in w.live { LeaseKeepsLost(w, rank, id, env, x); }
      case Crash(id, env) => if id in w.live { LeaseKeepsLost(w, rank, id, env, x); }
      case Tear(id, env) => if id in w.live { LeaseKeepsLost(w, rank, id, env, x); }
      case Begin(id, nowMs) =>
        if id in w.live && Reached(w, id) {
          StartBase(w, rank, id, nowMs);
          LostBeside(w, PersistStarted(w, id, nowMs).0, rank, id, x);
        }
      case _ => DecisionKeepsLost(w, rank, s, x);
    }
  }

  ghost predicate NeverRefuses(steps: seq<RunStep>, x: Id) {
    forall k :: 0 <= k < |steps| ==> !(steps[k].Refuse? && steps[k].id == x)
  }

  /** A lost task stays exactly as it is in every continuation that does not refuse it. */
  lemma {:induction false} LostForever(w: World, rank: Id -> nat, steps: seq<RunStep>, x: Id)
    requires Base(w, rank) && Lost(w, x) && NeverRefuses(steps, x)
    ensures var end := NoStall.Run(w, rank, steps); x in end.tasks && end.tasks[x] == w.tasks[x] && Lost(end, x)
    decreases |steps|
  {
    if steps != [] {
      var before, last := steps[..|steps| - 1], steps[|steps| - 1];
      assert NeverRefuses(before, x);
      assert !(steps[|steps| - 1].Refuse? && steps[|steps| - 1].id == x);
      LostForever(w, rank, before, x);
      hide NoStall.Next, Lost, Base;
      StepKeepsLost(NoStall.Run(w, rank, before), rank, last, x);
    }
  }

  // ---------- Stranding loses somebody ----------

  lemma CachedLoses(w: World, rank: Id -> nat, id: Id, env: Env) returns (x: Id)
    requires Sound(w, rank) && id in w.live && env.attempt.Cached? && Strands(w, id, env)
    ensures Listed(w.tasks, w.order) && Lost(Process(w, id, env).0, x)
  {
    BaseListed(w, rank);
    CachedNext(w, rank, id, env);
    var w' := NoStall.Next(w, Lease(id, env));
    x :| Overlooked(w, id, x);
    var t := w.tasks[x];
    hide NoStall.Next, Process;
    assert x != id && w'.tasks[x] == t && w'.live[id] == 0;
    forall i | 0 <= i < |t.dependsOn|
      ensures Done(w'.tasks, t.dependsOn[i])
    {
      assert t.dependsOn[i] != id ==> Done(w.tasks, t.dependsOn[i]);
    }
    assert !Stirred(w', t);
    assert Lost(w', x);
  }

  /** What a success taken from the ledger does: the task succeeds, its entry goes, nothing else changes. */
  lemma CachedNext(w: World, rank: Id -> nat, id: Id, env: Env)
    requires Base(w, rank) && Reached(w, id) && id in w.live && env.attempt.Cached? && Loads(w, id)
    requires Enabled(w.tasks[id], Start(env.nowMs))
    ensures Listed(w.tasks, w.order)
    ensures var w' := NoStall.Next(w, Lease(id, env));
            && w' == Process(w, id, env).0
            && w'.live == w.live - multiset{id} && id in w'.tasks && w'.tasks == w.tasks[id := w'.tasks[id]]
            && w'.tasks[id].status == Succeeded
  {
    HandleCases(w, rank, id, env);
    CachedBase(w, rank, id, env.nowMs);
    hide Handle, UseCached, Base;
    var (w1, reply) := UseCached(w, id, env.nowMs);
    assert Conclude(w, id, env) == (w1, reply, Some(Ack(id)));
  }

  lemma DelayedLoses(w: World, rank: Id -> nat, id: Id, env: Env)
    requires Sound(w, rank) && id in w.live && env.attempt.Delayed? && Strands(w, id, env)
    ensures Listed(w.tasks, w.order) && Lost(Process(w, id, env).0, id)
  {
    HandleCases(w, rank, id, env);
    DelayedFacts(w, rank, id, env);
    var (w1, reply) := ExecuteTask(w, id, env);
    assert reply.Ok?;
    hide Handle, ExecuteTask, Sound, Base;
    assert Conclude(w, id, env) == (w1, reply, Some(Ack(id)));
    assert (w1.live - multiset{id})[id] == 0;
  }

  lemma ParkingLoses(w: World, rank: Id -> nat, id: Id, env: Env)
    requires Sound(w, rank) && id in w.live && Reached(w, id) && Parks(w, id, env)
    ensures Listed(w.tasks, w.order)
    ensures Lost(Handle(w, id, env).0, id) && Lost(Process(w, id, env).0, id) && Lost(TornLease(w, id, env), id)
  {
    HandleCases(w, rank, id, env);
    ExecuteSound(w, rank, id, env);
    var env' := env.(accepts := Nobody());
    HandleCases(w, rank, id, env');
    assert Parks(w, id, env');
    ExecuteSound(w, rank, id, env');
    hide Handle, ExecuteTask, Sound, Base, Parks;
    assert !Queues(w, id, env);
  }

  lemma TearLoses(w: World, rank: Id -> nat, id: Id, env: Env) returns (x: Id)
    requires Sound(w, rank) && id in w.live && Listed(w.tasks, w.order) && LeavesMark(w, id, env)
    ensures Lost(TornLease(w, id, env), x)
  {
    HandleBase(w, rank, id, env.(accepts := Nobody()));
    var w1 := Committed(w, id, env);
    TornIsMarked(w1, rank, id, env.accepts);
    var m := Mark(w1, id, env.accepts).value;
    hide Handle, Committed, QueueReady, Mark, Torn, Base, Joint;
    x := m.id;
  }

  /** Every stranding step other than a denial loses a task for good. */
  lemma StrandingLoses(w: World, rank: Id -> nat, s: RunStep) returns (x: Id)
    requires Sound(w, rank) && Listed(w.tasks, w.order) && StrandsAt(w, s) && !s.Refuse?
    ensures Lost(NoStall.Next(w, s), x)
  {
    hide Handle, Process, TornLease, Lost, Sound, Parks, Strands, LeavesMark, Base, Moves, Kept, HalfApproving;
    x := s.id;
    match s {
      case Lease(id, env) =>
        if Strands(w, id, env) {
          x := LeaseLoses(w, rank, id, env);
        } else {
          ParkingLoses(w, rank, id, env);
        }
      case Crash(id, env) => ParkingLoses(w, rank, id, env);
      case Tear(id, env) =>
        if LeavesMark(w, id, env) {
          x := TearLoses(w, rank, id, env);
        } else {
          ParkingLoses(w, rank, id, env);
        }
      case HalfApprove(id) => HalfApproveLoses(w, rank, id);
      case _ =>
    }
  }

  lemma LeaseLoses(w: World, rank: Id -> nat, id: Id, env: Env) returns (x: Id)
    requires Sound(w, rank) && id in w.live && Strands(w, id, env)
    ensures Listed(w.tasks, w.order) && Lost(Process(w, id, env).0, x)
  {
    if env.attempt.Cached? {
      x := CachedLoses(w, rank, id, env);
    } else {
      DelayedLoses(w, rank, id, env);
      x := id;
    }
  }

  lemma HalfApproveLoses(w: World, rank: Id -> nat, id: Id)
    requires Sound(w, rank) && Waiting(w, id) && id !in w.live
    ensures Lost(HalfApproving(w, id), id)
  {
    HalfApprovingFacts(w, rank, id);
    hide HalfApproving;
  }

  // ---------- Denials ----------

  lemma NotClear(tasks: Tasks, t: Task, d: Id)
    requires d in t.dependsOn && !Done(tasks, d)
    ensures !Clear(tasks, t)
  {
    var i :| 0 <= i < |t.dependsOn| && t.dependsOn[i] == d;
    assert !Done(tasks, t.dependsOn[i]);
  }

  /** A task with a canceled dependency never runs. */
  lemma {:induction false} NeverRuns(w: World, rank: Id -> nat, steps: seq<RunStep>, x: Id, d: Id)
    requires Base(w, rank) && x in w.tasks && w.tasks[x].status in {Pending, Canceled}
    requires d in w.tasks[x].dependsOn && d in w.tasks && w.tasks[d].status == Canceled
    ensures var end := NoStall.Run(w, rank, steps);
            && x in end.tasks && end.tasks[x].status in {Pending, Canceled}
            && end.tasks[x].dependsOn == w.tasks[x].dependsOn
            && d in end.tasks && end.tasks[d].status == Canceled
    decreases |steps|
  {
    if steps != [] {
      var before, last := steps[..|steps| - 1], steps[|steps| - 1];
      NeverRuns(w, rank, before, x, d);
      var w1 := NoStall.Run(w, rank, before);
      StepBase(w1, rank, last);
      var w2 := NoStall.Next(w1, last);
      hide NoStall.Next;
      assert Progress(w1.tasks[x], w2.tasks[x]) && Progress(w1.tasks[d], w2.tasks[d]);
      NotClear(w2.tasks, w2.tasks[x], d);
    }
  }

  /** After a stranding denial every pending dependent of the denied task can only wait or be canceled. */
  lemma DenialBlocks(w: World, rank: Id -> nat, id: Id, nowMs: int, steps: seq<RunStep>, x: Id)
    requires Sound(w, rank) && Listed(w.tasks, w.order) && StrandsAt(w, Refuse(id, nowMs))
    requires x in w.tasks && w.tasks[x].status == Pending && id in w.tasks[x].dependsOn
    ensures Base(Refusing(w, id, nowMs), rank)
    ensures var end := NoStall.Run(Refusing(w, id, nowMs), rank, steps);
            x in end.tasks && end.tasks[x].status in {Pending, Canceled}
  {
    RefusingFacts(w, rank, id, nowMs);
    NotOwnDependency(w, rank, id);
    var w1 := Refusing(w, id, nowMs);
    hide Refusing;
    assert w1.tasks[x] == w.tasks[x];
    NeverRuns(w1, rank, steps, x, id);
  }

  // ---------- Nothing left to do ----------

  /** With nothing active, nothing happens unless an operator refuses something. */
  lemma {:induction false} QuietStaysQuiet(w: World, rank: Id -> nat, steps: seq<RunStep>)
    requires Base(w, rank) && !Active(w) && forall k :: 0 <= k < |steps| ==> !steps[k].Refuse?
    ensures NoStall.Run(w, rank, steps) == w
    decreases |steps|
  {
    if steps != [] {
      QuietStaysQuiet(w, rank, steps[..|steps| - 1]);
      assert !steps[|steps| - 1].Refuse?;
    }
  }

  ghost predicate Unfinished(w: World) {
    exists id :: id in w.tasks && !Terminal(w.tasks[id])
  }

  lemma StrandedIsUnfinished(w: World, rank: Id -> nat, s: RunStep)
    requires Sound(w, rank) && Listed(w.tasks, w.order) && StrandsAt(w, s)
    ensures Unfinished(NoStall.Next(w, s))
  {
    if s.Refuse? {
      RefusingFacts(w, rank, s.id, s.nowMs);
      NotOwnDependency(w, rank, s.id);
      var x :| x in w.tasks && w.tasks[x].status == Pending && s.id in w.tasks[x].dependsOn;
      assert NoStall.Next(w, s).tasks[x] == w.tasks[x] && !Terminal(w.tasks[x]);
    } else {
      var x := StrandingLoses(w, rank, s);
      LostIsUnfinished(NoStall.Next(w, s), x);
    }
  }

  /** When any step strands a task and nothing else is active, the run is stuck short of its end. */
  lemma StrandedForever(w: World, rank: Id -> nat, s: RunStep, steps: seq<RunStep>)
    requires Sound(w, rank) && Listed(w.tasks, w.order) && StrandsAt(w, s)
    requires !Active(NoStall.Next(w, s)) && forall k :: 0 <= k < |steps| ==> !steps[k].Refuse?
    ensures Base(NoStall.Next(w, s), rank)
    ensures Unfinished(NoStall.Run(NoStall.Next(w, s), rank, steps))
  {
    StrandedIsUnfinished(w, rank, s);
    StepBase(w, rank, s);
    QuietStaysQuiet(NoStall.Next(w, s), rank, steps);
  }
}
