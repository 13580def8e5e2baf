/** When handling a lease raises, so that the lease is left to expire. */
module Raising {
  import opened Wrappers
  import opened Graphs
  import opened Lifecycle
  import opened Dependencies
  import opened Executor
  import opened Scheduling
  import opened Interruptions

  /** The clock is not behind what the store has recorded. */
  ghost predicate Timely(w: World, nowMs: int) {
    forall id :: id in w.tasks ==> w.tasks[id].toolCall.Some? && NotBefore(w.tasks[id], nowMs)
  }

  /** A dependent that only `id` holds back, and that the queue would not take. */
  ghost predicate Unwelcome(w: World, id: Id, x: Id, accepts: Id -> bool) {
    && x in w.tasks && !accepts(x)
    && var t := w.tasks[x];
    && t.status == Pending && id in t.dependsOn
    && forall d :: d in t.dependsOn ==> d == id || Done(w.tasks, d)
  }

  ghost predicate AnyUnwelcome(w: World, id: Id, accepts: Id -> bool) {
    exists x :: Unwelcome(w, id, x, accepts)
  }

  /** The task is unknown; or it succeeds, or had succeeded, and the queue refuses a dependent; or the
      ledger has a result for a task that is already RUNNING; or a call that was never started asks for an
      approval while its task is not QUEUED. */
  ghost predicate Raises(w: World, id: Id, env: Env) {
    if id !in w.tasks then true
    else
      var t := w.tasks[id];
      if !Reached(w, id) then t.status == Succeeded && AnyUnwelcome(w, id, env.accepts)
      else
        match env.attempt
        case Cached => t.status == Running
        case Delayed(_) => false
        case Ran(starts, outcome) =>
          || (Classify(t, outcome) == DSucceeded && AnyUnwelcome(w, id, env.accepts))
          || (Classify(t, outcome) == DWaitingApproval && !starts && t.status in {Pending, Failed})
  }

  // ---------- Queueing ----------

  lemma {:induction false} RefusedExactly(ready: seq<Task>, accepts: Id -> bool)
    ensures FirstRefused(ready, accepts).Some? <==> exists t :: t in ready && !accepts(t.id)
    decreases |ready|
  {
    if ready != [] {
      RefusedExactly(ready[1..], accepts);
      assert ready == [ready[0]] + ready[1..];
    }
  }

  lemma RefusedIsUnwelcome(w: World, id: Id, accepts: Id -> bool)
    requires WellFormed(w) && Listed(w.tasks, w.order) && id in w.tasks && w.tasks[id].status == Succeeded
    ensures (exists t :: t in ReadyAt(w, id) && !accepts(t.id)) <==> AnyUnwelcome(w, id, accepts)
  {
    ListReady(w, id);
    var ready := ReadyAt(w, id);
    hide Ready, List, Listed, Joint;
    forall t | t in ready && !accepts(t.id)
      ensures Unwelcome(w, id, t.id, accepts)
    {
      ReadyIsClear(w, id, t);
    }
    forall x | Unwelcome(w, id, x, accepts)
      ensures w.tasks[x] in ready
    {
      assert Stores(w, w.tasks[x]) && Clear(w.tasks, w.tasks[x]);
    }
  }

  lemma QueueRaises(w: World, rank: Id -> nat, id: Id, accepts: Id -> bool)
    requires Base(w, rank) && id in w.tasks && w.tasks[id].status == Succeeded
    ensures Listed(w.tasks, w.order)
    ensures QueueReady(w, id, accepts).1.Some? <==> AnyUnwelcome(w, id, accepts)
  {
    QueueReadyBase(w, rank, id, accepts);
    RefusedIsUnwelcome(w, id, accepts);
    ListReady(w, id);
    var ready := ReadyAt(w, id);
    hide QueueAll, Ready, List, FirstRefused, Joint, AnyUnwelcome, QueueTorn, Clear;
    assert Holds(w.tasks, ready);
    TornMarks(w.tasks, w.live, ready, accepts);
    RefusedExactly(ready, accepts);
  }

  lemma ReadyIsClear(w: World, id: Id, t: Task)
    requires Clear(w.tasks, t)
    ensures forall d :: d in t.dependsOn ==> Done(w.tasks, d)
  {
  }

  // ---------- Outcomes ----------

  lemma StartsOnTime(w: World, rank: Id -> nat, id: Id, nowMs: int)
    requires Base(w, rank) && Reached(w, id) && Timely(w, nowMs)
    ensures Loads(w, id) && Joint(w.tasks[id])
    ensures w.tasks[id].status == Running || Enabled(w.tasks[id], Start(nowMs))
    ensures w.tasks[id].status == Running ==> !Enabled(w.tasks[id], Start(nowMs))
  {
  }

  /** On time, only a request for approval can be rejected. */
  lemma ApplyRaises(t: Task, d: Disposition, nowMs: int)
    requires Joint(t) && d != DCached && NotBefore(t, nowMs)
    requires t.status == Running || Enabled(t, Start(nowMs))
    ensures ApplyStateTransition(t, t.toolCall.value, d, nowMs).Err?
       <==> d == DWaitingApproval && t.status in {Pending, Failed}
  {
    match d {
      case DWaitingApproval => StepExact(t, Wait);
      case DDenied =>
        StepExact(t, Deny(nowMs));
        StepExact(t, Cancel(nowMs));
      case DCanceled => StepExact(t, Cancel(nowMs));
      case _ => CompletesOnTime(t, nowMs);
    }
    hide EnsureStarted, CompleteSucceeded, CompleteFailed, CompleteDenied, CompleteCanceled, MarkWaitingApproval;
  }

  lemma CompletesOnTime(t: Task, nowMs: int)
    requires Joint(t) && NotBefore(t, nowMs) && (t.status == Running || Enabled(t, Start(nowMs)))
    ensures var r := EnsureStarted(t, t.toolCall.value, nowMs);
            && r.Ok? && CompleteSucceeded(r.value.task, r.value.toolCall, nowMs).Ok?
            && CompleteFailed(r.value.task, r.value.toolCall, nowMs).Ok?
  {
    StartFacts(t, nowMs);
    EnsureStartedFacts(t, nowMs);
    var r := EnsureStarted(t, t.toolCall.value, nowMs);
    hide StartExecution;
    assert r.Ok?;
    assert NotBefore(r.value.task, nowMs);
    StepExact(r.value.task, Succeed(nowMs));
    StepExact(r.value.task, Fail(nowMs));
  }

  lemma {:induction false} CancelsOnTime(tasks: Tasks, blocked: seq<Task>, nowMs: int)
    requires Holds(tasks, blocked)
    requires forall i :: 0 <= i < |blocked| ==> blocked[i].toolCall.Some? && NotBefore(blocked[i], nowMs)
    ensures CancelAll(tasks, blocked, nowMs).Ok?
    decreases |blocked|
  {
    if blocked != [] {
      var t := blocked[0];
      StepExact(t, Cancel(nowMs));
      var t' := CompleteCanceled(t, t.toolCall.value, nowMs).value.task;
      assert t'.id == t.id;
      hide CompleteCanceled, Joint;
      HoldsRest(tasks, blocked, t');
      CancelsOnTime(tasks[t'.id := t'], blocked[1..], nowMs);
    }
  }

  lemma CancelBlockedOnTime(w: World, rank: Id -> nat, id: Id, nowMs: int)
    requires Base(w, rank) && id in w.tasks
    requires forall x :: x in w.tasks && x != id ==> w.tasks[x].toolCall.Some? && NotBefore(w.tasks[x], nowMs)
    ensures Listed(w.tasks, w.order)
    ensures CancelAll(w.tasks, Blocked(id, List(w.tasks, w.order)), nowMs).Ok?
  {
    ListBlocked(w, id);
    var blocked := Blocked(id, List(w.tasks, w.order));
    hide CancelAll, Blocked, List, Listed, Joint;
    assert Holds(w.tasks, blocked);
    forall i | 0 <= i < |blocked|
      ensures blocked[i].toolCall.Some? && NotBefore(blocked[i], nowMs)
    {
      assert blocked[i] in blocked && Stores(w, blocked[i]);
    }
    hide Holds;
    CancelsOnTime(w.tasks, blocked, nowMs);
  }

  /** Whether a dependent is unwelcome does not depend on the task itself. */
  lemma UnwelcomeBeside(w: World, rank: Id -> nat, id: Id, t': Task, accepts: Id -> bool)
    requires Base(w, rank) && id in w.tasks && t'.dependsOn == w.tasks[id].dependsOn
    ensures AnyUnwelcome(w.(tasks := w.tasks[id := t']), id, accepts) <==> AnyUnwelcome(w, id, accepts)
  {
    var w' := w.(tasks := w.tasks[id := t']);
    assert id !in w.tasks[id].dependsOn;
    hide Base;
    forall x
      ensures Unwelcome(w', id, x, accepts) <==> Unwelcome(w, id, x, accepts)
    {
    }
  }

  lemma OutcomeRaises(w: World, rank: Id -> nat, id: Id, outcome: Outcome, env: Env)
    requires Base(w, rank) && Reached(w, id) && Timely(w, env.nowMs)
    ensures Listed(w.tasks, w.order) && Loads(w, id)
    ensures PersistOutcome(w, id, outcome, env).1.Err?
       <==> || (Classify(w.tasks[id], outcome) == DSucceeded && AnyUnwelcome(w, id, env.accepts))
            || (Classify(w.tasks[id], outcome) == DWaitingApproval && w.tasks[id].status in {Pending, Failed})
  {
    hide Base, Reached, Joint, ApplyStateTransition, QueueReady, CancelAll, Blocked, List, Listed, AnyUnwelcome;
    hide Moves, Evolves, Framed, Enabled;
    ReachedLoads(w, rank, id);
    StartsOnTime(w, rank, id, env.nowMs);
    var t := w.tasks[id];
    var d := Classify(t, outcome);
    assert d != DCached;
    ApplyRaises(t, d, env.nowMs);
    ApplyFacts(t, d, env.nowMs);
    var r := ApplyStateTransition(t, t.toolCall.value, d, env.nowMs);
    if r.Ok? {
      var t' := r.value.task;
      AppliedMoves(w, rank, id, d, t');
      var w' := w.(tasks := w.tasks[id := t']);
      if t'.status == Succeeded {
        hide Timely, NotBefore;
        QueueRaises(w', rank, id, env.accepts);
        UnwelcomeBeside(w, rank, id, t', env.accepts);
      } else if t'.status in {Canceled, Failed} {
        hide NotBefore;
        CancelBlockedOnTime(w', rank, id, env.nowMs);
      }
    }
  }

  // ---------- A lease ----------

  lemma StartedOnTime(w: World, rank: Id -> nat, id: Id, env: Env)
    requires Base(w, rank) && Reached(w, id) && Timely(w, env.nowMs) && env.attempt.Ran?
    ensures Loads(w, id)
    ensures var (w1, failure) := BeforeOutcome(w, id, env);
            && failure.None? && Timely(w1, env.nowMs) && id in w1.tasks
            && w1 == w.(tasks := w.tasks[id := w1.tasks[id]]) && w1.tasks[id].dependsOn == w.tasks[id].dependsOn
            && w1.tasks[id].status == if env.attempt.starts then Running else w.tasks[id].status
  {
    StartsOnTime(w, rank, id, env.nowMs);
    StartBase(w, rank, id, env.nowMs);
    StartFacts(w.tasks[id], env.nowMs);
    hide StartExecution, Base, Reached, Evolves, Joint;
    assert w.tasks[id := w.tasks[id]] == w.tasks;
  }

  lemma RanRaises(w: World, rank: Id -> nat, id: Id, env: Env)
    requires Base(w, rank) && Reached(w, id) && Timely(w, env.nowMs) && env.attempt.Ran?
    ensures Listed(w.tasks, w.order) && Loads(w, id)
    ensures ExecuteTask(w, id, env).1.Err? <==> Raises(w, id, env)
  {
    BeforeOutcomeFacts(w, rank, id, env);
    StartedOnTime(w, rank, id, env);
    hide ExecuteTask, PersistOutcome, BeforeOutcome, Base, Listed, Timely, Framed, AnyUnwelcome;
    var w1 := BeforeOutcome(w, id, env).0;
    OutcomeRaises(w1, rank, id, env.attempt.outcome, env);
    UnwelcomeBeside(w, rank, id, w1.tasks[id], env.accepts);
  }

  lemma CachedRaises(w: World, rank: Id -> nat, id: Id, env: Env)
    requires Base(w, rank) && Reached(w, id) && Timely(w, env.nowMs) && env.attempt.Cached?
    ensures Listed(w.tasks, w.order) && Loads(w, id)
    ensures ExecuteTask(w, id, env).1.Err? <==> w.tasks[id].status == Running
  {
    ReachedLoads(w, rank, id);
    StartsOnTime(w, rank, id, env.nowMs);
    CachedBase(w, rank, id, env.nowMs);
    hide UseCached, Base, Enabled;
  }

  lemma DelayedRaises(w: World, rank: Id -> nat, id: Id, env: Env)
    requires Base(w, rank) && Reached(w, id) && Timely(w, env.nowMs) && env.attempt.Delayed?
    ensures Listed(w.tasks, w.order) && Loads(w, id)
    ensures ExecuteTask(w, id, env).1.Ok?
  {
    ReachedLoads(w, rank, id);
    StartsOnTime(w, rank, id, env.nowMs);
    StartBase(w, rank, id, env.nowMs);
    hide PersistStarted, Base, Enabled, Moves, Evolves;
  }

  /** With a clock that is not behind, handling a lease raises exactly in these cases, and otherwise the
      lease is settled. */
  lemma RaisesExactly(w: World, rank: Id -> nat, id: Id, env: Env)
    requires Base(w, rank) && Timely(w, env.nowMs)
    ensures Listed(w.tasks, w.order)
    ensures Handle(w, id, env).2.None? <==> Raises(w, id, env)
    ensures Handle(w, id, env).1.Err? <==> Handle(w, id, env).2.None?
  {
    HandleCases(w, rank, id, env);
    hide Handle, QueueReady, AnyUnwelcome, Base, ExecuteTask, Timely, Listed, Reached;
    if Reached(w, id) {
      if env.attempt.Cached? {
        CachedRaises(w, rank, id, env);
      } else if env.attempt.Delayed? {
        DelayedRaises(w, rank, id, env);
      } else {
        RanRaises(w, rank, id, env);
        hide Raises;
      }
    } else if id in w.tasks && w.tasks[id].status == Succeeded {
      QueueRaises(w, rank, id, env.accepts);
    }
  }
}
