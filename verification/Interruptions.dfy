/** A worker that dies in the middle of a lease, and what a lease leaves alone. */
module Interruptions {
  import opened Wrappers
  import opened Sequences
  import opened Graphs
  import opened Lifecycle
  import opened Dependencies
  import opened Executor
  import opened Scheduling

  // ---------- Death between marking a dependent and enqueueing it ----------

  /** The first dependent the queue does not take. */
  function FirstRefused(ready: seq<Task>, accepts: Id -> bool): Option<Task> {
    if ready == [] then None
    else if !accepts(ready[0].id) then Some(ready[0])
    else FirstRefused(ready[1..], accepts)
  }

  function Marked(t: Task): Task {
    t.(status := Queued)
  }

  lemma MarkedFacts(t: Task)
    requires Joint(t) && t.status == Pending
    ensures TransitionTask(t, Queued) == Ok(Marked(t))
    ensures QueuedFrom(t, Marked(t))
  {
    StepExact(t, Queue);
  }

  lemma {:induction false} RefusedIsHeld(tasks: Tasks, ready: seq<Task>, accepts: Id -> bool)
    requires Holds(tasks, ready)
    ensures var m := FirstRefused(ready, accepts);
            m.Some? ==> m.value in ready && Holds(tasks, [m.value]) && !accepts(m.value.id)
    decreases |ready|
  {
    if ready != [] && accepts(ready[0].id) {
      var rest := ready[1..];
      assert Holds(tasks, rest) by {
        assert forall i :: 0 <= i < |rest| ==> rest[i] == ready[i + 1];
      }
      RefusedIsHeld(tasks, rest, accepts);
    }
  }

  /** Death leaves what a refusal leaves, except that the refused dependent stays marked. */
  lemma {:induction false} TornMarks(tasks: Tasks, live: multiset<Id>, ready: seq<Task>, accepts: Id -> bool)
    requires Holds(tasks, ready)
    ensures var q, torn := QueueAll(tasks, live, ready, accepts), QueueTorn(tasks, live, ready, accepts);
            var m := FirstRefused(ready, accepts);
            && (q.failure.Some? <==> m.Some?)
            && (m.None? ==> torn == q)
            && (m.Some? ==> && m.value.id in q.tasks && q.tasks[m.value.id] == m.value
                            && torn == Queueing(q.tasks[m.value.id := Marked(m.value)], q.live, q.failure))
    decreases |ready|
  {
    if ready != [] {
      var t := ready[0];
      MarkedFacts(t);
      hide TransitionTask, Joint;
      if accepts(t.id) {
        HoldsRest(tasks, ready, Marked(t));
        TornMarks(tasks[t.id := Marked(t)], live + multiset{t.id}, ready[1..], accepts);
      } else {
        assert tasks[t.id := t] == tasks;
      }
    }
  }

  ghost function ReadyAt(w: World, id: Id): seq<Task>
    requires Listed(w.tasks, w.order)
  {
    Ready(id, List(w.tasks, w.order))
  }

  /** Queueing the ready dependents, cut short. */
  ghost function Torn(w: World, id: Id, accepts: Id -> bool): World
    requires Listed(w.tasks, w.order)
  {
    var torn := QueueTorn(w.tasks, w.live, ReadyAt(w, id), accepts);
    w.(tasks := torn.tasks, live := torn.live)
  }

  /** The dependent that death leaves marked. */
  ghost function Mark(w: World, id: Id, accepts: Id -> bool): Option<Task>
    requires Listed(w.tasks, w.order)
  {
    FirstRefused(ReadyAt(w, id), accepts)
  }

  lemma TornIsMarked(w: World, rank: Id -> nat, id: Id, accepts: Id -> bool)
    requires Base(w, rank)
    ensures Listed(w.tasks, w.order)
    ensures var w1, m := QueueReady(w, id, accepts).0, Mark(w, id, accepts);
            && (m.None? ==> Torn(w, id, accepts) == w1)
            && (m.Some? ==>
                  && m.value.id in w1.tasks && w1.tasks[m.value.id] == m.value
                  && m.value.id in w.tasks && w.tasks[m.value.id] == m.value
                  && Joint(m.value) && m.value.status == Pending && id in m.value.dependsOn && Clear(w.tasks, m.value)
                  && w1.live[m.value.id] == w.live[m.value.id]
                  && Torn(w, id, accepts) == w1.(tasks := w1.tasks[m.value.id := Marked(m.value)]))
  {
    QueueReadyBase(w, rank, id, accepts);
    ListReady(w, id);
    var ready := ReadyAt(w, id);
    TornMarks(w.tasks, w.live, ready, accepts);
    RefusedIsHeld(w.tasks, ready, accepts);
    QueueAllFacts(w.tasks, w.live, ready, accepts);
    var q, m := QueueAll(w.tasks, w.live, ready, accepts), Mark(w, id, accepts);
    hide QueueAll, QueueTorn, Ready, List, FirstRefused;
    if m.Some? {
      assert QueuedOrSame(w.tasks, w.live, ready, q, m.value.id);
    }
  }

  /** Death in the middle of queueing keeps the base, as everything does. */
  lemma TornBase(w: World, rank: Id -> nat, id: Id, accepts: Id -> bool)
    requires Base(w, rank) && id in w.tasks && w.tasks[id].status == Succeeded
    ensures Listed(w.tasks, w.order)
    ensures Base(Torn(w, id, accepts), rank) && Framed(w, Torn(w, id, accepts))
  {
    TornIsMarked(w, rank, id, accepts);
    QueueReadyFrame(w, rank, id, accepts);
    var w1, m := QueueReady(w, id, accepts).0, Mark(w, id, accepts);
    hide Torn, QueueReady, Mark;
    if m.Some? {
      MarkMoves(w, w1, rank, m.value);
      FramedTrans(w, w1, Torn(w, id, accepts));
    }
  }

  lemma MarkMoves(w: World, w1: World, rank: Id -> nat, m: Task)
    requires Base(w1, rank) && Kept(w.tasks, w1.tasks) && m.id in w1.tasks && w1.tasks[m.id] == m
    requires m.status == Pending && Clear(w.tasks, m)
    ensures Clear(w1.tasks, m) && Moves(w1.tasks, m.id, Marked(m))
    ensures var w2 := w1.(tasks := w1.tasks[m.id := Marked(m)]); Base(w2, rank) && Framed(w1, w2)
  {
    forall i | 0 <= i < |m.dependsOn|
      ensures Done(w1.tasks, m.dependsOn[i])
    {
      assert Done(w.tasks, m.dependsOn[i]);
      assert Progress(w.tasks[m.dependsOn[i]], w1.tasks[m.dependsOn[i]]);
    }
    MarkedFacts(m);
    hide TransitionTask;
    UpdateEvolves(w1, rank, m.id, Marked(m));
    EvolvesKept(w1.tasks, w1.tasks[m.id := Marked(m)]);
  }

  /** Death in the middle of queueing keeps the run sound exactly when it leaves nothing marked, or the
      marked dependent has a queue entry anyway. */
  lemma TornExact(w: World, rank: Id -> nat, id: Id, accepts: Id -> bool)
    requires Sound(w, rank) && id in w.tasks && w.tasks[id].status == Succeeded
    ensures Listed(w.tasks, w.order)
    ensures var m := Mark(w, id, accepts);
            Sound(Torn(w, id, accepts), rank) <==> (m.Some? ==> m.value.id in w.live)
  {
    TornIsMarked(w, rank, id, accepts);
    QueueReadySound(w, rank, id, accepts);
    QueueReadyFrame(w, rank, id, accepts);
    var w1, m := QueueReady(w, id, accepts).0, Mark(w, id, accepts);
    hide QueueReady, Mark, Joint;
    if m.Some? {
      var w2 := w1.(tasks := w1.tasks[m.value.id := Marked(m.value)]);
      assert Torn(w, id, accepts) == w2;
      hide Torn;
      if m.value.id in w.live {
        MarkMoves(w, w1, rank, m.value);
        MoveSound(w1, rank, m.value.id, Marked(m.value));
      } else {
        assert !Lively(w2, m.value.id);
      }
    }
  }

  // ---------- A whole lease cut short ----------

  function Nobody(): Id -> bool {
    (id: Id) => false
  }

  /** With nobody accepted, queueing changes nothing: this is the state right after the commit. */
  lemma NobodyIsQueued(w: World, rank: Id -> nat, id: Id)
    requires Base(w, rank)
    ensures Listed(w.tasks, w.order) && QueueReady(w, id, Nobody()).0 == w
  {
    QueueReadyBase(w, rank, id, Nobody());
    var ready := ReadyAt(w, id);
    if ready != [] {
      MarkedFacts(ready[0]);
      assert w.tasks[ready[0].id := ready[0]] == w.tasks;
    }
  }

  /** The lease queues dependents: its task had succeeded, or its run just did. */
  ghost predicate Queues(w: World, id: Id, env: Env)
    requires Listed(w.tasks, w.order)
  {
    && id in w.tasks && !(Reached(w, id) && env.attempt.Cached?)
    && var w1 := Committed(w, id, env);
    id in w1.tasks && w1.tasks[id].status == Succeeded
  }

  /** What the lease has committed before it queues anybody. */
  ghost function Committed(w: World, id: Id, env: Env): World
    requires Listed(w.tasks, w.order)
  {
    Handle(w, id, env.(accepts := Nobody())).0
  }

  /** A lease whose worker dies after marking the first dependent that `env` does not let it enqueue. */
  ghost function TornLease(w: World, id: Id, env: Env): World
    requires Listed(w.tasks, w.order)
  {
    var w1 := Committed(w, id, env);
    if Queues(w, id, env) && Listed(w1.tasks, w1.order) then Torn(w1, id, env.accepts) else w1
  }

  /** The marked dependent has no queue entry. */
  ghost predicate LeavesMark(w: World, id: Id, env: Env)
    requires Listed(w.tasks, w.order)
  {
    && Queues(w, id, env)
    && var w1 := Committed(w, id, env);
    && Listed(w1.tasks, w1.order)
    && var m := Mark(w1, id, env.accepts);
    m.Some? && m.value.id !in w1.live
  }

  lemma TornLeaseBase(w: World, rank: Id -> nat, id: Id, env: Env)
    requires Base(w, rank)
    ensures Listed(w.tasks, w.order)
    ensures Base(TornLease(w, id, env), rank) && Framed(w, TornLease(w, id, env))
  {
    HandleBase(w, rank, id, env.(accepts := Nobody()));
    var w1 := Committed(w, id, env);
    hide Committed;
    WellFormedListed(w1);
    if Queues(w, id, env) {
      TornBase(w1, rank, id, env.accepts);
      FramedTrans(w, w1, Torn(w1, id, env.accepts));
    }
    hide Torn, Base, Framed;
  }

  lemma CommittedSound(w: World, rank: Id -> nat, id: Id, env: Env)
    requires Sound(w, rank) && id in w.live
    ensures Listed(w.tasks, w.order)
    ensures var w1 := Committed(w, id, env); Listed(w1.tasks, w1.order)
    ensures Sound(Committed(w, id, env), rank) <==> !(Reached(w, id) && Parks(w, id, env))
  {
    var env' := env.(accepts := Nobody());
    assert Parks(w, id, env') <==> Parks(w, id, env);
    hide Handle, Parks, Reached;
    HandleSound(w, rank, id, env');
    HandleBase(w, rank, id, env');
    WellFormedListed(Committed(w, id, env));
  }

  lemma ParkedQueuesNobody(w: World, rank: Id -> nat, id: Id, env: Env)
    requires Sound(w, rank) && Listed(w.tasks, w.order) && id in w.live && Reached(w, id) && Parks(w, id, env)
    ensures !Queues(w, id, env)
  {
    var env' := env.(accepts := Nobody());
    assert Parks(w, id, env');
    hide Handle, Parks, Sound, Base;
    ExecuteSound(w, rank, id, env');
    HandleCases(w, rank, id, env');
  }

  /** A worker may die at any point of a lease without stranding anybody, except in exactly two
      situations: it parks its own task, or it leaves a dependent marked that has no queue entry. */
  lemma TornLeaseExact(w: World, rank: Id -> nat, id: Id, env: Env)
    requires Sound(w, rank) && id in w.live
    ensures Listed(w.tasks, w.order)
    ensures Sound(TornLease(w, id, env), rank) <==> !(Reached(w, id) && Parks(w, id, env)) && !LeavesMark(w, id, env)
  {
    CommittedSound(w, rank, id, env);
    if Reached(w, id) && Parks(w, id, env) {
      ParkedQueuesNobody(w, rank, id, env);
    } else if Queues(w, id, env) {
      hide Committed, Parks, Reached, Torn, Mark, Sound, Listed;
      TornExact(Committed(w, id, env), rank, id, env.accepts);
    }
    hide Committed, Parks, Reached, Sound;
  }

  // ---------- What a lease leaves alone ----------

  /** Another task is as it was, or it was pending and depends on the leased one, or it was pending with a
      dependency that has not succeeded and has no new entry. */
  ghost predicate Touch(w: World, id: Id, w1: World, x: Id)
    requires x in w.tasks && x in w1.tasks
  {
    var t := w.tasks[x];
    || (w1.tasks[x] == t && w1.live[x] == w.live[x])
    || (t.status == Pending && id in t.dependsOn)
    || (t.status == Pending && w1.live[x] == w.live[x] && exists d :: d in t.dependsOn && !Done(w.tasks, d))
  }

  ghost predicate Touches(w: World, id: Id, w1: World) {
    && w1.tasks.Keys == w.tasks.Keys && w1.live[id] == w.live[id]
    && (forall x :: x !in w.tasks ==> w1.live[x] == w.live[x])
    && forall x :: x in w.tasks && x != id ==> Touch(w, id, w1, x)
  }

  lemma TouchesSelf(w: World, id: Id)
    ensures Touches(w, id, w)
  {
  }

  /** A change of the leased task alone. */
  lemma TouchesOwn(w: World, id: Id, w1: World)
    requires id in w1.tasks && id in w.tasks && w1.tasks == w.tasks[id := w1.tasks[id]] && w1.live == w.live
    ensures Touches(w, id, w1)
  {
    assert w1.tasks.Keys == w.tasks.Keys;
  }

  /** A first change of the leased task alone does not hide what the second touches. */
  lemma TouchesAfterOwn(w: World, id: Id, w1: World, w2: World)
    requires id in w.tasks && id in w1.tasks && w1.tasks == w.tasks[id := w1.tasks[id]] && w1.live == w.live
    requires w.tasks[id].status != Succeeded && Touches(w1, id, w2)
    ensures Touches(w, id, w2)
  {
    assert w1.tasks.Keys == w.tasks.Keys;
    forall x | x in w.tasks && x != id
      ensures Touch(w, id, w2, x)
    {
      assert Touch(w1, id, w2, x) && w1.tasks[x] == w.tasks[x];
    }
  }

  lemma QueuedTouch(w: World, id: Id, ready: seq<Task>, q: Queueing, w1: World, x: Id)
    requires x in w.tasks && x in w1.tasks && w1.tasks == q.tasks && w1.live == q.live && x in q.tasks
    requires QueuedOrSame(w.tasks, w.live, ready, q, x)
    requires forall t :: t in ready ==>
              t.status == Pending && id in t.dependsOn && t.id in w.tasks && w.tasks[t.id] == t
    ensures Touch(w, id, w1, x)
  {
    hide Done;
  }

  lemma QueueTouches(w: World, rank: Id -> nat, id: Id, accepts: Id -> bool)
    requires Base(w, rank) && id in w.tasks && w.tasks[id].status == Succeeded
    ensures Listed(w.tasks, w.order)
    ensures Touches(w, id, QueueReady(w, id, accepts).0)
  {
    QueueReadyBase(w, rank, id, accepts);
    ListReady(w, id);
    var ready := Ready(id, List(w.tasks, w.order));
    var q := QueueAll(w.tasks, w.live, ready, accepts);
    QueueAllFacts(w.tasks, w.live, ready, accepts);
    var w1 := QueueReady(w, id, accepts).0;
    hide QueueAll, Ready, List, QueueReady, Joint, Touch, Clear;
    assert QueuedOrSame(w.tasks, w.live, ready, q, id);
    forall x | x in w.tasks && x != id
      ensures Touch(w, id, w1, x)
    {
      QueuedTouch(w, id, ready, q, w1, x);
    }
  }

  lemma TouchSame(w: World, id: Id, w1: World, w2: World, x: Id)
    requires x in w.tasks && x in w1.tasks && x in w2.tasks && Touch(w, id, w1, x)
    requires w2.tasks[x] == w1.tasks[x] && w2.live == w1.live
    ensures Touch(w, id, w2, x)
  {
  }

  lemma TornTouches(w: World, rank: Id -> nat, id: Id, accepts: Id -> bool)
    requires Base(w, rank) && id in w.tasks && w.tasks[id].status == Succeeded
    ensures Listed(w.tasks, w.order)
    ensures Touches(w, id, Torn(w, id, accepts))
  {
    hide QueueReady, Mark, Torn, Joint, Base, Listed, Clear;
    TornIsMarked(w, rank, id, accepts);
    QueueTouches(w, rank, id, accepts);
    var w1, m := QueueReady(w, id, accepts).0, Mark(w, id, accepts);
    if m.Some? {
      var w2 := Torn(w, id, accepts);
      assert Touch(w, id, w2, m.value.id);
      hide Touch;
      forall x | x in w.tasks && x != id
        ensures Touch(w, id, w2, x)
      {
        if x != m.value.id {
          TouchSame(w, id, w1, w2, x);
        }
      }
    }
  }

  /** A blocked task has a dependency that has not succeeded: the given-up task or a pending one. */
  lemma BlockedHasCause(w: World, id: Id, t: Task)
    requires WellFormed(w) && id in w.tasks && w.tasks[id].status != Succeeded
    requires Listed(w.tasks, w.order) && t in Blocked(id, List(w.tasks, w.order))
    ensures exists d :: d in t.dependsOn && !Done(w.tasks, d)
  {
    WellFormedListed(w);
    var list := List(w.tasks, w.order);
    BlockedExact(id, list);
    PendingFacts(list);
    var pending := PendingById(list);
    hide Blocked, PendingById;
    var p: seq<Task> :| Chain(pending, id, p) && p[|p| - 1] == t;
    if |p| == 1 {
      assert id in t.dependsOn;
    } else {
      var before := p[|p| - 2];
      assert before.id in p[|p| - 2 + 1].dependsOn;
      assert before in pending;
      var k :| 0 <= k < |pending| && pending[k] == before;
      assert before in list && Stores(w, before);
    }
  }

  lemma CancelTouches(w: World, rank: Id -> nat, id: Id, nowMs: int)
    requires Base(w, rank) && id in w.tasks && w.tasks[id].status != Succeeded
    ensures Listed(w.tasks, w.order)
    ensures var r := CancelAll(w.tasks, Blocked(id, List(w.tasks, w.order)), nowMs);
            r.Ok? ==> Touches(w, id, w.(tasks := r.value))
  {
    CancelBlockedBase(w, rank, id, nowMs);
    ListBlocked(w, id);
    var blocked := Blocked(id, List(w.tasks, w.order));
    var r := CancelAll(w.tasks, blocked, nowMs);
    if r.Ok? {
      var w1 := w.(tasks := r.value);
      forall x | x in w.tasks && x != id
        ensures Touch(w, id, w1, x)
      {
        if w.tasks[x] in blocked {
          BlockedHasCause(w, id, w.tasks[x]);
        }
        hide CancelAll, Blocked, List;
      }
      hide CancelAll, Blocked, List;
    }
  }

  lemma OutcomeTouches(w: World, rank: Id -> nat, id: Id, outcome: Outcome, env: Env)
    requires Base(w, rank) && Reached(w, id)
    ensures Listed(w.tasks, w.order) && Loads(w, id)
    ensures Touches(w, id, PersistOutcome(w, id, outcome, env).0)
  {
    ReachedLoads(w, rank, id);
    TouchesSelf(w, id);
    hide Base, Joint, Applied, Evolves, Moves, Framed, ApplyStateTransition, QueueReady;
    hide CancelAll, Blocked, List, Listed, Touches;
    var t := w.tasks[id];
    var d := Classify(t, outcome);
    ApplyFacts(t, d, env.nowMs);
    var r := ApplyStateTransition(t, t.toolCall.value, d, env.nowMs);
    var (w1, reply) := PersistOutcome(w, id, outcome, env);
    if r.Ok? {
      var t' := r.value.task;
      AppliedMoves(w, rank, id, d, t');
      var w' := w.(tasks := w.tasks[id := t']);
      TouchesOwn(w, id, w');
      if t'.status == Succeeded {
        QueueTouches(w', rank, id, env.accepts);
        TouchesAfterOwn(w, id, w', w1);
      } else if t'.status in {Canceled, Failed} && !WillRetry(t', d) {
        CancelTouches(w', rank, id, env.nowMs);
        if reply.Ok? {
          TouchesAfterOwn(w, id, w', w1);
        }
      }
    }
  }

  lemma ExecuteTouches(w: World, rank: Id -> nat, id: Id, env: Env)
    requires Base(w, rank) && Reached(w, id)
    ensures Listed(w.tasks, w.order) && Loads(w, id)
    ensures Touches(w, id, ExecuteTask(w, id, env).0)
  {
    ReachedLoads(w, rank, id);
    TouchesSelf(w, id);
    StartBase(w, rank, id, env.nowMs);
    var w1 := PersistStarted(w, id, env.nowMs).0;
    TouchesOwn(w, id, w1);
    match env.attempt {
      case Cached =>
        CachedBase(w, rank, id, env.nowMs);
        var (w2, reply) := UseCached(w, id, env.nowMs);
        if reply.Ok? {
          TouchesOwn(w, id, w2);
        }
      case Delayed(_) =>
      case Ran(starts, outcome) =>
        OutcomeTouches(w, rank, id, outcome, env);
        OutcomeTouches(w1, rank, id, outcome, env);
        TouchesAfterOwn(w, id, w1, PersistOutcome(w1, id, outcome, env).0);
    }
    hide Touches, Base, PersistStarted, PersistOutcome, UseCached, Listed, Evolves, Moves;
  }

  /** Up to its settlement, a lease changes its own task, pending tasks that depend on it, and pending
      tasks that cannot run any more; everybody else keeps task and entries. */
  lemma HandleTouches(w: World, rank: Id -> nat, id: Id, env: Env)
    requires Base(w, rank)
    ensures Listed(w.tasks, w.order)
    ensures Touches(w, id, Handle(w, id, env).0)
    ensures id in w.tasks && w.tasks[id].status == WaitingApproval ==> Handle(w, id, env).0.tasks[id] == w.tasks[id]
  {
    HandleCases(w, rank, id, env);
    TouchesSelf(w, id);
    hide Handle, Base, Touches;
    if Reached(w, id) {
      ExecuteTouches(w, rank, id, env);
      hide ExecuteTask;
    } else if id in w.tasks && w.tasks[id].status == Succeeded {
      QueueTouches(w, rank, id, env.accepts);
    }
  }

  /** Only the leased task differs. */
  predicate OwnChange(w: World, id: Id, w1: World) {
    id in w.tasks && id in w1.tasks && w1 == w.(tasks := w.tasks[id := w1.tasks[id]])
  }

  lemma OutcomeOwn(w: World, rank: Id -> nat, id: Id, outcome: Outcome, env: Env)
    requires Base(w, rank) && Reached(w, id) && env.accepts == Nobody()
    ensures Listed(w.tasks, w.order) && Loads(w, id)
    ensures var w1 := PersistOutcome(w, id, outcome, env).0;
            id in w1.tasks && w1.tasks[id].status == Succeeded ==> OwnChange(w, id, w1)
  {
    ReachedLoads(w, rank, id);
    OutcomeBase(w, rank, id, outcome, env);
    var t := w.tasks[id];
    var d := Classify(t, outcome);
    ApplyFacts(t, d, env.nowMs);
    var r := ApplyStateTransition(t, t.toolCall.value, d, env.nowMs);
    var (w1, reply) := PersistOutcome(w, id, outcome, env);
    hide Base, Joint, Framed, ApplyStateTransition, QueueReady, CancelAll, Blocked, List, Listed;
    if r.Ok? {
      var t' := r.value.task;
      AppliedMoves(w, rank, id, d, t');
      var w' := w.(tasks := w.tasks[id := t']);
      if t'.status == Succeeded {
        NobodyIsQueued(w', rank, id);
      } else if t'.status in {Canceled, Failed} && !WillRetry(t', d) {
        CancelBlockedFrame(w', rank, id, env.nowMs);
      }
    }
  }

  /** Before anybody is queued, a lease that will queue has changed its own task at most. */
  lemma CommittedOwn(w: World, rank: Id -> nat, id: Id, env: Env)
    requires Base(w, rank) && Listed(w.tasks, w.order) && Queues(w, id, env)
    ensures OwnChange(w, id, Committed(w, id, env))
    ensures w.tasks[id].status == Succeeded ==> Committed(w, id, env) == w
  {
    hide Handle, Base, PersistStarted, Evolves, Moves, Joint, QueueReady;
    var env' := env.(accepts := Nobody());
    HandleCases(w, rank, id, env');
    var w1 := Committed(w, id, env);
    assert w.tasks[id := w.tasks[id]] == w.tasks;
    if Reached(w, id) {
      ReachedLoads(w, rank, id);
      StartBase(w, rank, id, env.nowMs);
      if env.attempt.Ran? {
        RanOwn(w, rank, id, env');
      }
    } else if w.tasks[id].status == Succeeded {
      NobodyIsQueued(w, rank, id);
    }
  }

  lemma RanOwn(w: World, rank: Id -> nat, id: Id, env: Env)
    requires Base(w, rank) && Reached(w, id) && env.accepts == Nobody() && env.attempt.Ran?
    ensures Listed(w.tasks, w.order) && Loads(w, id)
    ensures var w1 := ExecuteTask(w, id, env).0;
            id in w1.tasks && w1.tasks[id].status == Succeeded ==> OwnChange(w, id, w1)
  {
    hide PersistOutcome, Base, Framed, BeforeOutcome, Reached, Joint, Kept, Moves, Evolves;
    BeforeOutcomeFacts(w, rank, id, env);
    BeforeOutcomeOwn(w, rank, id, env);
    hide ExecuteTask;
    var (w1, failure) := BeforeOutcome(w, id, env);
    if failure.None? {
      OutcomeOwn(w1, rank, id, env.attempt.outcome, env);
      var w2 := PersistOutcome(w1, id, env.attempt.outcome, env).0;
      if id in w2.tasks && w2.tasks[id].status == Succeeded {
        assert w.tasks[id := w1.tasks[id]][id := w2.tasks[id]] == w.tasks[id := w2.tasks[id]];
      }
    } else {
      assert w1.tasks[id].status != Succeeded;
    }
  }

  lemma BeforeOutcomeOwn(w: World, rank: Id -> nat, id: Id, env: Env)
    requires Base(w, rank) && Reached(w, id) && env.attempt.Ran? && Loads(w, id)
    ensures var w1 := BeforeOutcome(w, id, env).0; OwnChange(w, id, w1) && w1.tasks[id].status != Succeeded
  {
    StartBase(w, rank, id, env.nowMs);
    hide PersistStarted, Base, Evolves, Moves;
    assert w.tasks[id := w.tasks[id]] == w.tasks;
  }

  lemma TornLeaseTouches(w: World, rank: Id -> nat, id: Id, env: Env)
    requires Base(w, rank)
    ensures Listed(w.tasks, w.order)
    ensures Touches(w, id, TornLease(w, id, env))
    ensures id in w.tasks && w.tasks[id].status == WaitingApproval ==> TornLease(w, id, env).tasks[id] == w.tasks[id]
  {
    var env' := env.(accepts := Nobody());
    HandleTouches(w, rank, id, env');
    HandleBase(w, rank, id, env');
    var w1 := Committed(w, id, env);
    WellFormedListed(w1);
    if Queues(w, id, env) {
      CommittedOwn(w, rank, id, env);
      TornTouches(w1, rank, id, env.accepts);
      hide Touches, Torn, Handle, Committed, Base;
      if w.tasks[id].status != Succeeded {
        TouchesAfterOwn(w, id, w1, Torn(w1, id, env.accepts));
      }
    }
  }
}
