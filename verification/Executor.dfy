/** The executor: `executor/service/core.py`, `persistence.py`, `state_transitions.py`, `outcomes.py` and
    `cache.py`.  A world holds the tasks of one run, the queue entries not yet settled and the log of
    settlements.  What the policy runner and the tool did, the clock and whether the queue accepts an
    entry are inputs. */
module Executor {
  import opened Wrappers
  import opened Lifecycle
  import opened Dependencies

  datatype Decision = Allowed | NeedsApproval | Refused

  datatype ApprovalStatus = ApprovalPending | Approved | ApprovalDenied

  datatype RetryDisposition = Transient | Permanent | ApprovalRequired

  /** What the policy runner reports of a tool call; `failure` is the error classifier's verdict. */
  datatype Outcome = Outcome(decision: Decision, approval: Option<ApprovalStatus>, ok: bool, failure: RetryDisposition)

  datatype Disposition =
    | DCached | DSucceeded | DFailedTransient | DFailedPermanent | DWaitingApproval | DDenied | DCanceled

  datatype Failure = TaskNotFound | ToolCallMissing | Rejected(error: Error) | DependentEnqueueError

  datatype NackReason = DependenciesUnmet | ExecutionDelayed | TransientFailure(attempts: int)

  datatype Settlement = Ack(id: Id) | Nack(id: Id, reason: NackReason)

  /** How the tool call went: answered from the ledger, delayed by a guard, or carried through to an
      outcome.  `starts` says whether the hook that marks the task running was called on the way. */
  datatype Attempt =
    | Cached
    | Delayed(starts: bool)
    | Ran(starts: bool, outcome: Outcome)

  datatype Env = Env(nowMs: int, attempt: Attempt, accepts: Id -> bool)

  datatype World = World(tasks: map<Id, Task>, order: seq<Id>, live: multiset<Id>, settled: seq<Settlement>)

  type Reply = Result<Disposition, Failure>

  // ---------- The store ----------

  ghost predicate Listed(tasks: map<Id, Task>, order: seq<Id>) {
    forall i :: 0 <= i < |order| ==> order[i] in tasks
  }

  /** `list_by_run`. */
  function List(tasks: map<Id, Task>, order: seq<Id>): (r: seq<Task>)
    requires Listed(tasks, order)
    ensures |r| == |order| && forall i :: 0 <= i < |order| ==> r[i] == tasks[order[i]]
  {
    seq(|order|, i requires 0 <= i < |order| => tasks[order[i]])
  }

  // ---------- Outcomes ----------

  function Classify(t: Task, outcome: Outcome): Disposition {
    if t.status == Canceled then DCanceled
    else if outcome.approval == Some(ApprovalDenied) then DDenied
    else if outcome.decision == Refused then DDenied
    else if outcome.ok then DSucceeded
    else
      match outcome.failure
      case ApprovalRequired => DWaitingApproval
      case Transient => DFailedTransient
      case Permanent => DFailedPermanent
  }

  function EnsureStarted(t: Task, c: ToolCall, nowMs: int): Result<ExecState, Error> {
    if t.status != Running || c.status != CallRunning then StartExecution(t, c, nowMs)
    else Ok(ExecState(t, c))
  }

  function ApplyStateTransition(t: Task, c: ToolCall, d: Disposition, nowMs: int): Result<ExecState, Error>
    requires d != DCached
  {
    match d
    case DWaitingApproval => MarkWaitingApproval(t, c)
    case DDenied =>
      if c.status == CallPending then CompleteDenied(t, c, nowMs) else CompleteCanceled(t, c, nowMs)
    case DCanceled => CompleteCanceled(t, c, nowMs)
    case DSucceeded =>
      (match EnsureStarted(t, c, nowMs)
       case Err(e) => Err(e)
       case Ok(s) => CompleteSucceeded(s.task, s.toolCall, nowMs))
    case _ =>
      (match EnsureStarted(t, c, nowMs)
       case Err(e) => Err(e)
       case Ok(s) => CompleteFailed(s.task, s.toolCall, nowMs))
  }

  // ---------- Dependents ----------

  datatype Queueing = Queueing(tasks: map<Id, Task>, live: multiset<Id>, failure: Option<Failure>)

  /** Queue dependents one by one.  A refused enqueue puts its task back and gives up on the rest. */
  function QueueAll(tasks: map<Id, Task>, live: multiset<Id>, ready: seq<Task>, accepts: Id -> bool): Queueing
    decreases |ready|
  {
    if ready == [] then Queueing(tasks, live, None)
    else
      match TransitionTask(ready[0], Queued)
      case Err(e) => Queueing(tasks, live, Some(Rejected(e)))
      case Ok(queued) =>
        if accepts(queued.id)
        then QueueAll(tasks[queued.id := queued], live + multiset{queued.id}, ready[1..], accepts)
        else Queueing(tasks[ready[0].id := ready[0]], live, Some(DependentEnqueueError))
  }

  /** The same, cut short by the worker's death: the first dependent not accepted is marked QUEUED in its
      own unit of work, and is then neither enqueued nor put back. */
  function QueueTorn(tasks: map<Id, Task>, live: multiset<Id>, ready: seq<Task>, accepts: Id -> bool): Queueing
    decreases |ready|
  {
    if ready == [] then Queueing(tasks, live, None)
    else
      match TransitionTask(ready[0], Queued)
      case Err(e) => Queueing(tasks, live, Some(Rejected(e)))
      case Ok(queued) =>
        if accepts(queued.id)
        then QueueTorn(tasks[queued.id := queued], live + multiset{queued.id}, ready[1..], accepts)
        else Queueing(tasks[queued.id := queued], live, Some(DependentEnqueueError))
  }

  lemma QueueAllSplits(tasks: map<Id, Task>, live: multiset<Id>, ready: seq<Task>, accepts: Id -> bool)
    requires ready != []
    ensures var first := QueueAll(tasks, live, [ready[0]], accepts);
            QueueAll(tasks, live, ready, accepts)
            == if first.failure.Some? then first else QueueAll(first.tasks, first.live, ready[1..], accepts)
  {
    assert [ready[0]][1..] == [];
    hide TransitionTask;
  }

  /** Cancel dependents one by one; one that cannot be canceled undoes the whole unit of work. */
  function CancelAll(tasks: map<Id, Task>, blocked: seq<Task>, nowMs: int): Result<map<Id, Task>, Error>
    decreases |blocked|
  {
    if blocked == [] then Ok(tasks)
    else if blocked[0].toolCall.None? then CancelAll(tasks, blocked[1..], nowMs)
    else
      match CompleteCanceled(blocked[0], blocked[0].toolCall.value, nowMs)
      case Err(e) => Err(e)
      case Ok(s) => CancelAll(tasks[s.task.id := s.task], blocked[1..], nowMs)
  }

  // ---------- One lease ----------

  predicate Loads(w: World, id: Id) {
    id in w.tasks && w.tasks[id].toolCall.Some?
  }

  function QueueReady(w: World, id: Id, accepts: Id -> bool): (World, Option<Failure>)
    requires Listed(w.tasks, w.order)
  {
    var q := QueueAll(w.tasks, w.live, Ready(id, List(w.tasks, w.order)), accepts);
    (w.(tasks := q.tasks, live := q.live), q.failure)
  }

  function WillRetry(t: Task, d: Disposition): bool {
    d == DFailedTransient && t.attempts < t.maxAttempts
  }

  function PersistOutcome(w: World, id: Id, outcome: Outcome, env: Env): (World, Reply)
    requires Listed(w.tasks, w.order) && Loads(w, id)
  {
    var t := w.tasks[id];
    var d := Classify(t, outcome);
    match ApplyStateTransition(t, t.toolCall.value, d, env.nowMs)
    case Err(e) => (w, Err(Rejected(e)))
    case Ok(s) =>
      var w1 := w.(tasks := w.tasks[id := s.task]);
      if s.task.status == Succeeded then
        var (w2, failure) := QueueReady(w1, id, env.accepts);
        (w2, if failure.Some? then Err(failure.value) else Ok(d))
      else if s.task.status in {Canceled, Failed} && !WillRetry(s.task, d) then
        match CancelAll(w1.tasks, Blocked(id, List(w1.tasks, w1.order)), env.nowMs)
        case Err(e) => (w, Err(Rejected(e)))
        case Ok(tasks) => (w1.(tasks := tasks), Ok(d))
      else (w1, Ok(d))
  }

  function PersistStarted(w: World, id: Id, nowMs: int): (World, Option<Failure>)
    requires Loads(w, id)
  {
    var t := w.tasks[id];
    if t.status == Running && t.toolCall.value.status == CallRunning then (w, None)
    else
      match StartExecution(t, t.toolCall.value, nowMs)
      case Err(e) => (w, Some(Rejected(e)))
      case Ok(s) => (w.(tasks := w.tasks[id := s.task]), None)
  }

  function UseCached(w: World, id: Id, nowMs: int): (World, Reply)
    requires Loads(w, id)
  {
    var t := w.tasks[id];
    match StartExecution(t, t.toolCall.value, nowMs)
    case Err(e) => (w, Err(Rejected(e)))
    case Ok(started) =>
      match CompleteSucceeded(started.task, started.toolCall, nowMs)
      case Err(e) => (w, Err(Rejected(e)))
      case Ok(s) => (w.(tasks := w.tasks[id := s.task]), Ok(DCached))
  }

  function ExecuteTask(w: World, id: Id, env: Env): (World, Reply)
    requires Listed(w.tasks, w.order) && Loads(w, id)
  {
    if w.tasks[id].status == Canceled then (w, Ok(DCanceled))
    else
      match env.attempt
      case Cached => UseCached(w, id, env.nowMs)
      case Delayed(starts) =>
        var (w1, failure) := if starts then PersistStarted(w, id, env.nowMs) else (w, None);
        (w1, if failure.Some? then Err(failure.value) else Ok(DFailedTransient))
      case Ran(starts, outcome) =>
        var (w1, failure) := if starts then PersistStarted(w, id, env.nowMs) else (w, None);
        if failure.Some? then (w1, Err(failure.value))
        else if !Loads(w1, id) then (w1, Err(ToolCallMissing))
        else PersistOutcome(w1, id, outcome, env)
  }

  predicate Exhausted(t: Task) {
    t.attempts >= t.maxAttempts && t.status in {Pending, Queued, Failed}
  }

  /** Run the task and decide: transient failures come back while attempts remain, all else is done. */
  function Conclude(w: World, id: Id, env: Env): (World, Reply, Option<Settlement>)
    requires Listed(w.tasks, w.order) && Loads(w, id)
  {
    var (w1, reply) := ExecuteTask(w, id, env);
    match reply
    case Err(_) => (w1, reply, None)
    case Ok(d) =>
      if d == DFailedTransient && id in w1.tasks && w1.tasks[id].attempts < w1.tasks[id].maxAttempts then
        var reason := if env.attempt.Delayed? then ExecutionDelayed else TransientFailure(w1.tasks[id].attempts);
        (w1, reply, Some(Nack(id, reason)))
      else (w1, reply, Some(Ack(id)))
  }

  /** The store and queue after a lease was handled, up to but not including its settlement, and how
      it is to be settled. */
  function Handle(w: World, id: Id, env: Env): (World, Reply, Option<Settlement>)
    requires Listed(w.tasks, w.order)
  {
    if id !in w.tasks then (w, Err(TaskNotFound), None)
    else if w.tasks[id].toolCall.None? then (w, Err(ToolCallMissing), None)
    else
      var t := w.tasks[id];
      if t.status in {Pending, Queued} && !AllMet(List(w.tasks, w.order), t) then
        (w, Ok(DFailedTransient), Some(Nack(id, DependenciesUnmet)))
      else if t.status == Succeeded then
        var (w1, failure) := QueueReady(w, id, env.accepts);
        if failure.Some? then (w1, Err(failure.value), None) else (w1, Ok(DSucceeded), Some(Ack(id)))
      else if t.status == WaitingApproval then (w, Ok(DWaitingApproval), Some(Ack(id)))
      else if t.status == Canceled then (w, Ok(DCanceled), Some(Ack(id)))
      else if Exhausted(t) then (w, Ok(DFailedPermanent), Some(Ack(id)))
      else Conclude(w, id, env)
  }

  /** An acked entry is gone; a nacked one comes back. */
  function Settle(w: World, s: Settlement): World {
    w.(live := if s.Ack? then w.live - multiset{s.id} else w.live, settled := w.settled + [s])
  }

  function Process(w: World, id: Id, env: Env): (World, Reply)
    requires Listed(w.tasks, w.order)
  {
    var (w1, reply, settlement) := Handle(w, id, env);
    (if settlement.Some? then Settle(w1, settlement.value) else w1, reply)
  }

  // ---------- The service ----------

  class ExecutorService {
    var tasks: map<Id, Task>
    var order: seq<Id>
    var live: multiset<Id>
    var settled: seq<Settlement>

    ghost function State(): World
      reads this
    {
      World(tasks, order, live, settled)
    }

    ghost predicate Valid()
      reads this
    {
      Listed(tasks, order)
    }

    constructor (tasks: map<Id, Task>, order: seq<Id>, live: multiset<Id>)
      requires Listed(tasks, order)
      ensures Valid() && State() == World(tasks, order, live, [])
    {
      this.tasks, this.order, this.live, this.settled := tasks, order, live, [];
    }

    method EnqueueReadyDependent(t: Task, accepts: Id -> bool) returns (failure: Option<Failure>)
      requires Valid()
      modifies this`tasks, this`live
      ensures Valid()
      ensures var q := QueueAll(old(tasks), old(live), [t], accepts);
              tasks == q.tasks && live == q.live && failure == q.failure
    {
      var queued := TransitionTask(t, Queued);
      if queued.Err? {
        return Some(Rejected(queued.error));
      }
      tasks := tasks[t.id := queued.value];
      if !accepts(t.id) {
        tasks := tasks[t.id := t];
        return Some(DependentEnqueueError);
      }
      live := live + multiset{t.id};
      assert [t][1..] == [];
      return None;
    }

    method QueueReadyDependents(id: Id, accepts: Id -> bool) returns (failure: Option<Failure>)
      requires Valid()
      modifies this`tasks, this`live
      ensures Valid()
      ensures (State(), failure) == QueueReady(old(State()), id, accepts)
    {
      var listing := List(tasks, order);
      var ready := ReadyDependentsAfterSuccess(id, listing);
      hide QueueAll, Ready, List, Listed;
      for i := 0 to |ready|
        invariant Valid()
        invariant QueueAll(tasks, live, ready[i..], accepts) == QueueAll(old(tasks), old(live), ready, accepts)
      {
        assert ready[i..][1..] == ready[i + 1..];
        QueueAllSplits(tasks, live, ready[i..], accepts);
        failure := EnqueueReadyDependent(ready[i], accepts);
        if failure.Some? {
          return;
        }
      }
      return None;
    }

    method CancelBlockedDependents(id: Id, nowMs: int) returns (error: Option<Error>)
      requires Valid()
      modifies this`tasks
      ensures Valid()
      ensures match CancelAll(old(tasks), Blocked(id, List(old(tasks), order)), nowMs)
              case Ok(canceled) => error.None? && tasks == canceled
              case Err(e) => error == Some(e)
    {
      var listing := List(tasks, order);
      var blocked := BlockedDependentsAfterFailure(id, listing);
      hide Blocked, List, CompleteCanceled, Reaches, PendingById, DistinctIds;
      for i := 0 to |blocked|
        invariant Valid()
        invariant CancelAll(tasks, blocked[i..], nowMs) == CancelAll(old(tasks), blocked, nowMs)
      {
        assert blocked[i..][1..] == blocked[i + 1..];
        if blocked[i].toolCall.None? {
          continue;
        }
        var canceled := CompleteCanceled(blocked[i], blocked[i].toolCall.value, nowMs);
        if canceled.Err? {
          return Some(canceled.error);
        }
        tasks := tasks[canceled.value.task.id := canceled.value.task];
      }
      return None;
    }

    method PersistOutcomeOf(id: Id, outcome: Outcome, env: Env) returns (reply: Reply)
      requires Valid() && Loads(State(), id)
      modifies this`tasks, this`live
      ensures Valid()
      ensures (State(), reply) == PersistOutcome(old(State()), id, outcome, env)
    {
      var t := tasks[id];
      var d := Classify(t, outcome);
      var state := ApplyStateTransition(t, t.toolCall.value, d, env.nowMs);
      if state.Err? {
        return Err(Rejected(state.error));
      }
      var before := tasks;
      tasks := tasks[id := state.value.task];
      if state.value.task.status == Succeeded {
        var failure := QueueReadyDependents(id, env.accepts);
        if failure.Some? {
          return Err(failure.value);
        }
      } else if state.value.task.status in {Canceled, Failed} && !WillRetry(state.value.task, d) {
        var error := CancelBlockedDependents(id, env.nowMs);
        if error.Some? {
          // The unit of work is rolled back.
          tasks := before;
          return Err(Rejected(error.value));
        }
      }
      return Ok(d);
    }

    method OnBeforeExecute(id: Id, nowMs: int) returns (failure: Option<Failure>)
      requires Valid() && Loads(State(), id)
      modifies this`tasks
      ensures Valid()
      ensures (State(), failure) == PersistStarted(old(State()), id, nowMs)
    {
      var t := tasks[id];
      if t.status == Running && t.toolCall.value.status == CallRunning {
        return None;
      }
      var started := StartExecution(t, t.toolCall.value, nowMs);
      if started.Err? {
        return Some(Rejected(started.error));
      }
      tasks := tasks[id := started.value.task];
      return None;
    }

    method Execute(id: Id, env: Env) returns (reply: Reply)
      requires Valid() && Loads(State(), id)
      modifies this`tasks, this`live
      ensures Valid()
      ensures (State(), reply) == ExecuteTask(old(State()), id, env)
    {
      var t := tasks[id];
      if t.status == Canceled {
        return Ok(DCanceled);
      }
      if env.attempt.Cached? {
        var started := StartExecution(t, t.toolCall.value, env.nowMs);
        if started.Err? {
          return Err(Rejected(started.error));
        }
        var completed := CompleteSucceeded(started.value.task, started.value.toolCall, env.nowMs);
        if completed.Err? {
          return Err(Rejected(completed.error));
        }
        tasks := tasks[id := completed.value.task];
        return Ok(DCached);
      }
      if env.attempt.starts {
        var failure := OnBeforeExecute(id, env.nowMs);
        if failure.Some? {
          return Err(failure.value);
        }
      }
      if env.attempt.Delayed? {
        return Ok(DFailedTransient);
      }
      if tasks[id].toolCall.None? {
        return Err(ToolCallMissing);
      }
      reply := PersistOutcomeOf(id, env.attempt.outcome, env);
    }

    method Acknowledge(id: Id)
      modifies this`live, this`settled
      ensures State() == Settle(old(State()), Ack(id))
    {
      live := live - multiset{id};
      settled := settled + [Ack(id)];
    }

    method NegativelyAcknowledge(id: Id, reason: NackReason)
      modifies this`settled
      ensures State() == Settle(old(State()), Nack(id, reason))
    {
      settled := settled + [Nack(id, reason)];
    }

    method ExecuteAndSettle(id: Id, env: Env) returns (reply: Reply)
      requires Valid() && Loads(State(), id)
      modifies this`tasks, this`live, this`settled
      ensures Valid()
      ensures var (w, r, settlement) := Conclude(old(State()), id, env);
              State() == (if settlement.Some? then Settle(w, settlement.value) else w) && reply == r
      ensures reply.Ok? ==> exists s: Settlement :: s.id == id && settled == old(settled) + [s]
      ensures reply.Err? ==> settled == old(settled)
    {
      hide ExecuteTask;
      reply := Execute(id, env);
      if reply.Err? {
        return;
      }
      if reply.value == DFailedTransient && id in tasks && tasks[id].attempts < tasks[id].maxAttempts {
        NegativelyAcknowledge(
          id, if env.attempt.Delayed? then ExecutionDelayed else TransientFailure(tasks[id].attempts));
      } else {
        Acknowledge(id);
      }
    }

    /** Handle one lease.  A call that returns has settled its lease exactly once; a call that raises
        has not settled it. */
    method ProcessLease(id: Id, env: Env) returns (reply: Reply)
      requires Valid()
      modifies this`tasks, this`live, this`settled
      ensures Valid()
      ensures (State(), reply) == Process(old(State()), id, env)
      ensures reply.Ok? ==> exists s: Settlement :: s.id == id && settled == old(settled) + [s]
      ensures reply.Err? ==> settled == old(settled)
    {
      hide AllMet, QueueReady, Conclude;
      if id !in tasks {
        return Err(TaskNotFound);
      }
      var t := tasks[id];
      if t.toolCall.None? {
        return Err(ToolCallMissing);
      }
      var listing := List(tasks, order);
      var unmet := HasUnmetDependencies(t, listing);
      if t.status in {Pending, Queued} && unmet {
        NegativelyAcknowledge(id, DependenciesUnmet);
        return Ok(DFailedTransient);
      }
      if t.status == Succeeded {
        var failure := QueueReadyDependents(id, env.accepts);
        if failure.Some? {
          return Err(failure.value);
        }
        Acknowledge(id);
        return Ok(DSucceeded);
      }
      if t.status == WaitingApproval {
        Acknowledge(id);
        return Ok(DWaitingApproval);
      }
      if t.status == Canceled {
        Acknowledge(id);
        return Ok(DCanceled);
      }
      if t.attempts >= t.maxAttempts && t.status in {Pending, Queued, Failed} {
        Acknowledge(id);
        return Ok(DFailedPermanent);
      }
      reply := ExecuteAndSettle(id, env);
    }
  }
}
