/** Operator approvals: `application/approvals_service.py`.  A desk holds the approvals, the tasks, the
    queue entries and the enqueue attempts under way; every unit of work and every enqueue is one step,
    so that calls interleave freely. */
module Approvals {
  import opened Wrappers
  import opened Lifecycle
  import opened Executor

  datatype Approval = Approval(status: ApprovalStatus, taskId: Id)

  datatype Envelope = Envelope(approvalId: Id, taskId: Id)

  datatype ApprovalError =
    | UnknownApproval | AlreadyDenied | AlreadyApproved | UnknownTask | NoToolCall | ToolCallNotPending
    | TransitionFailed(error: Error) | ApprovalEnqueueError

  /** `inflight` envelopes wait for their enqueue, `restoring` ones failed theirs and wait for the task
      to be put back.  `moved`, `sent` and `failed` count the moves to QUEUED and how their enqueue
      attempts ended. */
  datatype Desk = Desk(
    approvals: map<Id, Approval>,
    tasks: map<Id, Task>,
    live: multiset<Id>,
    inflight: multiset<Envelope>,
    restoring: multiset<Envelope>,
    moved: multiset<Envelope>,
    sent: multiset<Envelope>,
    failed: multiset<Envelope>)

  // ---------- Units of work ----------

  /** The first unit of work of `approve`; an error rolls all of it back. */
  function Committing(d: Desk, approvalId: Id): (Desk, Result<Option<Envelope>, ApprovalError>) {
    if approvalId !in d.approvals then (d, Err(UnknownApproval))
    else
      var approval := d.approvals[approvalId];
      if approval.status == ApprovalDenied then (d, Err(AlreadyDenied))
      else if approval.taskId !in d.tasks then (d, Err(UnknownTask))
      else
        var d1 := d.(approvals := d.approvals[approvalId := approval.(status := Approved)]);
        var task := d.tasks[approval.taskId];
        if task.status != WaitingApproval then (d1, Ok(None))
        else if task.toolCall.None? then (d, Err(NoToolCall))
        else if task.toolCall.value.status != CallPending then (d, Err(ToolCallNotPending))
        else
          match TransitionTask(task, Queued)
          case Err(e) => (d, Err(TransitionFailed(e)))
          case Ok(queued) =>
            var e := Envelope(approvalId, approval.taskId);
            (d1.(tasks := d.tasks[approval.taskId := queued],
                 inflight := d.inflight + multiset{e}, moved := d.moved + multiset{e}),
             Ok(Some(e)))
  }

  function EnqueueOk(d: Desk, e: Envelope): Desk {
    d.(inflight := d.inflight - multiset{e}, live := d.live + multiset{e.taskId}, sent := d.sent + multiset{e})
  }

  function EnqueueFailed(d: Desk, e: Envelope): Desk {
    d.(inflight := d.inflight - multiset{e}, restoring := d.restoring + multiset{e}, failed := d.failed + multiset{e})
  }

  /** `_restore_waiting_approval_task`. */
  function Restoring(d: Desk, e: Envelope): Desk {
    var d1 := d.(restoring := d.restoring - multiset{e});
    if e.approvalId !in d.approvals || d.approvals[e.approvalId].status != Approved then d1
    else if e.taskId !in d.tasks || d.tasks[e.taskId].status != Queued then d1
    else
      var task := d.tasks[e.taskId];
      if task.toolCall.None? || task.toolCall.value.status != CallPending then d1
      else
        match TransitionTask(task, WaitingApproval)
        case Err(_) => d1
        case Ok(waiting) => d1.(tasks := d.tasks[e.taskId := waiting])
  }

  function DenyTask(t: Task, nowMs: int): Result<ExecState, Error>
    requires t.toolCall.Some?
  {
    if t.toolCall.value.status == CallPending then CompleteDenied(t, t.toolCall.value, nowMs)
    else CompleteCanceled(t, t.toolCall.value, nowMs)
  }

  function Denying(d: Desk, approvalId: Id, nowMs: int): (Desk, Result<Approval, ApprovalError>) {
    if approvalId !in d.approvals then (d, Err(UnknownApproval))
    else
      var approval := d.approvals[approvalId];
      if approval.status == Approved then (d, Err(AlreadyApproved))
      else if approval.taskId !in d.tasks then (d, Err(UnknownTask))
      else
        var denied := approval.(status := ApprovalDenied);
        var d1 := d.(approvals := d.approvals[approvalId := denied]);
        var task := d.tasks[approval.taskId];
        if task.toolCall.None? then (d, Err(NoToolCall))
        else if task.status !in {WaitingApproval, Queued, Pending} then (d1, Ok(denied))
        else
          match DenyTask(task, nowMs)
          case Err(e) => (d, Err(TransitionFailed(e)))
          case Ok(s) => (d1.(tasks := d.tasks[approval.taskId := s.task]), Ok(denied))
  }

  /** A whole call of `approve` that nothing interrupts. */
  function Approving(d: Desk, approvalId: Id, accepted: bool): (Desk, Result<Approval, ApprovalError>) {
    var (d1, committed) := Committing(d, approvalId);
    match committed
    case Err(e) => (d1, Err(e))
    case Ok(envelope) =>
      if envelope.Some? && accepted then
        (EnqueueOk(d1, envelope.value), Answer(d1, approvalId))
      else if envelope.Some? then
        (Restoring(EnqueueFailed(d1, envelope.value), envelope.value), Err(ApprovalEnqueueError))
      else (d1, Answer(d1, approvalId))
  }

  function Answer(d: Desk, approvalId: Id): Result<Approval, ApprovalError> {
    if approvalId in d.approvals then Ok(d.approvals[approvalId]) else Err(UnknownApproval)
  }

  class ApprovalCommandService {
    var approvals: map<Id, Approval>
    var tasks: map<Id, Task>
    var live: multiset<Id>
    ghost var inflight: multiset<Envelope>
    ghost var restoring: multiset<Envelope>
    ghost var moved: multiset<Envelope>
    ghost var sent: multiset<Envelope>
    ghost var failed: multiset<Envelope>

    ghost function State(): Desk
      reads this
    {
      Desk(approvals, tasks, live, inflight, restoring, moved, sent, failed)
    }

    method CommitApproval(approvalId: Id) returns (r: Result<Option<Envelope>, ApprovalError>)
      modifies this
      ensures (State(), r) == Committing(old(State()), approvalId)
    {
      if approvalId !in approvals {
        return Err(UnknownApproval);
      }
      var approval := approvals[approvalId];
      if approval.status == ApprovalDenied {
        return Err(AlreadyDenied);
      }
      if approval.taskId !in tasks {
        return Err(UnknownTask);
      }
      var task := tasks[approval.taskId];
      var queued := task;
      if task.status == WaitingApproval {
        if task.toolCall.None? {
          return Err(NoToolCall);
        }
        if task.toolCall.value.status != CallPending {
          return Err(ToolCallNotPending);
        }
        var moved := TransitionTask(task, Queued);
        if moved.Err? {
          return Err(TransitionFailed(moved.error));
        }
        queued := moved.value;
      }
      approvals := approvals[approvalId := approval.(status := Approved)];
      if task.status != WaitingApproval {
        return Ok(None);
      }
      tasks := tasks[approval.taskId := queued];
      var e := Envelope(approvalId, approval.taskId);
      inflight, moved := inflight + multiset{e}, moved + multiset{e};
      return Ok(Some(e));
    }

    method RestoreWaitingApprovalTask(e: Envelope)
      modifies this
      ensures State() == Restoring(old(State()), e)
    {
      restoring := restoring - multiset{e};
      if e.approvalId !in approvals || approvals[e.approvalId].status != Approved {
        return;
      }
      if e.taskId !in tasks || tasks[e.taskId].status != Queued {
        return;
      }
      var task := tasks[e.taskId];
      if task.toolCall.None? || task.toolCall.value.status != CallPending {
        return;
      }
      var waiting := TransitionTask(task, WaitingApproval);
      if waiting.Ok? {
        tasks := tasks[e.taskId := waiting.value];
      }
    }

    method EnqueueAccepted(e: Envelope)
      modifies this`live, this`inflight, this`sent
      ensures State() == EnqueueOk(old(State()), e)
    {
      live := live + multiset{e.taskId};
      inflight, sent := inflight - multiset{e}, sent + multiset{e};
    }

    ghost method EnqueueRefused(e: Envelope)
      modifies this`inflight, this`restoring, this`failed
      ensures State() == EnqueueFailed(old(State()), e)
    {
      inflight, restoring, failed := inflight - multiset{e}, restoring + multiset{e}, failed + multiset{e};
    }

    method Approve(approvalId: Id, accepted: bool) returns (r: Result<Approval, ApprovalError>)
      modifies this
      ensures (State(), r) == Approving(old(State()), approvalId, accepted)
    {
      hide Committing, Restoring, EnqueueFailed, EnqueueOk;
      var committed := CommitApproval(approvalId);
      if committed.Err? {
        return Err(committed.error);
      }
      if committed.value.Some? {
        var e := committed.value.value;
        if !accepted {
          EnqueueRefused(e);
          RestoreWaitingApprovalTask(e);
          return Err(ApprovalEnqueueError);
        }
        EnqueueAccepted(e);
      }
      return if approvalId in approvals then Ok(approvals[approvalId]) else Err(UnknownApproval);
    }

    method Deny(approvalId: Id, nowMs: int) returns (r: Result<Approval, ApprovalError>)
      modifies this
      ensures (State(), r) == Denying(old(State()), approvalId, nowMs)
    {
      if approvalId !in approvals {
        return Err(UnknownApproval);
      }
      var approval := approvals[approvalId];
      if approval.status == Approved {
        return Err(AlreadyApproved);
      }
      if approval.taskId !in tasks {
        return Err(UnknownTask);
      }
      var task := tasks[approval.taskId];
      if task.toolCall.None? {
        return Err(NoToolCall);
      }
      var denied := approval.(status := ApprovalDenied);
      if task.status in {WaitingApproval, Queued, Pending} {
        var state := DenyTask(task, nowMs);
        if state.Err? {
          return Err(TransitionFailed(state.error));
        }
        tasks := tasks[approval.taskId := state.value.task];
      }
      approvals := approvals[approvalId := denied];
      return Ok(denied);
    }
  }

  // ---------- Runs ----------

  /** Executor steps a leased task can take meanwhile; an entry is only dropped when its task is not
      queued, and a dependency that succeeds may queue a pending task. */
  datatype DeskStep =
    | CommitStep(approvalId: Id)
    | OkStep(e: Envelope)
    | FailStep(e: Envelope)
    | RestoreStep(e: Envelope)
    | DenyStep(approvalId: Id, nowMs: int)
    | ReadyStep(id: Id)
    | ExecStep(id: Id, step: Step)
    | DropStep(id: Id)

  function Next(d: Desk, s: DeskStep): Desk {
    match s
    case CommitStep(a) => Committing(d, a).0
    case OkStep(e) => if e in d.inflight then EnqueueOk(d, e) else d
    case FailStep(e) => if e in d.inflight then EnqueueFailed(d, e) else d
    case RestoreStep(e) => if e in d.restoring then Restoring(d, e) else d
    case DenyStep(a, nowMs) => Denying(d, a, nowMs).0
    case ReadyStep(id) =>
      if id in d.tasks && d.tasks[id].status == Pending && TransitionTask(d.tasks[id], Queued).Ok? then
        d.(tasks := d.tasks[id := TransitionTask(d.tasks[id], Queued).value], live := d.live + multiset{id})
      else d
    case ExecStep(id, step) =>
      if && id in d.live && id in d.tasks && d.tasks[id].toolCall.Some?
         && d.tasks[id].status !in {WaitingApproval, Canceled} && !step.Queue?
      then
        d.(tasks := d.tasks[id := Lifecycle.Next(d.tasks[id], step)])
      else d
    case DropStep(id) =>
      if id in d.tasks && d.tasks[id].status == Queued then d else d.(live := d.live - multiset{id})
  }

  /** Something is on its way for the task: an enqueue, a restore, or a queue entry. */
  ghost predicate Underway(d: Desk, id: Id) {
    id in d.live || exists e: Envelope :: (e in d.inflight || e in d.restoring) && e.taskId == id
  }

  /** The envelope belongs to a decision that was made. */
  predicate Decided(d: Desk, e: Envelope) {
    e.approvalId in d.approvals && d.approvals[e.approvalId] == Approval(Approved, e.taskId)
  }

  ghost predicate TasksOk(tasks: map<Id, Task>) {
    forall id :: id in tasks ==> tasks[id].id == id && Joint(tasks[id])
  }

  ghost predicate AllDecided(d: Desk) {
    forall e: Envelope :: e in d.inflight || e in d.restoring ==> Decided(d, e)
  }

  ghost predicate QueuedUnderway(d: Desk) {
    forall id :: id in d.tasks && d.tasks[id].status == Queued ==> Underway(d, id)
  }

  /** Each move to QUEUED has one enqueue attempt: to come, accepted or refused. */
  predicate Balanced(d: Desk) {
    d.moved == d.inflight + d.sent + d.failed
  }

  ghost predicate Consistent(d: Desk) {
    TasksOk(d.tasks) && AllDecided(d) && QueuedUnderway(d) && Balanced(d)
  }

  /** Decisions are kept. */
  ghost predicate KeepsApprovals(a: map<Id, Approval>, a': map<Id, Approval>) {
    && a'.Keys == a.Keys
    && forall x :: x in a ==> a'[x].taskId == a[x].taskId && (a[x].status != ApprovalPending ==> a'[x] == a[x])
  }

  predicate KeepsTask(t: Task, t': Task) {
    && (t.status in {Canceled, Archived} ==> t'.status in {Canceled, Archived} && t'.attempts == t.attempts)
    && t.attempts <= t'.attempts
  }

  /** Canceled tasks stay canceled, and attempts are never taken back. */
  ghost predicate KeepsTasks(tasks: map<Id, Task>, tasks': map<Id, Task>) {
    tasks'.Keys == tasks.Keys && forall id :: id in tasks ==> KeepsTask(tasks[id], tasks'[id])
  }

  ghost predicate Keeps(d: Desk, d': Desk) {
    KeepsApprovals(d.approvals, d'.approvals) && KeepsTasks(d.tasks, d'.tasks)
  }

  lemma WaitingMoves(t: Task)
    requires Joint(t)
    ensures t.status in {Pending, WaitingApproval} && t.toolCall.value.status == CallPending ==>
              var r := TransitionTask(t, Queued);
              r.Ok? && Joint(r.value) && r.value.id == t.id && r.value == t.(status := Queued)
    ensures t.status == Queued ==>
              var r := TransitionTask(t, WaitingApproval);
              r.Ok? && Joint(r.value) && r.value.id == t.id && r.value == t.(status := WaitingApproval)
    ensures t.status == Pending ==> t.toolCall.value.status == CallPending
    ensures t.status == Queued ==> t.toolCall.value.status == CallPending
  {
  }

  lemma DenyMoves(t: Task, nowMs: int)
    requires Joint(t) && t.status in {WaitingApproval, Queued, Pending}
    ensures var r := DenyTask(t, nowMs);
            && (r.Ok? <==> NotBefore(t, nowMs))
            && (r.Ok? ==> && Joint(r.value.task) && r.value.task.status == Canceled && r.value.task.id == t.id
                          && r.value.task.attempts == t.attempts)
  {
    StepExact(t, Step.Deny(nowMs));
    StepExact(t, Cancel(nowMs));
    hide CompleteDenied, CompleteCanceled;
  }

  // ---------- What every step keeps ----------

  lemma TasksUpdate(tasks: map<Id, Task>, id: Id, t': Task)
    requires TasksOk(tasks) && id in tasks && t'.id == id && Joint(t') && KeepsTask(tasks[id], t')
    ensures TasksOk(tasks[id := t']) && KeepsTasks(tasks, tasks[id := t'])
  {
    hide Joint;
    assert tasks[id := t'].Keys == tasks.Keys;
  }

  lemma QueuedUpdate(d: Desk, d': Desk, id: Id)
    requires QueuedUnderway(d) && id in d'.tasks && d'.tasks == d.tasks[id := d'.tasks[id]]
    requires d'.tasks[id].status == Queued ==> Underway(d', id)
    requires forall x: Id :: x != id && Underway(d, x) ==> Underway(d', x)
    ensures QueuedUnderway(d')
  {
    hide Underway;
  }

  /** What is on its way stays on its way. */
  lemma UnderwayStays(d: Desk, d': Desk, id: Id)
    requires Underway(d, id)
    requires id in d.live ==> id in d'.live
    requires forall e: Envelope :: e.taskId == id && (e in d.inflight || e in d.restoring) ==>
                                     e in d'.inflight || e in d'.restoring || id in d'.live
    ensures Underway(d', id)
  {
  }

  lemma AllUnderwayStays(d: Desk, d': Desk)
    requires d.live <= d'.live && d.inflight <= d'.inflight && d.restoring <= d'.restoring
    ensures forall id :: Underway(d, id) ==> Underway(d', id)
  {
    forall id | Underway(d, id)
      ensures Underway(d', id)
    {
      UnderwayStays(d, d', id);
    }
  }

  /** A decision on a pending approval, or the same one again. */
  lemma DecisionKeeps(d: Desk, approvalId: Id, status: ApprovalStatus)
    requires Consistent(d) && approvalId in d.approvals && d.approvals[approvalId].status in {ApprovalPending, status}
    ensures var d1 := d.(approvals := d.approvals[approvalId := d.approvals[approvalId].(status := status)]);
            Consistent(d1) && Keeps(d, d1)
  {
    var d1 := d.(approvals := d.approvals[approvalId := d.approvals[approvalId].(status := status)]);
    assert d1.approvals.Keys == d.approvals.Keys;
    AllUnderwayStays(d, d1);
    hide Joint, Underway;
    forall e: Envelope | e in d1.inflight || e in d1.restoring
      ensures Decided(d1, e)
    {
      assert Decided(d, e);
    }
  }

  lemma KeepsTrans(a: Desk, b: Desk, c: Desk)
    requires Keeps(a, b) && Keeps(b, c)
    ensures Keeps(a, c)
  {
  }

  lemma KeepsSelf(d: Desk)
    ensures Keeps(d, d)
  {
  }

  lemma CommitKeeps(d: Desk, approvalId: Id)
    requires Consistent(d)
    ensures Consistent(Committing(d, approvalId).0) && Keeps(d, Committing(d, approvalId).0)
  {
    var (d', r) := Committing(d, approvalId);
    KeepsSelf(d);
    if r.Ok? {
      var a := d.approvals[approvalId];
      DecisionKeeps(d, approvalId, Approved);
      var d1 := d.(approvals := d.approvals[approvalId := a.(status := Approved)]);
      if r.value.Some? {
        WaitingMoves(d.tasks[a.taskId]);
        CommitMoves(d1, approvalId, d');
        KeepsTrans(d, d1, d');
      }
    }
  }

  lemma CommitMoves(d: Desk, approvalId: Id, d': Desk)
    requires Consistent(d) && approvalId in d.approvals && d.approvals[approvalId].status == Approved
    requires var id := d.approvals[approvalId].taskId;
             var e := Envelope(approvalId, id);
             && id in d.tasks && d.tasks[id].status == WaitingApproval
             && Joint(d.tasks[id].(status := Queued))
             && d' == d.(tasks := d.tasks[id := d.tasks[id].(status := Queued)],
                         inflight := d.inflight + multiset{e}, moved := d.moved + multiset{e})
    ensures Consistent(d') && Keeps(d, d')
  {
    var id := d.approvals[approvalId].taskId;
    var e := Envelope(approvalId, id);
    TasksUpdate(d.tasks, id, d'.tasks[id]);
    AllUnderwayStays(d, d');
    hide Joint;
    assert e in d'.inflight && Underway(d', id);
    QueuedUpdate(d, d', id);
    assert AllDecided(d') by {
      forall e': Envelope | e' in d'.inflight || e' in d'.restoring
        ensures Decided(d', e')
      {
        if e' != e {
          assert Decided(d, e');
        }
      }
    }
  }

  lemma EnqueueOkKeeps(d: Desk, e: Envelope)
    requires Consistent(d) && e in d.inflight
    ensures Consistent(EnqueueOk(d, e)) && Keeps(d, EnqueueOk(d, e))
  {
    var d' := EnqueueOk(d, e);
    KeepsSelf(d);
    assert Balanced(d');
    forall id | Underway(d, id)
      ensures Underway(d', id)
    {
      UnderwayStays(d, d', id);
    }
    hide Joint, Underway;
    assert AllDecided(d') by {
      forall e': Envelope | e' in d'.inflight || e' in d'.restoring
        ensures Decided(d', e')
      {
        assert Decided(d, e');
      }
    }
  }

  lemma EnqueueFailedKeeps(d: Desk, e: Envelope)
    requires Consistent(d) && e in d.inflight
    ensures Consistent(EnqueueFailed(d, e)) && Keeps(d, EnqueueFailed(d, e))
  {
    var d' := EnqueueFailed(d, e);
    KeepsSelf(d);
    assert Balanced(d');
    forall id | Underway(d, id)
      ensures Underway(d', id)
    {
      UnderwayStays(d, d', id);
    }
    hide Joint, Underway;
    assert AllDecided(d') by {
      forall e': Envelope | e' in d'.inflight || e' in d'.restoring
        ensures Decided(d', e')
      {
        assert Decided(d, e');
      }
    }
  }

  /** What a restore does to its task. */
  lemma RestoreExact(d: Desk, e: Envelope)
    requires Consistent(d) && e in d.restoring
    ensures var d' := Restoring(d, e);
            && d' == d.(restoring := d.restoring - multiset{e}, tasks := d'.tasks)
            && (e.taskId !in d.tasks ==> d'.tasks == d.tasks)
            && (e.taskId in d.tasks ==>
                  var t := d.tasks[e.taskId];
                  && Joint(t.(status := if t.status == Queued then WaitingApproval else t.status))
                  && d'.tasks
                     == d.tasks[e.taskId := t.(status := if t.status == Queued then WaitingApproval else t.status)])
  {
    assert Decided(d, e);
    if e.taskId in d.tasks {
      WaitingMoves(d.tasks[e.taskId]);
    }
    hide TransitionTask;
  }

  /** A restore leaves the task not queued: back to waiting, or already moved on. */
  lemma RestoreKeeps(d: Desk, e: Envelope)
    requires Consistent(d) && e in d.restoring
    ensures var d' := Restoring(d, e);
            && Consistent(d') && Keeps(d, d')
            && (e.taskId in d'.tasks ==> d'.tasks[e.taskId].status != Queued)
  {
    RestoreExact(d, e);
    var d' := Restoring(d, e);
    KeepsSelf(d);
    hide Restoring, Joint;
    forall id: Id | id != e.taskId && Underway(d, id)
      ensures Underway(d', id)
    {
      UnderwayStays(d, d', id);
    }
    assert AllDecided(d') by {
      forall e': Envelope | e' in d'.inflight || e' in d'.restoring
        ensures Decided(d', e')
      {
        assert Decided(d, e');
      }
    }
    hide Underway;
    if e.taskId in d.tasks {
      TasksUpdate(d.tasks, e.taskId, d'.tasks[e.taskId]);
      QueuedUpdate(d, d', e.taskId);
    }
  }

  lemma DenyKeeps(d: Desk, approvalId: Id, nowMs: int)
    requires Consistent(d)
    ensures Consistent(Denying(d, approvalId, nowMs).0) && Keeps(d, Denying(d, approvalId, nowMs).0)
  {
    var (d', r) := Denying(d, approvalId, nowMs);
    KeepsSelf(d);
    if r.Ok? {
      var a := d.approvals[approvalId];
      DecisionKeeps(d, approvalId, ApprovalDenied);
      var d1 := d.(approvals := d.approvals[approvalId := a.(status := ApprovalDenied)]);
      var t := d.tasks[a.taskId];
      if t.status in {WaitingApproval, Queued, Pending} {
        DenyMoves(t, nowMs);
        hide DenyTask, Joint;
        TaskKeeps(d1, d', a.taskId);
        KeepsTrans(d, d1, d');
      }
    }
  }

  /** One task moves on, with no fewer entries on their way. */
  lemma TaskKeeps(d: Desk, d': Desk, id: Id)
    requires Consistent(d) && id in d.tasks && id in d'.tasks
    requires d' == d.(tasks := d.tasks[id := d'.tasks[id]], live := d'.live)
    requires d.live <= d'.live && d'.tasks[id].id == id && Joint(d'.tasks[id]) && KeepsTask(d.tasks[id], d'.tasks[id])
    requires d'.tasks[id].status == Queued ==> d.tasks[id].status == Queued || id in d'.live
    ensures Consistent(d') && Keeps(d, d')
  {
    TasksUpdate(d.tasks, id, d'.tasks[id]);
    AllUnderwayStays(d, d');
    hide Joint;
    QueuedUpdate(d, d', id);
    hide Underway;
    assert AllDecided(d') by {
      forall e': Envelope | e' in d'.inflight || e' in d'.restoring
        ensures Decided(d', e')
      {
        assert Decided(d, e');
      }
    }
  }

  lemma ReadyKeeps(d: Desk, id: Id)
    requires Consistent(d)
    ensures Consistent(Next(d, ReadyStep(id))) && Keeps(d, Next(d, ReadyStep(id)))
  {
    var d' := Next(d, ReadyStep(id));
    KeepsSelf(d);
    if id in d.tasks && d.tasks[id].status == Pending {
      WaitingMoves(d.tasks[id]);
      hide TransitionTask, Joint;
      TaskKeeps(d, d', id);
    }
  }

  lemma ExecKeeps(d: Desk, id: Id, step: Step)
    requires Consistent(d)
    ensures Consistent(Next(d, ExecStep(id, step))) && Keeps(d, Next(d, ExecStep(id, step)))
  {
    var d' := Next(d, ExecStep(id, step));
    KeepsSelf(d);
    if id in d.live && id in d.tasks && d.tasks[id].status !in {WaitingApproval, Canceled} && !step.Queue? {
      StepExact(d.tasks[id], step);
      hide Apply;
      TaskKeeps(d, d', id);
    }
  }

  lemma DropDecided(d: Desk, id: Id)
    requires AllDecided(d)
    ensures AllDecided(d.(live := d.live - multiset{id}))
  {
    var d' := d.(live := d.live - multiset{id});
    forall e': Envelope | e' in d'.inflight || e' in d'.restoring
      ensures Decided(d', e')
    {
      assert Decided(d, e');
    }
  }

  lemma DropUnderway(d: Desk, id: Id)
    requires QueuedUnderway(d) && !(id in d.tasks && d.tasks[id].status == Queued)
    ensures QueuedUnderway(d.(live := d.live - multiset{id}))
  {
    var d' := d.(live := d.live - multiset{id});
    forall x | x in d'.tasks && d'.tasks[x].status == Queued
      ensures Underway(d', x)
    {
      UnderwayStays(d, d', x);
    }
  }

  lemma DropKeeps(d: Desk, id: Id)
    requires Consistent(d)
    ensures Consistent(Next(d, DropStep(id))) && Keeps(d, Next(d, DropStep(id)))
  {
    hide Joint, Committing, Denying, Restoring, EnqueueOk, EnqueueFailed, TransitionTask, Lifecycle.Next;
    hide AllDecided, QueuedUnderway, Decided, Underway, TasksOk, Balanced, Keeps;
    KeepsSelf(d);
    if !(id in d.tasks && d.tasks[id].status == Queued) {
      DropDecided(d, id);
      DropUnderway(d, id);
      KeepsDropped(d, id);
      BalancedDropped(d, id);
    }
  }

  lemma KeepsDropped(d: Desk, id: Id)
    requires Keeps(d, d)
    ensures Keeps(d, d.(live := d.live - multiset{id}))
  {
  }

  lemma BalancedDropped(d: Desk, id: Id)
    requires Balanced(d)
    ensures Balanced(d.(live := d.live - multiset{id}))
  {
  }

  lemma StepKeeps(d: Desk, s: DeskStep)
    requires Consistent(d)
    ensures Consistent(Next(d, s)) && Keeps(d, Next(d, s))
  {
    KeepsSelf(d);
    hide Committing, Denying, Restoring, EnqueueOk, EnqueueFailed, Consistent, Keeps, TransitionTask;
    match s {
      case CommitStep(a) => CommitKeeps(d, a);
      case OkStep(e) => if e in d.inflight { EnqueueOkKeeps(d, e); }
      case FailStep(e) => if e in d.inflight { EnqueueFailedKeeps(d, e); }
      case RestoreStep(e) => if e in d.restoring { RestoreKeeps(d, e); }
      case DenyStep(a, nowMs) => DenyKeeps(d, a, nowMs);
      case ReadyStep(id) => ReadyKeeps(d, id);
      case ExecStep(id, step) => ExecKeeps(d, id, step);
      case DropStep(id) => DropKeeps(d, id);
    }
  }

  // ---------- Every interleaving ----------

  function Run(d: Desk, steps: seq<DeskStep>): Desk
    decreases |steps|
  {
    if steps == [] then d else Next(Run(d, steps[..|steps| - 1]), steps[|steps| - 1])
  }

  /** In every interleaving: a decision never changes once made; every move to QUEUED has had, or is
      about to have, exactly one enqueue attempt; a queued task always has an entry, an enqueue or a
      restore on its way; and a canceled task never gains an attempt again. */
  lemma {:induction false} RunsKeep(d: Desk, steps: seq<DeskStep>)
    requires Consistent(d)
    ensures Consistent(Run(d, steps)) && Keeps(d, Run(d, steps))
    decreases |steps|
  {
    if steps == [] {
      KeepsSelf(d);
    } else {
      var before, last := steps[..|steps| - 1], steps[|steps| - 1];
      RunsKeep(d, before);
      hide Next, Consistent, Keeps;
      StepKeeps(Run(d, before), last);
      KeepsTrans(d, Run(d, before), Next(Run(d, before), last));
    }
  }

  /** When nothing is on its way, every move to QUEUED ended in a queue entry or in a refusal, and every
      refused task is back with the operator or has moved on. */
  lemma SettledDesk(d: Desk, steps: seq<DeskStep>)
    requires Consistent(d) && d.moved == multiset{}
    ensures var end := Run(d, steps);
            end.inflight == multiset{} && end.restoring == multiset{} ==>
              && end.moved == end.sent + end.failed
              && forall id :: id in end.tasks && id !in end.live ==> end.tasks[id].status != Queued
  {
    RunsKeep(d, steps);
  }

  /** A task canceled by a denial is never run. */
  lemma DeniedNeverRuns(d: Desk, approvalId: Id, nowMs: int, steps: seq<DeskStep>)
    requires Consistent(d) && Denying(d, approvalId, nowMs).1.Ok?
    ensures var (d', r) := Denying(d, approvalId, nowMs);
            var end, id := Run(d', steps), d.approvals[approvalId].taskId;
            && approvalId in end.approvals && end.approvals[approvalId].status == ApprovalDenied
            && id in d'.tasks && id in end.tasks
            && (d.tasks[id].status in {WaitingApproval, Queued, Pending} ==>
                  end.tasks[id].status in {Canceled, Archived} && end.tasks[id].attempts == d.tasks[id].attempts)
  {
    var (d', r) := Denying(d, approvalId, nowMs);
    var id := d.approvals[approvalId].taskId;
    DenyKeeps(d, approvalId, nowMs);
    if d.tasks[id].status in {WaitingApproval, Queued, Pending} {
      DenyMoves(d.tasks[id], nowMs);
    }
    hide DenyTask, Consistent;
    RunsKeep(d', steps);
    assert KeepsTask(d'.tasks[id], Run(d', steps).tasks[id]);
  }

  // ---------- One call ----------

  lemma CommitExact(d: Desk, approvalId: Id)
    requires Consistent(d) && approvalId in d.approvals && d.approvals[approvalId].taskId in d.tasks
    requires d.approvals[approvalId].status != ApprovalDenied
    ensures var (d1, r) := Committing(d, approvalId);
            var id := d.approvals[approvalId].taskId;
            var t, e := d.tasks[id], Envelope(approvalId, id);
            var decided := d.(approvals := d.approvals[approvalId := Approval(Approved, id)]);
            if t.status == WaitingApproval && t.toolCall.value.status == CallPending then
              && r == Ok(Some(e)) && Joint(t.(status := Queued))
              && d1 == decided.(tasks := d.tasks[id := t.(status := Queued)],
                                inflight := d.inflight + multiset{e}, moved := d.moved + multiset{e})
            else if t.status == WaitingApproval then d1 == d && r == Err(ToolCallNotPending)
            else d1 == decided && r == Ok(None)
  {
    WaitingMoves(d.tasks[d.approvals[approvalId].taskId]);
    hide TransitionTask;
  }

  lemma RefusedRestores(d: Desk, d1: Desk, e: Envelope)
    requires Consistent(d1) && e.taskId in d.tasks && d.tasks[e.taskId].status == WaitingApproval
    requires d1 == d.(approvals := d1.approvals, tasks := d.tasks[e.taskId := d.tasks[e.taskId].(status := Queued)],
                      inflight := d.inflight + multiset{e}, moved := d.moved + multiset{e})
    ensures var d' := Restoring(EnqueueFailed(d1, e), e);
            && d'.tasks == d.tasks && d'.live == d.live && d'.inflight == d.inflight && d'.restoring == d.restoring
            && d'.approvals == d1.approvals
  {
    hide Restoring, Joint, Consistent, Keeps;
    EnqueueFailedKeeps(d1, e);
    var id, failed := e.taskId, EnqueueFailed(d1, e);
    RestoreExact(failed, e);
    assert d1.inflight - multiset{e} == d.inflight;
    assert (d.restoring + multiset{e}) - multiset{e} == d.restoring;
    assert failed.tasks[id := d.tasks[id]] == d.tasks;
  }

  /** An uninterrupted approval of a waiting task queues it with one entry or, if the queue refuses,
      leaves task and queue exactly as they were, ready to be approved again.  Approving anything that
      does not wait enqueues nothing, however often it is repeated. */
  lemma ApproveExact(d: Desk, approvalId: Id, accepted: bool)
    requires Consistent(d) && approvalId in d.approvals && d.approvals[approvalId].taskId in d.tasks
    requires d.approvals[approvalId].status != ApprovalDenied
    ensures var (d', r) := Approving(d, approvalId, accepted);
            var id := d.approvals[approvalId].taskId;
            var t := d.tasks[id];
            && d'.inflight == d.inflight && d'.restoring == d.restoring
            && if t.status == WaitingApproval && t.toolCall.value.status == CallPending then
                 && d'.approvals == d.approvals[approvalId := Approval(Approved, id)]
                 && (accepted ==> && r.Ok? && d'.tasks == d.tasks[id := t.(status := Queued)]
                                  && d'.live == d.live + multiset{id})
                 && (!accepted ==> r == Err(ApprovalEnqueueError) && d'.tasks == d.tasks && d'.live == d.live)
               else if t.status == WaitingApproval then d' == d && r == Err(ToolCallNotPending)
               else
                 && r == Ok(Approval(Approved, id))
                 && d' == d.(approvals := d.approvals[approvalId := Approval(Approved, id)])
  {
    CommitExact(d, approvalId);
    CommitKeeps(d, approvalId);
    hide Committing, Restoring, Consistent, Joint, Keeps;
    var id := d.approvals[approvalId].taskId;
    var t, e := d.tasks[id], Envelope(approvalId, id);
    if t.status == WaitingApproval && t.toolCall.value.status == CallPending {
      var d1 := Committing(d, approvalId).0;
      assert d1.inflight - multiset{e} == d.inflight;
      if !accepted {
        RefusedRestores(d, d1, e);
      }
    }
  }

  /** Approving again what was approved and queued enqueues nothing more. */
  lemma ApprovingTwice(d: Desk, approvalId: Id, accepted: bool)
    requires Consistent(d) && Approving(d, approvalId, true).1.Ok?
    ensures var (d', r) := Approving(d, approvalId, true);
            Approving(d', approvalId, accepted) == (d', r)
  {
    ApproveExact(d, approvalId, true);
    var (d', r) := Approving(d, approvalId, true);
    var id := d.approvals[approvalId].taskId;
    hide TransitionTask, Joint;
    assert d'.tasks[id].status != WaitingApproval;
    assert d'.approvals[approvalId := d'.approvals[approvalId]] == d'.approvals;
  }

  lemma StuckStep(d: Desk, id: Id, s: DeskStep)
    requires id in d.tasks && d.tasks[id].toolCall.Some? && d.tasks[id].status == WaitingApproval
    requires d.tasks[id].toolCall.value.status == CallRunning && !s.DenyStep?
    ensures id in Next(d, s).tasks && Next(d, s).tasks[id] == d.tasks[id]
  {
    hide TransitionTask, Lifecycle.Next;
  }

  /** A task that waits with its call already running cannot be approved: every attempt fails and is
      undone, so it stays until it is denied. */
  lemma {:induction false} RunningWaitIsStuck(d: Desk, id: Id, steps: seq<DeskStep>)
    requires id in d.tasks && d.tasks[id].toolCall.Some? && d.tasks[id].status == WaitingApproval
    requires d.tasks[id].toolCall.value.status == CallRunning
    requires forall k :: 0 <= k < |steps| ==> !steps[k].DenyStep?
    ensures id in Run(d, steps).tasks && Run(d, steps).tasks[id] == d.tasks[id]
    decreases |steps|
  {
    if steps != [] {
      hide Next;
      RunningWaitIsStuck(d, id, steps[..|steps| - 1]);
      StuckStep(Run(d, steps[..|steps| - 1]), id, steps[|steps| - 1]);
    }
  }
}
