/** Tasks, tool calls and their coupled state machines: `domain/models.py`, `domain/lifecycle.py` and
    `domain/execution_state.py`. */
module Lifecycle {
  import opened Wrappers

  type Id = string

  datatype TaskStatus =
    | Pending | Queued | WaitingApproval | Running | Succeeded | Failed | Canceled | Archived

  datatype CallStatus =
    | CallPending | CallRunning | CallSucceeded | CallFailed | CallDenied | CallCanceled

  /** `InvalidModel` is a rejected model (a pydantic `ValidationError`). */
  datatype Error = InvalidTransition | InvalidModel

  datatype ToolCall = ToolCall(
    id: Id,
    status: CallStatus,
    createdAtMs: int,
    startedAtMs: Option<int>,
    completedAtMs: Option<int>)

  datatype Task = Task(
    id: Id,
    status: TaskStatus,
    toolCall: Option<ToolCall>,
    attempts: int,
    maxAttempts: int,
    dependsOn: seq<Id>,
    createdAtMs: int,
    startedAtMs: Option<int>,
    completedAtMs: Option<int>)

  ghost predicate DistinctIds(tasks: seq<Task>) {
    forall i, j :: 0 <= i < j < |tasks| ==> tasks[i].id != tasks[j].id
  }

  datatype ExecState = ExecState(task: Task, toolCall: ToolCall)

  // ---------- Models ----------

  predicate TimesInOrder(createdAtMs: int, startedAtMs: Option<int>, completedAtMs: Option<int>) {
    && (startedAtMs.Some? ==> startedAtMs.value >= createdAtMs)
    && (completedAtMs.Some? ==>
         && (startedAtMs.Some? ==> completedAtMs.value >= startedAtMs.value)
         && completedAtMs.value >= createdAtMs)
  }

  predicate ToolCallModel(c: ToolCall) {
    TimesInOrder(c.createdAtMs, c.startedAtMs, c.completedAtMs)
  }

  predicate TaskModel(t: Task) {
    && (t.toolCall.Some? ==> ToolCallModel(t.toolCall.value))
    && 0 <= t.attempts <= t.maxAttempts && t.maxAttempts > 0
    && TimesInOrder(t.createdAtMs, t.startedAtMs, t.completedAtMs)
  }

  // ---------- Transition tables ----------

  function TaskTargets(s: TaskStatus): set<TaskStatus> {
    match s
    case Pending => {Queued, Running, Canceled}
    case Queued => {WaitingApproval, Running, Canceled}
    case Running => {WaitingApproval, Succeeded, Failed, Canceled}
    case WaitingApproval => {Queued, Canceled}
    case Failed => {Running, Canceled, Archived}
    case Succeeded => {Archived}
    case Canceled => {Archived}
    case Archived => {}
  }

  function CallTargets(s: CallStatus): set<CallStatus> {
    match s
    case CallPending => {CallRunning, CallDenied, CallCanceled}
    case CallRunning => {CallSucceeded, CallFailed, CallCanceled}
    case CallFailed => {CallRunning, CallCanceled}
    case CallSucceeded => {}
    case CallDenied => {}
    case CallCanceled => {}
  }

  /** The checks the source runs on a task after a transition. */
  predicate TaskInvariant(t: Task) {
    match t.status
    case Pending => t.startedAtMs.None? && t.completedAtMs.None?
    case Queued =>
      && t.toolCall.Some? && t.toolCall.value.status == CallPending
      && t.startedAtMs.None? && t.completedAtMs.None?
    case WaitingApproval =>
      && t.toolCall.Some? && t.completedAtMs.None? && t.toolCall.value.completedAtMs.None?
      && (match t.toolCall.value.status
          case CallPending => t.toolCall.value.startedAtMs.None? && t.startedAtMs.None?
          case CallRunning => t.startedAtMs.Some? && t.attempts > 0
          case _ => false)
    case Running =>
      && t.toolCall.Some? && t.toolCall.value.status == CallRunning
      && t.startedAtMs.Some? && t.completedAtMs.None? && t.attempts > 0
    case Succeeded =>
      && t.toolCall.Some? && t.toolCall.value.status == CallSucceeded
      && t.startedAtMs.Some? && t.completedAtMs.Some? && t.attempts > 0
    case Failed =>
      && t.toolCall.Some? && t.toolCall.value.status == CallFailed
      && t.startedAtMs.Some? && t.completedAtMs.Some? && t.attempts > 0
    case Canceled =>
      && t.completedAtMs.Some?
      && (t.toolCall.Some? ==> t.toolCall.value.status in {CallCanceled, CallDenied})
    case Archived =>
      && t.completedAtMs.Some?
      && (t.toolCall.Some? ==> t.toolCall.value.status in {CallSucceeded, CallFailed, CallCanceled, CallDenied})
  }

  predicate CallInvariant(c: ToolCall) {
    match c.status
    case CallPending => c.startedAtMs.None? && c.completedAtMs.None?
    case CallRunning => c.startedAtMs.Some? && c.completedAtMs.None?
    case CallSucceeded => c.startedAtMs.Some? && c.completedAtMs.Some?
    case CallFailed => c.startedAtMs.Some? && c.completedAtMs.Some?
    case CallDenied => c.startedAtMs.None? && c.completedAtMs.Some?
    case CallCanceled => c.completedAtMs.Some?
  }

  function TransitionTask(t: Task, target: TaskStatus): Result<Task, Error> {
    if target !in TaskTargets(t.status) then Err(InvalidTransition)
    else
      var starts := target == Running && t.status in {Pending, Queued, Failed};
      if starts && t.attempts >= t.maxAttempts then Err(InvalidTransition)
      else
        var moved :=
          if starts then t.(status := target, attempts := t.attempts + 1, completedAtMs := None)
          else t.(status := target);
        if !TaskModel(moved) then Err(InvalidModel)
        else if !TaskInvariant(moved) then Err(InvalidTransition)
        else Ok(moved)
  }

  function TransitionCall(c: ToolCall, target: CallStatus): Result<ToolCall, Error> {
    if target !in CallTargets(c.status) then Err(InvalidTransition)
    else
      var moved :=
        if target == CallRunning && c.status in {CallPending, CallFailed}
        then c.(status := target, completedAtMs := None) else c.(status := target);
      if !ToolCallModel(moved) then Err(InvalidModel)
      else if !CallInvariant(moved) then Err(InvalidTransition)
      else Ok(moved)
  }

  // ---------- Execution steps ----------

  function StartExecution(t: Task, c: ToolCall, nowMs: int): Result<ExecState, Error> {
    match TransitionCall(c.(startedAtMs := Some(nowMs), completedAtMs := None), CallRunning)
    case Err(e) => Err(e)
    case Ok(running) =>
      match TransitionTask(t.(toolCall := Some(running), startedAtMs := Some(nowMs), completedAtMs := None), Running)
      case Err(e) => Err(e)
      case Ok(task) => Ok(ExecState(task, running))
  }

  function MarkWaitingApproval(t: Task, c: ToolCall): Result<ExecState, Error> {
    match TransitionTask(t.(toolCall := Some(c)), WaitingApproval)
    case Err(e) => Err(e)
    case Ok(task) => Ok(ExecState(task, c))
  }

  function Complete(
    t: Task, c: ToolCall, nowMs: int, status: TaskStatus, callStatus: CallStatus): Result<ExecState, Error>
  {
    match TransitionCall(c.(completedAtMs := Some(nowMs)), callStatus)
    case Err(e) => Err(e)
    case Ok(done) =>
      match TransitionTask(t.(toolCall := Some(done), completedAtMs := Some(nowMs)), status)
      case Err(e) => Err(e)
      case Ok(task) => Ok(ExecState(task, done))
  }

  function CompleteSucceeded(t: Task, c: ToolCall, nowMs: int): Result<ExecState, Error> {
    Complete(t, c, nowMs, Succeeded, CallSucceeded)
  }

  function CompleteFailed(t: Task, c: ToolCall, nowMs: int): Result<ExecState, Error> {
    Complete(t, c, nowMs, Failed, CallFailed)
  }

  function CompleteDenied(t: Task, c: ToolCall, nowMs: int): Result<ExecState, Error> {
    Complete(t, c, nowMs, Canceled, CallDenied)
  }

  function CompleteCanceled(t: Task, c: ToolCall, nowMs: int): Result<ExecState, Error> {
    Complete(t, c, nowMs, Canceled, CallCanceled)
  }

  // ---------- The joint invariant ----------

  /** A task freshly built from a plan. */
  predicate New(t: Task) {
    && t.status == Pending && t.attempts == 0 && TaskModel(t) && t.startedAtMs.None? && t.completedAtMs.None?
    && t.toolCall.Some? && t.toolCall.value.status == CallPending
    && t.toolCall.value.startedAtMs.None? && t.toolCall.value.completedAtMs.None?
  }

  /** Which tool-call statuses go with a task status. */
  predicate Paired(s: TaskStatus, c: CallStatus) {
    match s
    case Pending => c == CallPending
    case Queued => c == CallPending
    case WaitingApproval => c in {CallPending, CallRunning}
    case Running => c == CallRunning
    case Succeeded => c == CallSucceeded
    case Failed => c == CallFailed
    case Canceled => c in {CallCanceled, CallDenied}
    case Archived => c in {CallSucceeded, CallFailed, CallCanceled, CallDenied}
  }

  /** What the whole machine keeps.  The source's own checks after each step say less: they do not tie
      the call's times to the task's, nor the attempts to having started. */
  predicate Joint(t: Task) {
    && TaskModel(t) && t.toolCall.Some?
    && var c := t.toolCall.value;
    && Paired(t.status, c.status)
    && c.startedAtMs == t.startedAtMs && c.completedAtMs == t.completedAtMs
    && (t.attempts == 0 <==> t.startedAtMs.None?)
    && (c.status in {CallPending, CallDenied} ==> t.attempts == 0)
    && (c.status in {CallRunning, CallSucceeded, CallFailed} ==> t.attempts > 0)
    && (t.completedAtMs.Some? <==> c.status !in {CallPending, CallRunning})
  }

  lemma JointImpliesChecks(t: Task)
    requires Joint(t)
    ensures TaskInvariant(t) && CallInvariant(t.toolCall.value)
  {
  }

  /** Every step the source takes on a stored task: queueing (on readiness or approval), the execution
      steps, and archiving. */
  datatype Step =
    | Queue
    | Start(nowMs: int)
    | Wait
    | Succeed(nowMs: int)
    | Fail(nowMs: int)
    | Deny(nowMs: int)
    | Cancel(nowMs: int)
    | Archive

  function TaskOf(r: Result<ExecState, Error>): Result<Task, Error> {
    match r
    case Ok(s) => Ok(s.task)
    case Err(e) => Err(e)
  }

  function Apply(t: Task, s: Step): Result<Task, Error>
    requires t.toolCall.Some?
  {
    var c := t.toolCall.value;
    match s
    case Queue => TransitionTask(t, Queued)
    case Start(nowMs) => TaskOf(StartExecution(t, c, nowMs))
    case Wait => TaskOf(MarkWaitingApproval(t, c))
    case Succeed(nowMs) => TaskOf(CompleteSucceeded(t, c, nowMs))
    case Fail(nowMs) => TaskOf(CompleteFailed(t, c, nowMs))
    case Deny(nowMs) => TaskOf(CompleteDenied(t, c, nowMs))
    case Cancel(nowMs) => TaskOf(CompleteCanceled(t, c, nowMs))
    case Archive => TransitionTask(t, Archived)
  }

  predicate NotBefore(t: Task, nowMs: int)
    requires t.toolCall.Some?
  {
    && nowMs >= t.createdAtMs && nowMs >= t.toolCall.value.createdAtMs
    && (t.startedAtMs.Some? ==> nowMs >= t.startedAtMs.value)
  }

  /** When a step is accepted, in terms a caller can check beforehand. */
  predicate Enabled(t: Task, s: Step)
    requires t.toolCall.Some?
  {
    var pendingCall := t.toolCall.value.status == CallPending;
    match s
    case Queue => t.status == Pending || (t.status == WaitingApproval && pendingCall)
    case Start(nowMs) =>
      && t.status in {Pending, Queued, Failed} && t.attempts < t.maxAttempts
      && nowMs >= t.createdAtMs && nowMs >= t.toolCall.value.createdAtMs
    case Wait => t.status in {Queued, Running}
    case Succeed(nowMs) => t.status == Running && NotBefore(t, nowMs)
    case Fail(nowMs) => t.status == Running && NotBefore(t, nowMs)
    case Deny(nowMs) => t.status in {Pending, Queued, WaitingApproval} && pendingCall && NotBefore(t, nowMs)
    case Cancel(nowMs) => t.status in {Pending, Queued, WaitingApproval, Running, Failed} && NotBefore(t, nowMs)
    case Archive => t.status in {Succeeded, Failed, Canceled}
  }

  function TargetOf(s: Step): TaskStatus {
    match s
    case Queue => Queued
    case Start(_) => Running
    case Wait => WaitingApproval
    case Succeed(_) => Succeeded
    case Fail(_) => Failed
    case Deny(_) => Canceled
    case Cancel(_) => Canceled
    case Archive => Archived
  }

  /** What an accepted step does. */
  predicate Moved(t: Task, s: Step, t': Task)
    requires t.toolCall.Some?
  {
    && Joint(t') && t'.status == TargetOf(s)
    && t'.attempts == t.attempts + (if s.Start? then 1 else 0)
    && (t.startedAtMs.Some? ==> t'.startedAtMs.Some?)
    && SameIdentity(t, t') && Stamped(t, s, t')
  }

  /** Starting stamps the start and clears the completion, completing stamps the completion, and the
      other steps leave the times alone. */
  predicate Stamped(t: Task, s: Step, t': Task) {
    match s
    case Start(nowMs) => t'.startedAtMs == Some(nowMs) && t'.completedAtMs.None?
    case Succeed(nowMs) => t'.startedAtMs == t.startedAtMs && t'.completedAtMs == Some(nowMs)
    case Fail(nowMs) => t'.startedAtMs == t.startedAtMs && t'.completedAtMs == Some(nowMs)
    case Deny(nowMs) => t'.startedAtMs == t.startedAtMs && t'.completedAtMs == Some(nowMs)
    case Cancel(nowMs) => t'.startedAtMs == t.startedAtMs && t'.completedAtMs == Some(nowMs)
    case _ => t'.startedAtMs == t.startedAtMs && t'.completedAtMs == t.completedAtMs
  }

  /** Steps do not touch ids, dependencies, limits or creation times. */
  predicate SameIdentity(t: Task, t': Task)
    requires t.toolCall.Some?
  {
    && t'.id == t.id && t'.dependsOn == t.dependsOn && t'.maxAttempts == t.maxAttempts
    && t'.createdAtMs == t.createdAtMs && t'.toolCall.Some?
    && t'.toolCall.value.id == t.toolCall.value.id
    && t'.toolCall.value.createdAtMs == t.toolCall.value.createdAtMs
  }

  predicate Exact(t: Task, s: Step)
    requires t.toolCall.Some?
  {
    && (Apply(t, s).Ok? <==> Enabled(t, s))
    && (Apply(t, s).Ok? ==> Moved(t, s, Apply(t, s).value))
  }

  lemma QueueExact(t: Task)
    requires Joint(t)
    ensures Exact(t, Queue)
  {
  }

  lemma StartExact(t: Task, nowMs: int)
    requires Joint(t)
    ensures Exact(t, Start(nowMs))
  {
  }

  lemma WaitExact(t: Task)
    requires Joint(t)
    ensures Exact(t, Wait)
  {
  }

  lemma SucceedExact(t: Task, nowMs: int)
    requires Joint(t)
    ensures Exact(t, Succeed(nowMs))
  {
  }

  lemma FailExact(t: Task, nowMs: int)
    requires Joint(t)
    ensures Exact(t, Fail(nowMs))
  {
  }

  lemma DenyExact(t: Task, nowMs: int)
    requires Joint(t)
    ensures Exact(t, Deny(nowMs))
  {
  }

  lemma CancelExact(t: Task, nowMs: int)
    requires Joint(t)
    ensures Exact(t, Cancel(nowMs))
  {
  }

  lemma ArchiveExact(t: Task)
    requires Joint(t)
    ensures Exact(t, Archive)
  {
  }

  /** On a state the machine can be in, a step is accepted if and only if it is enabled, and then it
      moves the task where it says, keeps the joint invariant, stamps the times it should, and counts an
      attempt if and only if it starts the task. */
  lemma StepExact(t: Task, s: Step)
    requires Joint(t)
    ensures Apply(t, s).Ok? <==> Enabled(t, s)
    ensures Apply(t, s).Ok? ==> Moved(t, s, Apply(t, s).value)
  {
    match s {
      case Queue => QueueExact(t);
      case Start(nowMs) => StartExact(t, nowMs);
      case Wait => WaitExact(t);
      case Succeed(nowMs) => SucceedExact(t, nowMs);
      case Fail(nowMs) => FailExact(t, nowMs);
      case Deny(nowMs) => DenyExact(t, nowMs);
      case Cancel(nowMs) => CancelExact(t, nowMs);
      case Archive => ArchiveExact(t);
    }
    hide Apply, Enabled, Moved;
  }

  // ---------- Runs ----------

  /** A step that is not accepted raises and leaves the stored task as it was. */
  function Next(t: Task, s: Step): Task
    requires t.toolCall.Some?
  {
    if Apply(t, s).Ok? then Apply(t, s).value else t
  }

  function Run(t: Task, steps: seq<Step>): (r: Task)
    requires Joint(t)
    ensures Joint(r)
    decreases |steps|
  {
    if steps == [] then t
    else
      var t1 := Run(t, steps[..|steps| - 1]);
      StepExact(t1, steps[|steps| - 1]);
      Next(t1, steps[|steps| - 1])
  }

  /** How many steps of a run are accepted and satisfy `p` on the state they meet. */
  function Count(p: (Task, Step) -> bool, t: Task, steps: seq<Step>): nat
    requires Joint(t)
  {
    if steps == [] then 0
    else
      var before, s := steps[..|steps| - 1], steps[|steps| - 1];
      Count(p, t, before) + if Enabled(Run(t, before), s) && p(Run(t, before), s) then 1 else 0
  }

  function AnyStep(): (Task, Step) -> bool {
    (t: Task, s: Step) => true
  }

  function IsStart(): (Task, Step) -> bool {
    (t: Task, s: Step) => s.Start?
  }

  function IsRequeue(): (Task, Step) -> bool {
    (t: Task, s: Step) => s.Queue? && t.status == WaitingApproval
  }

  /** The number of times a run enters RUNNING is the number of attempts it adds, so from a new task it
      equals the attempts and never passes the limit. */
  lemma {:induction false} StartsAreAttempts(t: Task, steps: seq<Step>)
    requires Joint(t)
    ensures Run(t, steps).attempts == t.attempts + Count(IsStart(), t, steps)
    ensures Run(t, steps).maxAttempts == t.maxAttempts
    ensures t.attempts + Count(IsStart(), t, steps) <= t.maxAttempts
  {
    if steps != [] {
      var before, s := steps[..|steps| - 1], steps[|steps| - 1];
      StartsAreAttempts(t, before);
      StepExact(Run(t, before), s);
    }
  }

  /** Once the call has started it stays started, and a started task is never queued again. */
  lemma {:induction false} StartedIsNeverQueued(t: Task, steps: seq<Step>)
    requires Joint(t) && t.startedAtMs.Some?
    ensures Run(t, steps).startedAtMs.Some? && Run(t, steps).status !in {Pending, Queued}
  {
    if steps != [] {
      var before := steps[..|steps| - 1];
      StartedIsNeverQueued(t, before);
      StepExact(Run(t, before), steps[|steps| - 1]);
    }
  }

  /** Cancelling is final: a canceled task is never started, queued or completed. */
  lemma {:induction false} CanceledIsFinal(t: Task, steps: seq<Step>)
    requires Joint(t) && t.status in {Canceled, Archived}
    ensures Run(t, steps).status in {Canceled, Archived} && Run(t, steps).attempts == t.attempts
  {
    if steps != [] {
      var before := steps[..|steps| - 1];
      CanceledIsFinal(t, before);
      StepExact(Run(t, before), steps[|steps| - 1]);
    }
  }

  function StatusRank(s: TaskStatus): nat {
    match s
    case Pending => 4
    case Queued => 3
    case Running => 3
    case WaitingApproval => 2
    case Failed => 2
    case Succeeded => 1
    case Canceled => 1
    case Archived => 0
  }

  /** Steps a task has left: what its remaining attempts allow, then what its status allows. */
  function StepsLeft(t: Task): int {
    5 * (t.maxAttempts - t.attempts) + StatusRank(t.status)
  }

  lemma StepShortens(t: Task, s: Step)
    requires Joint(t) && Enabled(t, s)
    ensures StepsLeft(Next(t, s)) + 1 <= StepsLeft(t) + if IsRequeue()(t, s) then 2 else 0
  {
    StepExact(t, s);
  }

  /** Every run is short: the accepted steps number at most the steps left at the start, plus two for
      each time an approval puts a waiting task back in the queue. */
  lemma {:induction false} RunsAreBounded(t: Task, steps: seq<Step>)
    requires Joint(t)
    ensures Count(AnyStep(), t, steps) + StepsLeft(Run(t, steps)) <= StepsLeft(t) + 2 * Count(IsRequeue(), t, steps)
    ensures Count(AnyStep(), t, steps) <= StepsLeft(t) + 2 * Count(IsRequeue(), t, steps)
  {
    if steps != [] {
      var before, s := steps[..|steps| - 1], steps[|steps| - 1];
      RunsAreBounded(t, before);
      var t1 := Run(t, before);
      StepExact(t1, s);
      hide Joint, Enabled, Next, StepsLeft;
      if Enabled(t1, s) {
        StepShortens(t1, s);
      }
    }
  }
}
