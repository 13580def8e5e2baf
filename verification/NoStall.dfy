/** Whole runs of the executor: leases, crashes and operator decisions in any order. */
module NoStall {
  import opened Wrappers
  import opened Sequences
  import opened Graphs
  import opened Lifecycle
  import opened Dependencies
  import opened Executor
  import opened Scheduling
  import opened Interruptions

  /** A lease handled to its end; a worker that dies before settling its lease (`Crash`), or between
      marking a dependent QUEUED and enqueueing it (`Tear`); a tool run that begins while other leases go
      on; an approval, one whose service dies between its commit and its enqueue (`HalfApprove`), and a
      denial. */
  datatype RunStep =
    | Lease(id: Id, env: Env)
    | Crash(id: Id, env: Env)
    | Tear(id: Id, env: Env)
    | Begin(id: Id, nowMs: int)
    | Approve(id: Id, accepted: bool)
    | HalfApprove(id: Id)
    | Refuse(id: Id, nowMs: int)

  predicate Waiting(w: World, id: Id) {
    Loads(w, id) && w.tasks[id].status == WaitingApproval && w.tasks[id].toolCall.value.status == CallPending
  }

  /** The approval's unit of work: the waiting task is marked QUEUED. */
  function HalfApproving(w: World, id: Id): World {
    if Waiting(w, id) then
      match TransitionTask(w.tasks[id], Queued)
      case Err(_) => w
      case Ok(queued) => w.(tasks := w.tasks[id := queued])
    else w
  }

  /** An approval also enqueues the task; if the queue refuses, the task is put back to waiting. */
  function Approving(w: World, id: Id, accepted: bool): World {
    if Waiting(w, id) && accepted then HalfApproving(w, id).(live := w.live + multiset{id}) else w
  }

  function Refusing(w: World, id: Id, nowMs: int): World {
    if Loads(w, id) && w.tasks[id].status in {WaitingApproval, Queued, Pending} then
      var t := w.tasks[id];
      var r := if t.toolCall.value.status == CallPending then CompleteDenied(t, t.toolCall.value, nowMs)
               else CompleteCanceled(t, t.toolCall.value, nowMs);
      match r
      case Err(_) => w
      case Ok(s) => w.(tasks := w.tasks[id := s.task])
    else w
  }

  ghost function Next(w: World, s: RunStep): World
    requires Listed(w.tasks, w.order)
  {
    match s
    case Lease(id, env) => if id in w.live then Process(w, id, env).0 else w
    case Crash(id, env) => if id in w.live then Handle(w, id, env).0 else w
    case Tear(id, env) => if id in w.live then TornLease(w, id, env) else w
    case Begin(id, nowMs) =>
      if id in w.live && Reached(w, id) && Loads(w, id) then PersistStarted(w, id, nowMs).0 else w
    case Approve(id, accepted) => Approving(w, id, accepted)
    case HalfApprove(id) => HalfApproving(w, id)
    case Refuse(id, nowMs) => Refusing(w, id, nowMs)
  }

  /** The steps after which some task is left behind. */
  ghost predicate StrandsAt(w: World, s: RunStep)
    requires Listed(w.tasks, w.order)
  {
    match s
    case Lease(id, env) => id in w.live && (Strands(w, id, env) || (Reached(w, id) && Parks(w, id, env)))
    case Crash(id, env) => id in w.live && Reached(w, id) && Parks(w, id, env)
    case Tear(id, env) => id in w.live && ((Reached(w, id) && Parks(w, id, env)) || LeavesMark(w, id, env))
    case HalfApprove(id) => Waiting(w, id) && id !in w.live
    case Refuse(id, nowMs) =>
      && Loads(w, id) && w.tasks[id].status in {WaitingApproval, Queued, Pending} && NotBefore(w.tasks[id], nowMs)
      && !NoPendingDependents(w, id)
    case _ => false
  }

  // ---------- Every step keeps the base ----------

  lemma SettleBase(w: World, rank: Id -> nat, s: Settlement)
    requires Base(w, rank)
    ensures Base(Settle(w, s), rank)
  {
  }

  lemma DecisionMoves(w: World, rank: Id -> nat, id: Id, t': Task)
    requires Base(w, rank) && id in w.tasks && Joint(t') && SameIdentity(w.tasks[id], t')
    requires t'.attempts == w.tasks[id].attempts
    requires w.tasks[id].status in {WaitingApproval, Queued, Pending}
    requires t'.status == Canceled || (t'.status == Queued && w.tasks[id].status == WaitingApproval)
    ensures Moves(w.tasks, id, t')
    ensures Base(w.(tasks := w.tasks[id := t']), rank) && Kept(w.tasks, w.tasks[id := t'])
  {
    UpdateEvolves(w, rank, id, t');
    EvolvesKept(w.tasks, w.tasks[id := t']);
  }

  lemma HalfApprovingFacts(w: World, rank: Id -> nat, id: Id)
    requires Base(w, rank)
    ensures var w' := HalfApproving(w, id);
            if Waiting(w, id)
            then && id in w'.tasks && w' == w.(tasks := w.tasks[id := w'.tasks[id]])
                 && w'.tasks[id].status == Queued && Moves(w.tasks, id, w'.tasks[id])
                 && Base(w', rank) && Kept(w.tasks, w'.tasks)
            else w' == w
  {
    if Waiting(w, id) {
      StepExact(w.tasks[id], Queue);
      var t' := TransitionTask(w.tasks[id], Queued).value;
      hide TransitionTask;
      DecisionMoves(w, rank, id, t');
      var w' := HalfApproving(w, id);
      assert w'.tasks[id] == t';
    }
  }

  lemma LiveKeepsBase(w: World, rank: Id -> nat, live: multiset<Id>)
    requires Base(w, rank)
    ensures Base(w.(live := live), rank)
  {
  }

  lemma RefusingFacts(w: World, rank: Id -> nat, id: Id, nowMs: int)
    requires Base(w, rank)
    ensures var w' := Refusing(w, id, nowMs);
            if Loads(w, id) && w.tasks[id].status in {WaitingApproval, Queued, Pending} && NotBefore(w.tasks[id], nowMs)
            then && id in w'.tasks && w' == w.(tasks := w.tasks[id := w'.tasks[id]])
                 && w'.tasks[id].status == Canceled && Moves(w.tasks, id, w'.tasks[id])
                 && Base(w', rank) && Kept(w.tasks, w'.tasks)
            else w' == w
  {
    if Loads(w, id) && w.tasks[id].status in {WaitingApproval, Queued, Pending} {
      var t := w.tasks[id];
      StepExact(t, Deny(nowMs));
      StepExact(t, Cancel(nowMs));
      var w' := Refusing(w, id, nowMs);
      hide CompleteDenied, CompleteCanceled;
      if NotBefore(t, nowMs) {
        DecisionMoves(w, rank, id, w'.tasks[id]);
      }
    }
  }

  /** Whatever happens, ids and dependencies stay, success and cancellation are final, and a task that
      is past PENDING and not canceled has only succeeded dependencies. */
  lemma StepBase(w: World, rank: Id -> nat, s: RunStep)
    requires Base(w, rank)
    ensures Listed(w.tasks, w.order)
    ensures Base(Next(w, s), rank) && Kept(w.tasks, Next(w, s).tasks) && Next(w, s).order == w.order
  {
    WellFormedListed(w);
    KeptSelf(w, rank);
    match s {
      case Lease(id, env) =>
        HandleBase(w, rank, id, env);
        var (w1, reply, settlement) := Handle(w, id, env);
        if settlement.Some? {
          SettleBase(w1, rank, settlement.value);
        }
        hide Handle, Base;
      case Crash(id, env) => HandleBase(w, rank, id, env);
      case Tear(id, env) => TornLeaseBase(w, rank, id, env);
      case Begin(id, nowMs) =>
        if Reached(w, id) {
          StartBase(w, rank, id, nowMs);
          EvolvesKept(w.tasks, PersistStarted(w, id, nowMs).0.tasks);
        }
      case Approve(id, accepted) =>
        HalfApprovingFacts(w, rank, id);
        LiveKeepsBase(HalfApproving(w, id), rank, w.live + multiset{id});
      case HalfApprove(id) => HalfApprovingFacts(w, rank, id);
      case Refuse(id, nowMs) => RefusingFacts(w, rank, id, nowMs);
    }
    hide Handle, Base, Kept, PersistStarted, HalfApproving, Refusing, TornLease;
  }

  // ---------- Exactly which steps strand ----------

  lemma RefuseExact(w: World, rank: Id -> nat, id: Id, nowMs: int)
    requires Sound(w, rank)
    ensures Listed(w.tasks, w.order)
    ensures Sound(Refusing(w, id, nowMs), rank) <==> !StrandsAt(w, Refuse(id, nowMs))
  {
    BaseListed(w, rank);
    RefusingFacts(w, rank, id, nowMs);
    if NoPendingDependents(w, id) {
      NoPendingSound(w, rank, id, nowMs);
    }
    hide Refusing, Base, Moves, Kept, NotBefore;
    if StrandsAt(w, Refuse(id, nowMs)) {
      var w' := Refusing(w, id, nowMs);
      var x :| x in w.tasks && w.tasks[x].status == Pending && id in w.tasks[x].dependsOn;
      NotOwnDependency(w, rank, id);
      assert w'.tasks[x] == w.tasks[x] && Dead(w', id);
      assert !Lively(w', x);
    }
  }

  lemma NoPendingSound(w: World, rank: Id -> nat, id: Id, nowMs: int)
    requires Sound(w, rank) && NoPendingDependents(w, id)
    ensures Sound(Refusing(w, id, nowMs), rank)
  {
    RefusingFacts(w, rank, id, nowMs);
    var w' := Refusing(w, id, nowMs);
    hide Refusing, Base, Kept;
    if w' != w {
      GiveUpSoundBut(w, rank, id, w'.tasks[id]);
      hide Moves;
      forall x | x in w'.tasks
        ensures Lively(w', x)
      {
        assert x != id ==> w'.tasks[x] == w.tasks[x];
      }
    }
  }

  lemma NotOwnDependency(w: World, rank: Id -> nat, id: Id)
    requires Base(w, rank) && id in w.tasks
    ensures id !in w.tasks[id].dependsOn
  {
  }

  /** Marking a waiting task QUEUED keeps the run sound exactly when it has a queue entry. */
  lemma HalfApproveExact(w: World, rank: Id -> nat, id: Id)
    requires Sound(w, rank)
    ensures Sound(HalfApproving(w, id), rank) <==> (Waiting(w, id) ==> id in w.live)
  {
    HalfApprovingFacts(w, rank, id);
    var w' := HalfApproving(w, id);
    hide HalfApproving, Base;
    if Waiting(w, id) {
      if id in w.live {
        MoveSound(w, rank, id, w'.tasks[id]);
      } else {
        assert !Lively(w', id);
      }
    }
  }

  lemma ApproveSound(w: World, rank: Id -> nat, id: Id, accepted: bool)
    requires Sound(w, rank)
    ensures Sound(Approving(w, id, accepted), rank)
  {
    if Waiting(w, id) && accepted {
      var w1 := w.(live := w.live + multiset{id});
      AddLiveSound(w, rank, id);
      HalfApproveExact(w1, rank, id);
      hide Sound;
      assert HalfApproving(w1, id) == Approving(w, id, accepted);
    }
  }

  /** A step keeps the run sound if and only if it is not a stranding one. */
  lemma StepExactlyStrands(w: World, rank: Id -> nat, s: RunStep)
    requires Sound(w, rank)
    ensures Listed(w.tasks, w.order)
    ensures Sound(Next(w, s), rank) <==> !StrandsAt(w, s)
  {
    WellFormedListed(w);
    match s {
      case Lease(id, env) =>
        if id in w.live {
          ProcessExact(w, rank, id, env);
        }
      case Crash(id, env) =>
        if id in w.live {
          HandleSound(w, rank, id, env);
        }
      case Tear(id, env) =>
        if id in w.live {
          TornLeaseExact(w, rank, id, env);
        }
      case Begin(id, nowMs) =>
        if id in w.live && Reached(w, id) {
          StartSound(w, rank, id, nowMs);
        }
      case Approve(id, accepted) => ApproveSound(w, rank, id, accepted);
      case HalfApprove(id) => HalfApproveExact(w, rank, id);
      case Refuse(id, nowMs) => RefuseExact(w, rank, id, nowMs);
    }
    hide Process, Handle, Sound, PersistStarted, Approving, HalfApproving, Refusing, TornLease;
  }

  // ---------- Runs ----------

  ghost function Run(w: World, rank: Id -> nat, steps: seq<RunStep>): (r: World)
    requires Base(w, rank)
    ensures Base(r, rank)
    decreases |steps|
  {
    if steps == [] then w
    else
      var w1 := Run(w, rank, steps[..|steps| - 1]);
      StepBase(w1, rank, steps[|steps| - 1]);
      Next(w1, steps[|steps| - 1])
  }

  /** No step of the run strands anybody. */
  ghost predicate Careful(w: World, rank: Id -> nat, steps: seq<RunStep>)
    requires Base(w, rank)
  {
    forall k :: 0 <= k < |steps| ==> Spares(Run(w, rank, steps[..k]), rank, steps[k])
  }

  ghost predicate Spares(w: World, rank: Id -> nat, s: RunStep)
    requires Base(w, rank)
  {
    BaseListed(w, rank);
    !StrandsAt(w, s)
  }

  lemma BaseListed(w: World, rank: Id -> nat)
    requires Base(w, rank)
    ensures Listed(w.tasks, w.order)
  {
    WellFormedListed(w);
  }

  lemma {:induction false} CarefulIsSound(w: World, rank: Id -> nat, steps: seq<RunStep>)
    requires Sound(w, rank) && Careful(w, rank, steps)
    ensures Sound(Run(w, rank, steps), rank)
    decreases |steps|
  {
    assert Base(w, rank);
    hide Sound, Base, Next, StrandsAt, Listed;
    if steps != [] {
      var before, last := steps[..|steps| - 1], steps[|steps| - 1];
      assert Careful(w, rank, before) by {
        forall k | 0 <= k < |before|
          ensures Spares(Run(w, rank, before[..k]), rank, before[k])
        {
          assert before[..k] == steps[..k];
        }
      }
      CarefulIsSound(w, rank, before);
      StepExactlyStrands(Run(w, rank, before), rank, last);
      assert Spares(Run(w, rank, steps[..|steps| - 1]), rank, steps[|steps| - 1]);
    }
  }

  predicate Terminal(t: Task) {
    t.status in {Succeeded, Failed, Canceled}
  }

  /** Something can still happen: a queue entry, or an approval that is awaited and can be given. */
  ghost predicate Active(w: World) {
    (exists id :: id in w.live) || exists id :: Waiting(w, id)
  }

  lemma UnfinishedIsActive(w: World, rank: Id -> nat, id: Id)
    requires Sound(w, rank) && id in w.tasks && (w.tasks[id].status == Failed ==> id in w.live)
    requires w.tasks[id].status !in {Pending, Succeeded, Canceled}
    ensures Active(w)
  {
    assert Lively(w, id);
    assert w.tasks[id].status == WaitingApproval ==> Waiting(w, id);
  }

  /** In a sound world a pending task can be traced to an active one. */
  lemma {:induction false} PendingIsActive(w: World, rank: Id -> nat, id: Id)
    requires Sound(w, rank) && id in w.tasks && w.tasks[id].status == Pending
    ensures Active(w)
    decreases rank(id)
  {
    var t := w.tasks[id];
    assert Lively(w, id);
    if !Clear(w.tasks, t) {
      var i :| 0 <= i < |t.dependsOn| && !Done(w.tasks, t.dependsOn[i]);
      var d := t.dependsOn[i];
      assert d in t.dependsOn && !Dead(w, d) && Lively(w, d);
      if w.tasks[d].status == Pending {
        PendingIsActive(w, rank, d);
      } else {
        UnfinishedIsActive(w, rank, d);
      }
    }
  }

  /** A sound world with nothing active has only finished tasks. */
  lemma QuietMeansFinished(w: World, rank: Id -> nat)
    requires Sound(w, rank) && !Active(w)
    ensures forall id :: id in w.tasks ==> Terminal(w.tasks[id])
  {
    forall id | id in w.tasks
      ensures Terminal(w.tasks[id])
    {
      if w.tasks[id].status == Pending {
        PendingIsActive(w, rank, id);
      } else if !Terminal(w.tasks[id]) {
        UnfinishedIsActive(w, rank, id);
      }
    }
  }

  /** No run without a stranding step stalls: as long as any task is unfinished, something is active. */
  lemma NeverStalls(w: World, rank: Id -> nat, steps: seq<RunStep>)
    requires Sound(w, rank) && Careful(w, rank, steps)
    ensures var end := Run(w, rank, steps);
            !Active(end) ==> forall id :: id in end.tasks ==> Terminal(end.tasks[id])
  {
    CarefulIsSound(w, rank, steps);
    if !Active(Run(w, rank, steps)) {
      QuietMeansFinished(Run(w, rank, steps), rank);
    }
  }

  /** In every run, stranding or not, what has started has all its dependencies behind it. */
  lemma NothingStartsEarly(w: World, rank: Id -> nat, steps: seq<RunStep>, id: Id)
    requires Base(w, rank)
    ensures var end := Run(w, rank, steps);
            id in end.tasks && end.tasks[id].status in {Queued, Running, WaitingApproval, Succeeded, Failed} ==>
              forall d :: d in end.tasks[id].dependsOn ==> Done(end.tasks, d)
  {
    var end := Run(w, rank, steps);
    assert Orderly(end.tasks);
    if id in end.tasks && end.tasks[id].status in {Queued, Running, WaitingApproval, Succeeded, Failed} {
      assert Clear(end.tasks, end.tasks[id]);
    }
  }

  // ---------- Retries ----------

  /** The attempt counts at which the task's lease was returned for a transient tool failure. */
  function Retried(settled: seq<Settlement>, id: Id): seq<int> {
    if settled == [] then []
    else
      var last := settled[|settled| - 1];
      Retried(settled[..|settled| - 1], id)
      + if last.Nack? && last.id == id && last.reason.TransientFailure? then [last.reason.attempts] else []
  }

  ghost predicate Increasing(a: seq<int>) {
    forall i, j :: 0 <= i < j < |a| ==> a[i] < a[j]
  }

  ghost predicate LoggedFor(t: Task, a: seq<int>) {
    && Increasing(a)
    && forall k :: 0 <= k < |a| ==>
         1 <= a[k] < t.maxAttempts && a[k] <= t.attempts && (t.status == Running ==> a[k] < t.attempts)
  }

  ghost predicate Logged(w: World) {
    forall id :: id in w.tasks ==> LoggedFor(w.tasks[id], Retried(w.settled, id))
  }

  lemma LogStays(t: Task, t': Task, a: seq<int>)
    requires LoggedFor(t, a) && Progress(t, t')
    ensures LoggedFor(t', a)
  {
  }

  lemma LogGrows(t: Task, t': Task, a: seq<int>, n: int)
    requires LoggedFor(t, a) && Joint(t) && Progress(t, t') && t'.status == Failed && n == t'.attempts < t'.maxAttempts
    requires n == t.attempts + if t.status != Running then 1 else 0
    ensures LoggedFor(t', a + [n])
  {
  }

  /** A lease comes back for a transient failure only after a run that failed at a new attempt. */
  lemma TransientNack(w: World, rank: Id -> nat, id: Id, env: Env)
    requires Base(w, rank)
    ensures Listed(w.tasks, w.order)
    ensures var (w1, reply, settlement) := Handle(w, id, env);
            settlement.Some? ==> && settlement.value.id == id
                                 && (settlement.value.Nack? && settlement.value.reason.TransientFailure? ==>
                                       && id in w.tasks && id in w1.tasks
                                       && var n := settlement.value.reason.attempts;
                                       && w1.tasks[id].status == Failed
                                       && n == w1.tasks[id].attempts < w1.tasks[id].maxAttempts
                                       && n == w.tasks[id].attempts + if w.tasks[id].status != Running then 1 else 0)
  {
    HandleCases(w, rank, id, env);
    if Reached(w, id) {
      ExecuteBase(w, rank, id, env);
    }
    hide Handle, ExecuteTask, Base, QueueReady;
  }

  lemma StepLogged(w: World, rank: Id -> nat, s: RunStep)
    requires Base(w, rank) && Logged(w)
    ensures Listed(w.tasks, w.order) && Logged(Next(w, s))
  {
    StepBase(w, rank, s);
    var w' := Next(w, s);
    forall x | x in w'.tasks
      ensures LoggedFor(w'.tasks[x], Retried(w'.settled, x))
    {
      assert LoggedFor(w.tasks[x], Retried(w.settled, x)) && Progress(w.tasks[x], w'.tasks[x]);
      LogStays(w.tasks[x], w'.tasks[x], Retried(w.settled, x));
      if s.Lease? && s.id in w.live {
        LeaseLogged(w, rank, s.id, s.env, x);
      } else {
        SettledSame(w, rank, s);
      }
    }
  }

  lemma SettledSame(w: World, rank: Id -> nat, s: RunStep)
    requires Base(w, rank) && !(s.Lease? && s.id in w.live)
    ensures Listed(w.tasks, w.order) && Next(w, s).settled == w.settled
  {
    WellFormedListed(w);
    match s {
      case Crash(id, env) => HandleBase(w, rank, id, env);
      case Tear(id, env) => TornLeaseBase(w, rank, id, env);
      case Begin(id, nowMs) =>
        if Reached(w, id) {
          StartBase(w, rank, id, nowMs);
        }
      case Approve(id, accepted) => HalfApprovingFacts(w, rank, id);
      case HalfApprove(id) => HalfApprovingFacts(w, rank, id);
      case Refuse(id, nowMs) => RefusingFacts(w, rank, id, nowMs);
      case _ =>
    }
    hide Handle, PersistStarted, HalfApproving, Refusing, Base, TornLease;
  }

  lemma RetriedGrows(settled: seq<Settlement>, s: Settlement, id: Id)
    ensures Retried(settled + [s], id)
            == Retried(settled, id)
               + if s.Nack? && s.id == id && s.reason.TransientFailure? then [s.reason.attempts] else []
  {
    assert (settled + [s])[..|settled|] == settled;
  }

  lemma LeaseLogged(w: World, rank: Id -> nat, id: Id, env: Env, x: Id)
    requires Base(w, rank) && Logged(w) && x in w.tasks
    ensures Listed(w.tasks, w.order)
    ensures var w' := Process(w, id, env).0;
            x in w'.tasks && LoggedFor(w'.tasks[x], Retried(w'.settled, x))
  {
    hide Handle, Base, Retried, LoggedFor, Joint;
    HandleBase(w, rank, id, env);
    TransientNack(w, rank, id, env);
    var (w1, reply, settlement) := Handle(w, id, env);
    assert LoggedFor(w.tasks[x], Retried(w.settled, x)) && Progress(w.tasks[x], w1.tasks[x]);
    hide Logged, Framed, Kept, Progress;
    LogStays(w.tasks[x], w1.tasks[x], Retried(w.settled, x));
    if settlement.Some? {
      var s := settlement.value;
      RetriedGrows(w.settled, s, x);
      if s.Nack? && s.reason.TransientFailure? && x == id {
        BaseJoint(w, rank, id);
        LogGrows(w.tasks[x], w1.tasks[x], Retried(w.settled, x), s.reason.attempts);
      } else {
        assert Retried(w.settled, x) + [] == Retried(w.settled, x);
      }
    }
  }

  lemma BaseJoint(w: World, rank: Id -> nat, id: Id)
    requires Base(w, rank) && id in w.tasks
    ensures Joint(w.tasks[id])
  {
  }

  lemma {:induction false} RunLogged(w: World, rank: Id -> nat, steps: seq<RunStep>)
    requires Base(w, rank) && Logged(w)
    ensures Logged(Run(w, rank, steps))
    ensures Kept(w.tasks, Run(w, rank, steps).tasks)
    decreases |steps|
  {
    if steps == [] {
      KeptSelf(w, rank);
    } else {
      var before, last := steps[..|steps| - 1], steps[|steps| - 1];
      RunLogged(w, rank, before);
      var w1 := Run(w, rank, before);
      StepLogged(w1, rank, last);
      StepBase(w1, rank, last);
      KeptTrans(w.tasks, w1.tasks, Next(w1, last).tasks);
      hide Next, Kept, Base, Logged;
    }
  }

  lemma {:induction false} IncreasingIsShort(a: seq<int>, max: int)
    requires Increasing(a) && max >= 1 && forall k :: 0 <= k < |a| ==> 1 <= a[k] < max
    ensures |a| <= max - 1
    ensures a != [] ==> |a| <= a[|a| - 1]
    decreases |a|
  {
    if a != [] {
      IncreasingIsShort(a[..|a| - 1], max);
      assert |a| > 1 ==> a[|a| - 2] < a[|a| - 1];
    }
  }

  /** Over a whole run a task's lease comes back for transient tool failures at strictly increasing
      attempt counts, so at most one time less than its attempt limit. */
  lemma RetriesAreBounded(w: World, rank: Id -> nat, steps: seq<RunStep>, id: Id)
    requires Base(w, rank) && w.settled == [] && id in w.tasks
    ensures var retried := Retried(Run(w, rank, steps).settled, id);
            Increasing(retried) && |retried| <= w.tasks[id].maxAttempts - 1
  {
    RunLogged(w, rank, steps);
    var end := Run(w, rank, steps);
    assert Progress(w.tasks[id], end.tasks[id]);
    assert LoggedFor(end.tasks[id], Retried(end.settled, id));
    BaseJoint(end, rank, id);
    IncreasingIsShort(Retried(end.settled, id), end.tasks[id].maxAttempts);
  }
}
