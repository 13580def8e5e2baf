/** Runs from a seeded plan that do stall, one for every kind of stranding step. */
module Witnesses {
  import opened Wrappers
  import opened Sequences
  import opened Lifecycle
  import opened Dependencies
  import opened Executor
  import opened Scheduling
  import opened Interruptions
  import opened NoStall
  import opened Stranding
  import opened Seeding

  // ---------- Two small plans ----------

  function NewTask(id: Id, dependsOn: seq<Id>): Task {
    Task(id, Pending, Some(ToolCall(id, CallPending, 0, None, None)), 0, 1, dependsOn, 0, None, None)
  }

  function Solo(): seq<Task> {
    [NewTask("a", [])]
  }

  function Pair(): seq<Task> {
    [NewTask("a", []), NewTask("b", ["a"])]
  }

  function RankAb(): Id -> nat {
    (id: Id) => if id == "b" then 1 else 0
  }

  /** A task freshly put in the queue. */
  function Enqueued(id: Id): Task {
    NewTask(id, []).(status := Queued)
  }

  ghost predicate SoloWorld(w: World) {
    w.tasks == map["a" := Enqueued("a")] && w.live == multiset{"a"} && Sound(w, RankAb())
  }

  ghost predicate PairWorld(w: World) {
    && w.tasks == map["a" := Enqueued("a"), "b" := NewTask("b", ["a"])] && w.live == multiset{"a"}
    && Sound(w, RankAb())
  }

  lemma SoloSeed()
    ensures SoloWorld(Seed(Solo()))
  {
    var tasks := Solo();
    assert FreshTask(tasks, RankAb(), tasks[0]);
    SeedSound(tasks, RankAb());
    SeedAt(tasks, 0);
    forall id | id in Seed(tasks).tasks
      ensures id == "a"
    {
      SeedOnly(tasks, id);
    }
    assert Free(tasks) == tasks by {
      assert tasks[1..] == [];
      assert Filter(IsFree(), tasks[1..]) == [];
    }
    assert IdsOf(Free(tasks)) == ["a"];
  }

  lemma PairFresh()
    ensures Fresh(Pair(), RankAb()) && IdsOf(Free(Pair())) == ["a"]
  {
    var tasks := Pair();
    assert tasks[0].id == "a" && tasks[1].id == "b";
    assert FreshTask(tasks, RankAb(), tasks[0]) && FreshTask(tasks, RankAb(), tasks[1]);
    assert Free(tasks) == [tasks[0]] by {
      assert tasks[1..] == [tasks[1]] && tasks[1..][1..] == [];
      assert Filter(IsFree(), tasks[1..]) == [];
    }
  }

  lemma PairSeed()
    ensures PairWorld(Seed(Pair()))
  {
    PairFresh();
    hide Free, Sound, Fresh, ById, MarkEnqueued;
    var tasks := Pair();
    SeedSound(tasks, RankAb());
    SeedAt(tasks, 0);
    SeedAt(tasks, 1);
    forall id | id in Seed(tasks).tasks
      ensures id in {"a", "b"}
    {
      SeedOnly(tasks, id);
    }
  }

  // ---------- Stalled for good ----------

  /** Nothing can happen any more, and somebody is not finished. */
  ghost predicate Stalled(w: World) {
    !Active(w) && Unfinished(w)
  }

  lemma {:induction false} RunAppends(w: World, rank: Id -> nat, a: seq<RunStep>, b: seq<RunStep>)
    requires Base(w, rank)
    ensures NoStall.Run(w, rank, a + b) == NoStall.Run(NoStall.Run(w, rank, a), rank, b)
    decreases |b|
  {
    if b == [] {
      assert a + b == a;
    } else {
      assert (a + b)[..|a + b| - 1] == a + b[..|b| - 1];
      RunAppends(w, rank, a, b[..|b| - 1]);
    }
  }

  ghost predicate Undecided(steps: seq<RunStep>) {
    forall k :: 0 <= k < |steps| ==> !steps[k].Refuse?
  }

  lemma StalledForGood(w: World, rank: Id -> nat, start: seq<RunStep>, steps: seq<RunStep>)
    requires Base(w, rank) && Stalled(NoStall.Run(w, rank, start)) && Undecided(steps)
    ensures Stalled(NoStall.Run(w, rank, start + steps))
  {
    RunAppends(w, rank, start, steps);
    QuietStaysQuiet(NoStall.Run(w, rank, start), rank, steps);
  }

  lemma RunOne(w: World, rank: Id -> nat, s: RunStep)
    requires Base(w, rank)
    ensures Listed(w.tasks, w.order) && NoStall.Run(w, rank, [s]) == NoStall.Next(w, s)
  {
    BaseListed(w, rank);
    assert [s][..0] == [];
    assert NoStall.Run(w, rank, []) == w;
  }

  lemma RunTwo(w: World, rank: Id -> nat, s: RunStep, s': RunStep)
    requires Base(w, rank)
    ensures Listed(w.tasks, w.order)
    ensures var w1 := NoStall.Next(w, s);
            Base(w1, rank) && Listed(w1.tasks, w1.order) && NoStall.Run(w, rank, [s, s']) == NoStall.Next(w1, s')
  {
    RunOne(w, rank, s);
    StepBase(w, rank, s);
    RunOne(NoStall.Next(w, s), rank, s');
    RunAppends(w, rank, [s], [s']);
    assert [s] + [s'] == [s, s'];
  }

  // ---------- What the steps do ----------

  function Anybody(): Id -> bool {
    (id: Id) => true
  }

  function FromLedger(): Env {
    Env(0, Cached, Anybody())
  }

  function Postponed(): Env {
    Env(0, Delayed(false), Anybody())
  }

  function AsksApproval(): Env {
    Env(0, Ran(false, Outcome(NeedsApproval, Some(ApprovalPending), false, ApprovalRequired)), Anybody())
  }

  function Works(accepts: Id -> bool): Env {
    Env(0, Ran(false, Outcome(Allowed, None, true, Permanent)), accepts)
  }

  /** A lease whose outcome asks for an approval puts its task to waiting and drops its entry. */
  lemma AskingNext(w: World, rank: Id -> nat, id: Id)
    requires Base(w, rank) && Reached(w, id) && id in w.live && w.tasks[id].status in {Queued, Running}
    ensures Listed(w.tasks, w.order)
    ensures var w' := NoStall.Next(w, Lease(id, AsksApproval()));
            && w'.tasks == w.tasks[id := w.tasks[id].(status := WaitingApproval)]
            && w'.live == w.live - multiset{id}
  {
    var env := AsksApproval();
    HandleCases(w, rank, id, env);
    ReachedLoads(w, rank, id);
    var t := w.tasks[id];
    WaitExact(t);
    assert Classify(t, env.attempt.outcome) == DWaitingApproval;
    assert MarkWaitingApproval(t, t.toolCall.value).Ok?;
    assert MarkWaitingApproval(t, t.toolCall.value).value.task == t.(status := WaitingApproval);
    hide Handle, MarkWaitingApproval, Base, Joint;
    assert Conclude(w, id, env).2 == Some(Ack(id));
  }

  lemma BeginNext(w: World, rank: Id -> nat, id: Id)
    requires Base(w, rank) && Reached(w, id) && id in w.live && Enabled(w.tasks[id], Start(0))
    ensures Listed(w.tasks, w.order)
    ensures var w' := NoStall.Next(w, Begin(id, 0));
            && OwnChange(w, id, w') && Reached(w', id) && Joint(w'.tasks[id])
            && w'.tasks[id].status == Running && w'.tasks[id].attempts == w.tasks[id].attempts + 1
            && w'.tasks[id].maxAttempts == w.tasks[id].maxAttempts
  {
    ReachedLoads(w, rank, id);
    StartBase(w, rank, id, 0);
    hide PersistStarted, Base, Evolves;
  }

  lemma PostponedNext(w: World, rank: Id -> nat, id: Id)
    requires Base(w, rank) && Reached(w, id) && id in w.live && w.tasks[id].status == Running
    requires w.tasks[id].attempts >= w.tasks[id].maxAttempts
    ensures Listed(w.tasks, w.order)
    ensures var w' := NoStall.Next(w, Lease(id, Postponed())); w'.tasks == w.tasks && w'.live == w.live - multiset{id}
  {
    HandleCases(w, rank, id, Postponed());
    ReachedLoads(w, rank, id);
    hide Handle, Base, Joint;
    assert Conclude(w, id, Postponed()) == (w, Ok(DFailedTransient), Some(Ack(id)));
  }

  lemma AloneIsReached(w: World)
    requires SoloWorld(w) || PairWorld(w)
    ensures Reached(w, "a") && Loads(w, "a") && Enabled(w.tasks["a"], Start(0)) && Base(w, RankAb())
  {
    assert Clear(w.tasks, w.tasks["a"]);
  }

  // ---------- The runs ----------

  /** A success taken from the ledger: the second task is never queued. */
  lemma CachedSuccessStalls(steps: seq<RunStep>)
    requires Undecided(steps)
    ensures Base(Seed(Pair()), RankAb())
    ensures Stalled(NoStall.Run(Seed(Pair()), RankAb(), [Lease("a", FromLedger())] + steps))
  {
    PairSeed();
    var w := Seed(Pair());
    hide Seed;
    AloneIsReached(w);
    CachedNext(w, RankAb(), "a", FromLedger());
    RunOne(w, RankAb(), Lease("a", FromLedger()));
    var w' := NoStall.Next(w, Lease("a", FromLedger()));
    hide NoStall.Next, Sound, Base;
    assert w'.live == multiset{};
    assert w'.tasks["b"].status == Pending && !Terminal(w'.tasks["b"]);
    assert forall id :: id in w'.tasks ==> id == "a" || id == "b";
    StalledForGood(w, RankAb(), [Lease("a", FromLedger())], steps);
  }

  /** A delay after the only attempt has begun: the task stays RUNNING without an entry. */
  lemma DelayStalls(steps: seq<RunStep>)
    requires Undecided(steps)
    ensures Base(Seed(Solo()), RankAb())
    ensures Stalled(NoStall.Run(Seed(Solo()), RankAb(), [Begin("a", 0), Lease("a", Postponed())] + steps))
  {
    SoloSeed();
    var w, rank := Seed(Solo()), RankAb();
    hide Seed;
    AloneIsReached(w);
    BeginNext(w, rank, "a");
    RunTwo(w, rank, Begin("a", 0), Lease("a", Postponed()));
    var w1 := NoStall.Next(w, Begin("a", 0));
    hide NoStall.Next, Sound, Base;
    PostponedNext(w1, rank, "a");
    var w2 := NoStall.Next(w1, Lease("a", Postponed()));
    assert w2.live == multiset{};
    assert !Terminal(w2.tasks["a"]) && forall id :: id in w2.tasks ==> id == "a";
    StalledForGood(w, rank, [Begin("a", 0), Lease("a", Postponed())], steps);
  }

  /** An approval asked for after the call has started: the task can never be approved. */
  lemma ParkingStalls(steps: seq<RunStep>)
    requires Undecided(steps)
    ensures Base(Seed(Solo()), RankAb())
    ensures var end := NoStall.Run(Seed(Solo()), RankAb(), [Begin("a", 0), Lease("a", AsksApproval())] + steps);
            Stalled(end) && "a" in end.tasks && Parked(end.tasks["a"])
  {
    SoloSeed();
    var w, rank := Seed(Solo()), RankAb();
    hide Seed;
    AloneIsReached(w);
    BeginNext(w, rank, "a");
    var start := [Begin("a", 0), Lease("a", AsksApproval())];
    RunTwo(w, rank, Begin("a", 0), Lease("a", AsksApproval()));
    var w1 := NoStall.Next(w, Begin("a", 0));
    hide NoStall.Next, Sound, Base;
    AskingNext(w1, rank, "a");
    var w2 := NoStall.Next(w1, Lease("a", AsksApproval()));
    assert w2.live == multiset{};
    assert w1.tasks["a"].toolCall.value.status == CallRunning;
    assert Parked(w2.tasks["a"]) && !Terminal(w2.tasks["a"]);
    assert forall id :: id in w2.tasks ==> id == "a";
    StalledForGood(w, rank, start, steps);
    RunAppends(w, rank, start, steps);
    QuietStaysQuiet(w2, rank, steps);
  }

  lemma DecisionNext(w: World, id: Id)
    requires Listed(w.tasks, w.order)
    ensures NoStall.Next(w, Refuse(id, 0)) == Refusing(w, id, 0)
    ensures NoStall.Next(w, HalfApprove(id)) == HalfApproving(w, id)
  {
  }

  /** The pair after its first task asked for an approval. */
  lemma PairAsks(w: World)
    requires PairWorld(w)
    ensures Listed(w.tasks, w.order)
    ensures var w' := NoStall.Next(w, Lease("a", AsksApproval()));
            && w'.live == multiset{}
            && w'.tasks == map["a" := Enqueued("a").(status := WaitingApproval), "b" := NewTask("b", ["a"])]
  {
    AloneIsReached(w);
    AskingNext(w, RankAb(), "a");
    hide NoStall.Next, Sound;
  }

  lemma SoloAsks(w: World)
    requires SoloWorld(w)
    ensures Listed(w.tasks, w.order)
    ensures var w' := NoStall.Next(w, Lease("a", AsksApproval()));
            w'.live == multiset{} && w'.tasks == map["a" := Enqueued("a").(status := WaitingApproval)]
  {
    AloneIsReached(w);
    AskingNext(w, RankAb(), "a");
    hide NoStall.Next, Sound;
  }

  lemma PairDenied(w: World, rank: Id -> nat)
    requires Base(w, rank) && w.live == multiset{}
    requires w.tasks == map["a" := Enqueued("a").(status := WaitingApproval), "b" := NewTask("b", ["a"])]
    ensures Stalled(Refusing(w, "a", 0))
  {
    RefusingFacts(w, rank, "a", 0);
    var w' := Refusing(w, "a", 0);
    hide Refusing, Base, Moves, Kept;
    assert w'.tasks["b"] == NewTask("b", ["a"]) && !Terminal(w'.tasks["b"]);
    assert forall id :: id in w'.tasks ==> id == "a" || id == "b";
  }

  lemma SoloHalfApproved(w: World, rank: Id -> nat)
    requires Base(w, rank) && w.live == multiset{} && w.tasks == map["a" := Enqueued("a").(status := WaitingApproval)]
    ensures Stalled(HalfApproving(w, "a"))
  {
    HalfApprovingFacts(w, rank, "a");
    var w' := HalfApproving(w, "a");
    hide HalfApproving, Base, Moves, Kept;
    assert !Terminal(w'.tasks["a"]) && forall id :: id in w'.tasks ==> id == "a";
  }

  /** A denial: the dependent of the denied task stays PENDING. */
  lemma DenialStalls(steps: seq<RunStep>)
    requires Undecided(steps)
    ensures Base(Seed(Pair()), RankAb())
    ensures Stalled(NoStall.Run(Seed(Pair()), RankAb(), [Lease("a", AsksApproval()), Refuse("a", 0)] + steps))
  {
    PairSeed();
    var w, rank := Seed(Pair()), RankAb();
    AloneIsReached(w);
    PairAsks(w);
    hide *;
    RunTwo(w, rank, Lease("a", AsksApproval()), Refuse("a", 0));
    var w1 := NoStall.Next(w, Lease("a", AsksApproval()));
    DecisionNext(w1, "a");
    PairDenied(w1, rank);
    StalledForGood(w, rank, [Lease("a", AsksApproval()), Refuse("a", 0)], steps);
  }

  /** A service that dies between committing an approval and enqueueing: the task stays QUEUED without an
      entry. */
  lemma HalfApprovalStalls(steps: seq<RunStep>)
    requires Undecided(steps)
    ensures Base(Seed(Solo()), RankAb())
    ensures Stalled(NoStall.Run(Seed(Solo()), RankAb(), [Lease("a", AsksApproval()), HalfApprove("a")] + steps))
  {
    SoloSeed();
    var w, rank := Seed(Solo()), RankAb();
    AloneIsReached(w);
    SoloAsks(w);
    hide *;
    RunTwo(w, rank, Lease("a", AsksApproval()), HalfApprove("a"));
    var w1 := NoStall.Next(w, Lease("a", AsksApproval()));
    DecisionNext(w1, "a");
    SoloHalfApproved(w1, rank);
    StalledForGood(w, rank, [Lease("a", AsksApproval()), HalfApprove("a")], steps);
  }

  // ---------- Death in the middle of queueing ----------

  lemma WorkedPersists(w: World, rank: Id -> nat, id: Id)
    requires Base(w, rank) && Reached(w, id) && Loads(w, id) && Listed(w.tasks, w.order)
    requires w.tasks[id].status == Queued && Enabled(w.tasks[id], Start(0))
    ensures var env := Works(Nobody());
            var w1 := PersistOutcome(w, id, env.attempt.outcome, env).0;
            OwnChange(w, id, w1) && w1.tasks[id].status == Succeeded
  {
    var env, t := Works(Nobody()), w.tasks[id];
    CachedFacts(t, 0);
    var d := Classify(t, env.attempt.outcome);
    assert d == DSucceeded;
    var r := ApplyStateTransition(t, t.toolCall.value, d, 0);
    assert r.Ok? && Applied(t, DSucceeded, r.value.task);
    hide ApplyStateTransition, Joint, Applied, StartExecution, CompleteSucceeded, Base, QueueReady;
    var w1 := w.(tasks := w.tasks[id := r.value.task]);
    AppliedMoves(w, rank, id, d, r.value.task);
    NobodyIsQueued(w1, rank, id);
    assert PersistOutcome(w, id, env.attempt.outcome, env).0 == w1;
  }

  /** A run that works commits its success before anybody is queued. */
  lemma WorkedCommits(w: World, rank: Id -> nat, id: Id, accepts: Id -> bool)
    requires Base(w, rank) && Reached(w, id) && w.tasks[id].status == Queued && Loads(w, id)
    requires Enabled(w.tasks[id], Start(0))
    ensures Listed(w.tasks, w.order)
    ensures var w1 := Committed(w, id, Works(accepts)); OwnChange(w, id, w1) && w1.tasks[id].status == Succeeded
    ensures Queues(w, id, Works(accepts))
  {
    var env := Works(Nobody());
    assert Works(accepts).(accepts := Nobody()) == env;
    hide Handle, Base, PersistOutcome, Conclude, Reached, Loads, Works, Enabled;
    HandleCases(w, rank, id, env);
    WorkedPersists(w, rank, id);
    WorkedConcludes(w, id);
  }

  lemma WorkedConcludes(w: World, id: Id)
    requires Listed(w.tasks, w.order) && Loads(w, id) && w.tasks[id].status == Queued
    ensures var env := Works(Nobody());
            Conclude(w, id, env).0 == PersistOutcome(w, id, env.attempt.outcome, env).0
  {
    hide PersistOutcome, Listed;
  }

  lemma PairTears(w: World)
    requires PairWorld(w)
    ensures Listed(w.tasks, w.order)
    ensures var w' := TornLease(w, "a", Works(Nobody()));
            && w'.live == multiset{"a"} && w'.tasks.Keys == {"a", "b"}
            && w'.tasks["a"].status == Succeeded && w'.tasks["b"].status == Queued
  {
    AloneIsReached(w);
    WorkedCommits(w, RankAb(), "a", Nobody());
    HandleBase(w, RankAb(), "a", Works(Nobody()).(accepts := Nobody()));
    hide Handle, Sound, Queues, QueueReady, Torn, Mark;
    var w1 := Committed(w, "a", Works(Nobody()));
    assert w1.tasks["b"] == w.tasks["b"];
    BaseListed(w1, RankAb());
    PairMarked(w1, RankAb());
  }

  lemma PairMarked(w: World, rank: Id -> nat)
    requires Base(w, rank) && Listed(w.tasks, w.order) && w.tasks.Keys == {"a", "b"}
    requires w.tasks["a"].status == Succeeded && w.tasks["b"] == NewTask("b", ["a"])
    ensures var w' := Torn(w, "a", Nobody());
            && w'.live == w.live && w'.tasks.Keys == {"a", "b"}
            && w'.tasks["a"].status == Succeeded && w'.tasks["b"].status == Queued
  {
    hide QueueReady, Torn, Mark;
    NobodyIsQueued(w, rank, "a");
    TornIsMarked(w, rank, "a", Nobody());
    PairMark(w, rank);
    hide Base;
  }

  lemma PairMark(w: World, rank: Id -> nat)
    requires Base(w, rank) && w.tasks.Keys == {"a", "b"} && w.tasks["a"].status == Succeeded
    requires w.tasks["b"] == NewTask("b", ["a"])
    ensures Listed(w.tasks, w.order) && Mark(w, "a", Nobody()) == Some(w.tasks["b"])
  {
    var b := w.tasks["b"];
    ListReady(w, "a");
    assert b.dependsOn == ["a"] && Clear(w.tasks, b) && Stores(w, b);
    var ready := ReadyAt(w, "a");
    assert b in ready;
    assert ready[0] in ready && ready[0].id in {"a", "b"};
  }

  /** With nobody pending, a redelivered success only drops its entry. */
  lemma RedeliveredNext(w: World, rank: Id -> nat)
    requires Base(w, rank) && w.live == multiset{"a"} && w.tasks.Keys == {"a", "b"}
    requires w.tasks["a"].status == Succeeded && w.tasks["b"].status == Queued
    ensures Listed(w.tasks, w.order)
    ensures var w' := NoStall.Next(w, Lease("a", FromLedger())); w'.tasks == w.tasks && w'.live == multiset{}
  {
    HandleCases(w, rank, "a", FromLedger());
    ListReady(w, "a");
    var ready := Ready("a", List(w.tasks, w.order));
    assert forall t :: t in ready ==> t.id in {"a", "b"};
    assert ready == [];
    hide Handle, Ready, List, Base;
  }

  lemma TearNext(w: World, id: Id, env: Env)
    requires Listed(w.tasks, w.order) && id in w.live
    ensures NoStall.Next(w, Tear(id, env)) == TornLease(w, id, env)
  {
    hide TornLease;
  }

  lemma QueuedIsStalled(w: World)
    requires w.live == multiset{} && w.tasks.Keys == {"a", "b"}
    requires w.tasks["a"].status == Succeeded && w.tasks["b"].status == Queued
    ensures Stalled(w)
  {
    assert !Terminal(w.tasks["b"]);
    assert forall id :: id in w.tasks ==> id == "a" || id == "b";
  }

  /** A worker that dies between marking the second task QUEUED and enqueueing it: the redelivered lease
      finds nobody pending, and the second task stays QUEUED without an entry. */
  lemma TearStalls(steps: seq<RunStep>)
    requires Undecided(steps)
    ensures Base(Seed(Pair()), RankAb())
    ensures Stalled(NoStall.Run(Seed(Pair()), RankAb(), [Tear("a", Works(Nobody())), Lease("a", FromLedger())] + steps))
  {
    PairSeed();
    var w, rank := Seed(Pair()), RankAb();
    AloneIsReached(w);
    PairTears(w);
    assert "a" in w.live;
    hide *;
    TearNext(w, "a", Works(Nobody()));
    RunTwo(w, rank, Tear("a", Works(Nobody())), Lease("a", FromLedger()));
    var w1 := NoStall.Next(w, Tear("a", Works(Nobody())));
    RedeliveredNext(w1, rank);
    QueuedIsStalled(NoStall.Next(w1, Lease("a", FromLedger())));
    StalledForGood(w, rank, [Tear("a", Works(Nobody())), Lease("a", FromLedger())], steps);
  }
}
