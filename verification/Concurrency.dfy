/** The executor's concurrency limiter: `executor/concurrency.py`.  Each lock-protected body is one step. */
module Concurrency {
  import opened Wrappers

  type Tool = string

  datatype Limits = Limits(maxGlobal: int, perTool: map<Tool, int>)

  ghost predicate ValidLimits(l: Limits) {
    && l.maxGlobal > 0
    && forall t :: t in l.perTool ==> t != "" && 0 < l.perTool[t] <= l.maxGlobal
  }

  datatype LimitError = BadGlobal | EmptyName | BadLimit | AboveGlobal | DuplicateName

  /** What the check accepts: a positive global limit and, after stripping, distinct non-empty names with
      positive limits within it. */
  ghost predicate Acceptable(maxGlobal: int, perTool: seq<(string, int)>, strip: string -> string) {
    && maxGlobal > 0
    && (forall i :: 0 <= i < |perTool| ==> strip(perTool[i].0) != "" && 0 < perTool[i].1 <= maxGlobal)
    && (forall i, j :: 0 <= i < j < |perTool| ==> strip(perTool[i].0) != strip(perTool[j].0))
  }

  method MakeLimits(
    maxGlobal: int, perTool: seq<(string, int)>, strip: string -> string) returns (r: Result<Limits, LimitError>)
    ensures r.Ok? <==> Acceptable(maxGlobal, perTool, strip)
    ensures r.Ok? ==> ValidLimits(r.value) && r.value.maxGlobal == maxGlobal
    ensures r.Ok? ==> forall i :: 0 <= i < |perTool| ==>
                        strip(perTool[i].0) in r.value.perTool && r.value.perTool[strip(perTool[i].0)] == perTool[i].1
    ensures r.Ok? ==> forall t :: t in r.value.perTool ==> exists i :: 0 <= i < |perTool| && strip(perTool[i].0) == t
  {
    if maxGlobal <= 0 {
      return Err(BadGlobal);
    }
    var normalized: map<Tool, int> := map[];
    for i := 0 to |perTool|
      invariant forall k :: 0 <= k < i ==> strip(perTool[k].0) != "" && 0 < perTool[k].1 <= maxGlobal
      invariant forall j, k :: 0 <= j < k < i ==> strip(perTool[j].0) != strip(perTool[k].0)
      invariant forall k :: 0 <= k < i ==>
                strip(perTool[k].0) in normalized && normalized[strip(perTool[k].0)] == perTool[k].1
      invariant forall t :: t in normalized ==> exists k :: 0 <= k < i && strip(perTool[k].0) == t
    {
      var name, limit := strip(perTool[i].0), perTool[i].1;
      if name == "" {
        return Err(EmptyName);
      }
      if limit <= 0 {
        return Err(BadLimit);
      }
      if limit > maxGlobal {
        return Err(AboveGlobal);
      }
      if name in normalized {
        return Err(DuplicateName);
      }
      normalized := normalized[name := limit];
    }
    return Ok(Limits(maxGlobal, normalized));
  }

  // ---------- The counters ----------

  datatype Counters = Counters(total: int, byTool: map<Tool, int>)

  function CountOf(c: Counters, t: Tool): int {
    if t in c.byTool then c.byTool[t] else 0
  }

  predicate HasCapacity(l: Limits, c: Counters, t: Tool) {
    c.total < l.maxGlobal && (t in l.perTool ==> CountOf(c, t) < l.perTool[t])
  }

  function Acquired(c: Counters, t: Tool): Counters {
    Counters(c.total + 1, c.byTool[t := CountOf(c, t) + 1])
  }

  function Released(c: Counters, t: Tool): Counters {
    var remaining := CountOf(c, t) - 1;
    Counters(c.total - 1, if remaining > 0 then c.byTool[t := remaining] else c.byTool - {t})
  }

  /** The counters are exact for the calls in flight, and within the limits. */
  ghost predicate Exact(l: Limits, c: Counters, holders: multiset<Tool>) {
    && c.total == |holders| && c.total <= l.maxGlobal
    && (forall t :: t in c.byTool <==> t in holders)
    && (forall t :: t in c.byTool ==> c.byTool[t] == holders[t])
    && (forall t :: t in l.perTool ==> holders[t] <= l.perTool[t])
  }

  class ConcurrencyLimiter {
    const limits: Limits
    var total: int
    var byTool: map<Tool, int>
    ghost var holders: multiset<Tool>

    ghost predicate Valid()
      reads this
    {
      ValidLimits(limits) && Exact(limits, State(), holders)
    }

    function State(): Counters
      reads this
    {
      Counters(total, byTool)
    }

    constructor (limits: Limits)
      requires ValidLimits(limits)
      ensures Valid() && this.limits == limits && holders == multiset{}
    {
      this.limits, total, byTool, holders := limits, 0, map[], multiset{};
    }

    /** One look at the condition: take a slot if there is one, otherwise keep waiting. */
    method TryAcquire(t: Tool) returns (acquired: bool)
      requires Valid()
      modifies this
      ensures Valid()
      ensures acquired <==> HasCapacity(limits, old(State()), t)
      ensures acquired ==> State() == Acquired(old(State()), t) && holders == old(holders) + multiset{t}
      ensures !acquired ==> State() == old(State()) && holders == old(holders)
    {
      if total >= limits.maxGlobal {
        return false;
      }
      if t in limits.perTool && (if t in byTool then byTool[t] else 0) >= limits.perTool[t] {
        return false;
      }
      AcquireExact(limits, State(), holders, t);
      total := total + 1;
      byTool := byTool[t := (if t in byTool then byTool[t] else 0) + 1];
      holders := holders + multiset{t};
      return true;
    }

    method Release(t: Tool)
      requires Valid() && t in holders
      modifies this
      ensures Valid()
      ensures State() == Released(old(State()), t) && holders == old(holders) - multiset{t}
    {
      ReleaseExact(limits, State(), holders, t);
      total := total - 1;
      var remaining := (if t in byTool then byTool[t] else 0) - 1;
      if remaining > 0 {
        byTool := byTool[t := remaining];
      } else {
        byTool := byTool - {t};
      }
      holders := holders - multiset{t};
    }
  }

  lemma AcquireExact(l: Limits, c: Counters, holders: multiset<Tool>, t: Tool)
    requires Exact(l, c, holders) && HasCapacity(l, c, t)
    ensures Exact(l, Acquired(c, t), holders + multiset{t})
  {
  }

  lemma ReleaseExact(l: Limits, c: Counters, holders: multiset<Tool>, t: Tool)
    requires Exact(l, c, holders) && t in holders
    ensures Exact(l, Released(c, t), holders - multiset{t})
  {
  }

  // ---------- Every interleaving ----------

  /** Counters, calls in flight, and calls that wait for capacity. */
  datatype Floor = Floor(counters: Counters, holders: multiset<Tool>, waiting: multiset<Tool>)

  /** A call arrives; a waiting call looks again; a waiting call is canceled; a call in flight ends. */
  datatype Move = Arrive(tool: Tool) | Retry(tool: Tool) | GiveUp(tool: Tool) | End(tool: Tool)

  function Next(l: Limits, f: Floor, m: Move): Floor {
    match m
    case Arrive(t) =>
      if HasCapacity(l, f.counters, t) then f.(counters := Acquired(f.counters, t), holders := f.holders + multiset{t})
      else f.(waiting := f.waiting + multiset{t})
    case Retry(t) =>
      if t in f.waiting && HasCapacity(l, f.counters, t) then
        Floor(Acquired(f.counters, t), f.holders + multiset{t}, f.waiting - multiset{t})
      else f
    case GiveUp(t) => f.(waiting := f.waiting - multiset{t})
    case End(t) =>
      if t in f.holders then f.(counters := Released(f.counters, t), holders := f.holders - multiset{t})
      else f
  }

  function Run(l: Limits, moves: seq<Move>): Floor {
    if moves == [] then Floor(Counters(0, map[]), multiset{}, multiset{})
    else Next(l, Run(l, moves[..|moves| - 1]), moves[|moves| - 1])
  }

  function Arrives(m: Move, t: Tool): nat {
    if m == Arrive(t) then 1 else 0
  }

  function Ends(f: Floor, m: Move, t: Tool): nat {
    if m == End(t) && t in f.holders then 1 else 0
  }

  function Quits(f: Floor, m: Move, t: Tool): nat {
    if m == GiveUp(t) && t in f.waiting then 1 else 0
  }

  /** How many calls of a tool arrived. */
  function Arrived(moves: seq<Move>, t: Tool): nat {
    if moves == [] then 0 else Arrived(moves[..|moves| - 1], t) + Arrives(moves[|moves| - 1], t)
  }

  /** How many calls of a tool ended. */
  function Ended(l: Limits, moves: seq<Move>, t: Tool): nat {
    if moves == [] then 0
    else Ended(l, moves[..|moves| - 1], t) + Ends(Run(l, moves[..|moves| - 1]), moves[|moves| - 1], t)
  }

  /** How many calls of a tool were canceled while they waited. */
  function Quit(l: Limits, moves: seq<Move>, t: Tool): nat {
    if moves == [] then 0
    else Quit(l, moves[..|moves| - 1], t) + Quits(Run(l, moves[..|moves| - 1]), moves[|moves| - 1], t)
  }

  lemma NextExact(l: Limits, f: Floor, m: Move)
    requires Exact(l, f.counters, f.holders)
    ensures var f' := Next(l, f, m); Exact(l, f'.counters, f'.holders)
  {
    match m {
      case Arrive(t) => if HasCapacity(l, f.counters, t) { AcquireExact(l, f.counters, f.holders, t); }
      case Retry(t) => if HasCapacity(l, f.counters, t) { AcquireExact(l, f.counters, f.holders, t); }
      case GiveUp(t) =>
      case End(t) => if t in f.holders { ReleaseExact(l, f.counters, f.holders, t); }
    }
    hide Acquired, Released, Exact, HasCapacity;
  }

  lemma NextConserves(l: Limits, f: Floor, m: Move, t: Tool)
    ensures var f' := Next(l, f, m);
            f.waiting[t] + f.holders[t] + Arrives(m, t)
            == f'.waiting[t] + f'.holders[t] + Ends(f, m, t) + Quits(f, m, t)
  {
    hide Acquired, Released, HasCapacity;
  }

  /** In every interleaving the counters are exact and within the limits, and no call is lost: each that
      arrived waits, is in flight, has ended, or was canceled while it waited. */
  lemma {:induction false} RunsAreExact(l: Limits, moves: seq<Move>)
    requires ValidLimits(l)
    ensures var f := Run(l, moves);
            && Exact(l, f.counters, f.holders)
            && forall t :: Arrived(moves, t) == f.waiting[t] + f.holders[t] + Ended(l, moves, t) + Quit(l, moves, t)
    decreases |moves|
  {
    if moves != [] {
      var before, last := moves[..|moves| - 1], moves[|moves| - 1];
      RunsAreExact(l, before);
      var f := Run(l, before);
      NextExact(l, f, last);
      hide Next, Exact, Arrives, Ends, Quits;
      forall t
        ensures Arrived(moves, t)
             == Run(l, moves).waiting[t] + Run(l, moves).holders[t] + Ended(l, moves, t) + Quit(l, moves, t)
      {
        NextConserves(l, f, last, t);
      }
    }
  }

  /** A call that cannot start waits for a call in flight whose end alone makes room for it. */
  lemma BlockedHasHolder(l: Limits, c: Counters, holders: multiset<Tool>, t: Tool)
    requires ValidLimits(l) && Exact(l, c, holders) && !HasCapacity(l, c, t)
    ensures exists h :: h in holders && HasCapacity(l, Released(c, h), t)
  {
    if t in l.perTool && CountOf(c, t) >= l.perTool[t] {
      assert t in holders && HasCapacity(l, Released(c, t), t);
    } else {
      assert |holders| > 0;
      var h :| h in holders;
      assert HasCapacity(l, Released(c, h), t);
    }
  }

  /** The per-tool counts add up to the total. */
  lemma {:induction false} CountsAddUp(byTool: map<Tool, int>, holders: multiset<Tool>)
    requires (forall t :: t in byTool <==> t in holders) && forall t :: t in byTool ==> byTool[t] == holders[t]
    ensures Sum(byTool) == |holders|
    ensures forall t :: t in byTool ==> byTool[t] > 0
    decreases byTool.Keys
  {
    if byTool.Keys != {} {
      var t := AnyKey(byTool);
      var rest := holders[t := 0];
      assert |holders| == |rest| + holders[t];
      CountsAddUp(byTool - {t}, rest);
    } else {
      assert holders == multiset{};
    }
  }

  ghost function AnyKey(m: map<Tool, int>): Tool
    requires m.Keys != {}
    ensures AnyKey(m) in m
  {
    var t :| t in m;
    t
  }

  ghost function Sum(m: map<Tool, int>): int
    decreases m.Keys
  {
    if m.Keys == {} then 0 else m[AnyKey(m)] + Sum(m - {AnyKey(m)})
  }

  /** In every interleaving the total is the sum of the per-tool counts, and stored counts are positive. */
  lemma TotalsAgree(l: Limits, moves: seq<Move>)
    requires ValidLimits(l)
    ensures var c := Run(l, moves).counters;
            c.total == Sum(c.byTool) <= l.maxGlobal && forall t :: t in c.byTool ==> c.byTool[t] > 0
  {
    RunsAreExact(l, moves);
    var f := Run(l, moves);
    CountsAddUp(f.counters.byTool, f.holders);
  }
}
