/** The token bucket of `guards/rate_limit/token_bucket.py`, over `real` time and tokens.

    `Bucket` is the mutable object of the source.  `Loaded`, `Refilled` and `Consumed` say what its
    methods compute; the lemmas below them say what that is worth over whole runs. */
module TokenBuckets {
  import opened Wrappers

  datatype Spec = Spec(capacity: real, refillRatePerS: real, burst: real) {
    predicate Valid() {
      capacity >= 0.0 && refillRatePerS >= 0.0 && burst >= 0.0 && capacity + burst > 0.0
    }

    function MaxTokens(): real {
      capacity + burst
    }

    function RefillOver(elapsedS: real): real {
      elapsedS * refillRatePerS
    }
  }

  datatype BucketState = BucketState(tokens: real, updatedAtS: real) {
    predicate Valid() {
      tokens >= 0.0 && updatedAtS >= 0.0
    }

    predicate Within(spec: Spec) {
      Valid() && tokens <= spec.MaxTokens()
    }
  }

  /** `Rejected` is the source's `ValueError`; a retry time of `None` means "never". */
  datatype Verdict = Rejected | Decided(allowed: bool, retryAfterS: Option<real>)

  function Min(a: real, b: real): real {
    if a <= b then a else b
  }

  function Loaded(spec: Spec, state: Option<BucketState>, nowS: real): BucketState {
    match state
    case None => BucketState(spec.MaxTokens(), nowS)
    case Some(s) => BucketState(Min(spec.MaxTokens(), s.tokens), s.updatedAtS)
  }

  function Refilled(spec: Spec, s: BucketState, nowS: real): BucketState {
    if nowS <= s.updatedAtS then s.(updatedAtS := nowS)
    else BucketState(Min(spec.MaxTokens(), s.tokens + spec.RefillOver(nowS - s.updatedAtS)), nowS)
  }

  function Consumed(spec: Spec, s: BucketState, cost: real, nowS: real): (BucketState, Verdict) {
    if cost < 0.0 || nowS < 0.0 then (s, Rejected)
    else
      var r := Refilled(spec, s, nowS);
      if cost > spec.MaxTokens() then (r, Decided(false, None))
      else if cost <= r.tokens then (r.(tokens := r.tokens - cost), Decided(true, Some(0.0)))
      else if spec.refillRatePerS <= 0.0 then (r, Decided(false, None))
      else (r, Decided(false, Some((cost - r.tokens) / spec.refillRatePerS)))
  }

  class Bucket {
    const spec: Spec
    var tokens: real
    var updatedAtS: real

    ghost predicate Valid()
      reads this
    {
      spec.Valid() && State().Within(spec)
    }

    function State(): BucketState
      reads this
    {
      BucketState(tokens, updatedAtS)
    }

    constructor FromState(spec: Spec, state: Option<BucketState>, nowS: real)
      requires spec.Valid()
      requires if state.Some? then state.value.Valid() else nowS >= 0.0
      ensures Valid() && this.spec == spec
      ensures State() == Loaded(spec, state, nowS)
    {
      this.spec := spec;
      match state {
        case None =>
          tokens, updatedAtS := spec.MaxTokens(), nowS;
        case Some(s) =>
          tokens, updatedAtS := Min(spec.MaxTokens(), s.tokens), s.updatedAtS;
      }
    }

    method Refill(nowS: real)
      requires Valid() && nowS >= 0.0
      modifies this
      ensures Valid()
      ensures State() == Refilled(spec, old(State()), nowS)
    {
      var elapsedS := if nowS - updatedAtS > 0.0 then nowS - updatedAtS else 0.0;
      if elapsedS <= 0.0 {
        updatedAtS := nowS;
        return;
      }
      var refill := elapsedS * spec.refillRatePerS;
      tokens := Min(spec.MaxTokens(), tokens + refill);
      updatedAtS := nowS;
    }

    method Consume(cost: real, nowS: real) returns (v: Verdict)
      requires Valid()
      modifies this
      ensures Valid()
      ensures (State(), v) == Consumed(spec, old(State()), cost, nowS)
    {
      if cost < 0.0 || nowS < 0.0 {
        return Rejected;
      }
      Refill(nowS);
      if cost > spec.MaxTokens() {
        return Decided(false, None);
      }
      if cost <= tokens {
        tokens := tokens - cost;
        return Decided(true, Some(0.0));
      }
      var deficit := cost - tokens;
      if spec.refillRatePerS <= 0.0 {
        return Decided(false, None);
      }
      return Decided(false, Some(deficit / spec.refillRatePerS));
    }
  }

  // ---------- Products ----------

  lemma MulMono(a: real, b: real, r: real)
    requires a <= b && r >= 0.0
    ensures a * r <= b * r
  {
    assert (b - a) * r >= 0.0;
  }

  lemma MulAdd(a: real, b: real, r: real)
    ensures (a + b) * r == a * r + b * r
  {
  }

  // ---------- One step ----------

  /** What a request takes out of the bucket. */
  function Admitted(v: Verdict, cost: real): (r: real) {
    if v.Decided? && v.allowed then cost else 0.0
  }

  /** The bucket stays in [0, max], and a step never creates tokens: what it leaves plus what it
      admits is at most what was there plus the refill for the time that passed. */
  lemma StepConserves(spec: Spec, s: BucketState, cost: real, nowS: real)
    requires spec.Valid() && s.Within(spec) && s.updatedAtS <= nowS
    ensures var (s', v) := Consumed(spec, s, cost, nowS);
            && s'.Within(spec)
            && s'.tokens + Admitted(v, cost) <= s.tokens + spec.RefillOver(nowS - s.updatedAtS)
            && s'.tokens + Admitted(v, cost) <= spec.MaxTokens()
            && (v.Decided? ==> s'.updatedAtS == nowS)
            && (v.Rejected? <==> cost < 0.0) && (v.Rejected? ==> s' == s)
  {
    MulMono(0.0, nowS - s.updatedAtS, spec.refillRatePerS);
  }

  /** Refilling in two goes is refilling once: how often the bucket is looked at does not matter. */
  lemma RefillComposes(spec: Spec, s: BucketState, t1: real, t2: real)
    requires spec.Valid() && s.Within(spec) && s.updatedAtS <= t1 <= t2
    ensures Refilled(spec, Refilled(spec, s, t1), t2) == Refilled(spec, s, t2)
  {
    MulAdd(t1 - s.updatedAtS, t2 - t1, spec.refillRatePerS);
    MulMono(0.0, t1 - s.updatedAtS, spec.refillRatePerS);
    MulMono(0.0, t2 - t1, spec.refillRatePerS);
  }

  /** A denial's retry time is exact: without other traffic the same cost is admitted at a later
      instant `t` if and only if `t` has reached it, and a `None` means it is never admitted. */
  lemma RetryAfterIsExact(spec: Spec, s: BucketState, cost: real, nowS: real, t: real)
    requires spec.Valid() && s.Within(spec) && 0.0 <= s.updatedAtS <= nowS <= t
    requires var v := Consumed(spec, s, cost, nowS).1; v.Decided? && !v.allowed
    ensures var (s', v) := Consumed(spec, s, cost, nowS);
            Consumed(spec, s', cost, t).1.allowed
            <==> v.retryAfterS.Some? && t >= nowS + v.retryAfterS.value
  {
    var (s', v) := Consumed(spec, s, cost, nowS);
    var rate, wait := spec.refillRatePerS, t - nowS;
    StepConserves(spec, s, cost, nowS);
    assert s'.updatedAtS == nowS && cost > s'.tokens;
    if v.retryAfterS.Some? {
      var d := v.retryAfterS.value;
      assert d * rate == cost - s'.tokens;
      if wait >= d {
        assert wait * rate >= d * rate;
      } else {
        assert wait * rate < d * rate;
      }
    }
  }

  // ---------- Whole runs ----------

  datatype Request = Request(cost: real, nowS: real)

  ghost predicate Monotone(reqs: seq<Request>, startS: real) {
    && (forall i :: 0 <= i < |reqs| ==> startS <= reqs[i].nowS)
    && (forall i, j :: 0 <= i < j < |reqs| ==> reqs[i].nowS <= reqs[j].nowS)
  }

  lemma MonotoneSlices(reqs: seq<Request>, startS: real, i: nat, j: nat)
    requires Monotone(reqs, startS) && i <= j < |reqs|
    ensures Monotone(reqs[..i], startS) && Monotone(reqs[i..j + 1], reqs[i].nowS)
    ensures startS <= reqs[i].nowS <= reqs[j].nowS == Last(reqs[i..j + 1]).nowS
    ensures i > 0 ==> Last(reqs[..i]).nowS <= reqs[i].nowS
  {
    assert forall k {:trigger reqs[i..j + 1][k]} :: 0 <= k <= j - i ==> reqs[i..j + 1][k] == reqs[i + k];
  }

  function RunState(spec: Spec, s: BucketState, reqs: seq<Request>): BucketState {
    if reqs == [] then s
    else Consumed(spec, RunState(spec, s, reqs[..|reqs| - 1]), Last(reqs).cost, Last(reqs).nowS).0
  }

  function Last(reqs: seq<Request>): Request
    requires reqs != []
  {
    reqs[|reqs| - 1]
  }

  /** The cost admitted by a run from `s`. */
  function TotalAdmitted(spec: Spec, s: BucketState, reqs: seq<Request>): real {
    if reqs == [] then 0.0
    else
      var before := reqs[..|reqs| - 1];
      var v := Consumed(spec, RunState(spec, s, before), Last(reqs).cost, Last(reqs).nowS).1;
      TotalAdmitted(spec, s, before) + Admitted(v, Last(reqs).cost)
  }

  lemma {:induction false} RunKeepsState(spec: Spec, s: BucketState, reqs: seq<Request>)
    requires spec.Valid() && s.Within(spec) && Monotone(reqs, s.updatedAtS)
    ensures RunState(spec, s, reqs).Within(spec)
    ensures reqs == [] ==> RunState(spec, s, reqs) == s
    ensures reqs != [] ==> s.updatedAtS <= RunState(spec, s, reqs).updatedAtS <= Last(reqs).nowS
  {
    if reqs != [] {
      var before := reqs[..|reqs| - 1];
      RunKeepsState(spec, s, before);
      StepConserves(spec, RunState(spec, s, before), Last(reqs).cost, Last(reqs).nowS);
    }
  }

  /** Tokens measured against the clock: a refill never raises this level, a grant lowers it. */
  function Level(spec: Spec, s: BucketState): real {
    s.tokens - spec.RefillOver(s.updatedAtS)
  }

  lemma StepLevel(spec: Spec, s: BucketState, cost: real, nowS: real)
    requires spec.Valid() && s.Within(spec) && s.updatedAtS <= nowS
    ensures var (s', v) := Consumed(spec, s, cost, nowS);
            Level(spec, s') + Admitted(v, cost) <= Level(spec, s)
  {
    StepConserves(spec, s, cost, nowS);
    MulAdd(nowS - s.updatedAtS, s.updatedAtS, spec.refillRatePerS);
  }

  lemma {:induction false} RunConserves(spec: Spec, s: BucketState, reqs: seq<Request>)
    requires spec.Valid() && s.Within(spec) && Monotone(reqs, s.updatedAtS)
    ensures Level(spec, RunState(spec, s, reqs)) + TotalAdmitted(spec, s, reqs) <= Level(spec, s)
  {
    if reqs != [] {
      var before := reqs[..|reqs| - 1];
      RunKeepsState(spec, s, before);
      RunConserves(spec, s, before);
      StepLevel(spec, RunState(spec, s, before), Last(reqs).cost, Last(reqs).nowS);
    }
  }

  lemma {:induction false} RunSplits(spec: Spec, s: BucketState, a: seq<Request>, b: seq<Request>)
    ensures RunState(spec, s, a + b) == RunState(spec, RunState(spec, s, a), b)
    ensures TotalAdmitted(spec, s, a + b)
         == TotalAdmitted(spec, s, a) + TotalAdmitted(spec, RunState(spec, s, a), b)
    decreases |b|
  {
    if b == [] {
      assert a + b == a;
    } else {
      assert (a + b)[..|a + b| - 1] == a + b[..|b| - 1];
      RunSplits(spec, s, a, b[..|b| - 1]);
    }
  }

  lemma {:induction false} RefillFirst(spec: Spec, s: BucketState, fromS: real, reqs: seq<Request>)
    requires spec.Valid() && s.Within(spec) && s.updatedAtS <= fromS && Monotone(reqs, fromS)
    ensures TotalAdmitted(spec, s, reqs) == TotalAdmitted(spec, Refilled(spec, s, fromS), reqs)
    ensures RunState(spec, s, reqs) == RunState(spec, Refilled(spec, s, fromS), reqs)
         || (RunState(spec, s, reqs) == s && RunState(spec, Refilled(spec, s, fromS), reqs) == Refilled(spec, s, fromS))
  {
    if reqs != [] {
      var before := reqs[..|reqs| - 1];
      RefillFirst(spec, s, fromS, before);
      var r := Last(reqs);
      RefillComposes(spec, s, fromS, r.nowS);
    }
  }

  lemma LevelBound(spec: Spec, s: BucketState, s': BucketState, toS: real, admitted: real)
    requires spec.Valid() && s.Within(spec) && s'.Within(spec) && s'.updatedAtS <= toS
    requires Level(spec, s') + admitted <= Level(spec, s)
    ensures admitted <= spec.MaxTokens() + spec.RefillOver(toS - s.updatedAtS)
  {
    MulMono(s'.updatedAtS, toS, spec.refillRatePerS);
    MulAdd(toS - s.updatedAtS, s.updatedAtS, spec.refillRatePerS);
  }

  lemma SegmentBound(spec: Spec, s: BucketState, seg: seq<Request>, fromS: real, toS: real)
    requires spec.Valid() && s.Within(spec) && s.updatedAtS <= fromS <= toS
    requires Monotone(seg, fromS) && (seg != [] ==> Last(seg).nowS <= toS)
    ensures TotalAdmitted(spec, s, seg) <= spec.MaxTokens() + spec.RefillOver(toS - fromS)
  {
    hide Consumed, Refilled;
    var full := Refilled(spec, s, fromS);
    RefillKeepsWithin(spec, s, fromS);
    RefillFirst(spec, s, fromS, seg);
    RunConserves(spec, full, seg);
    RunKeepsState(spec, full, seg);
    LevelBound(spec, full, RunState(spec, full, seg), toS, TotalAdmitted(spec, full, seg));
  }

  /** What a run admits from step `i` to step `j` is what that segment admits from where `i` starts. */
  lemma SegmentTotal(spec: Spec, s: BucketState, reqs: seq<Request>, i: nat, j: nat)
    requires spec.Valid() && s.Within(spec) && Monotone(reqs, s.updatedAtS)
    requires i <= j < |reqs|
    ensures var at := RunState(spec, s, reqs[..i]);
            && at.Within(spec) && at.updatedAtS <= reqs[i].nowS
            && TotalAdmitted(spec, s, reqs[..j + 1]) - TotalAdmitted(spec, s, reqs[..i])
            == TotalAdmitted(spec, at, reqs[i..j + 1])
  {
    assert reqs[..j + 1] == reqs[..i] + reqs[i..j + 1];
    RunSplits(spec, s, reqs[..i], reqs[i..j + 1]);
    MonotoneSlices(reqs, s.updatedAtS, i, j);
    RunKeepsState(spec, s, reqs[..i]);
  }

  /** The rate bound: whatever came before, from step `i` to step `j` a run admits at most the
      bucket's size plus the refill rate times the time between the two steps. */
  lemma RateBound(spec: Spec, s: BucketState, reqs: seq<Request>, i: nat, j: nat)
    requires spec.Valid() && s.Within(spec) && Monotone(reqs, s.updatedAtS)
    requires i <= j < |reqs|
    ensures TotalAdmitted(spec, s, reqs[..j + 1]) - TotalAdmitted(spec, s, reqs[..i])
         <= spec.MaxTokens() + spec.RefillOver(reqs[j].nowS - reqs[i].nowS)
  {
    SegmentTotal(spec, s, reqs, i, j);
    MonotoneSlices(reqs, s.updatedAtS, i, j);
    hide *;
    SegmentBound(spec, RunState(spec, s, reqs[..i]), reqs[i..j + 1], reqs[i].nowS, reqs[j].nowS);
  }

  lemma RefillKeepsWithin(spec: Spec, s: BucketState, nowS: real)
    requires spec.Valid() && s.Within(spec) && s.updatedAtS <= nowS
    ensures Refilled(spec, s, nowS).Within(spec) && Refilled(spec, s, nowS).updatedAtS == nowS
  {
    MulMono(0.0, nowS - s.updatedAtS, spec.refillRatePerS);
  }
}
