/** The circuit breaker of `guards/circuit_breaker/in_memory.py`.

    A circuit's transitions are `Allow` and `Record`.  The breaker keeps circuits in the bounded
    container of `LruTtl`; `KeyRun` is one key on its own, with the container reduced to its idle
    limit. */
module CircuitBreakers {
  import opened Wrappers
  import opened Sequences
  import opened LruTtl

  datatype CircuitState = Closed | Open | HalfOpen

  datatype BreakerSpec = BreakerSpec(
    failureThreshold: int,
    windowS: real,
    openCooldownS: real,
    halfOpenMaxCalls: int,
    successThreshold: int)
  {
    predicate Valid() {
      failureThreshold > 0 && windowS > 0.0 && openCooldownS >= 0.0 && halfOpenMaxCalls > 0 && successThreshold > 0
    }

    function PermitLimit(): int {
      if halfOpenMaxCalls <= successThreshold then halfOpenMaxCalls else successThreshold
    }
  }

  datatype CircuitFields = Circuit(
    state: CircuitState,
    failures: seq<real>,
    openedAtS: Option<real>,
    inFlight: int,
    successes: int)

  /** Exactly the open circuits have an opening time; the source asserts one half of this. */
  type Circuit = c: CircuitFields | c.state.Open? <==> c.openedAtS.Some? witness CLOSED

  const CLOSED: CircuitFields := Circuit(Closed, [], None, 0, 0)

  datatype Op = AllowCall | RecordResult(ok: bool)

  datatype Decision = Decision(allowed: bool, state: CircuitState, retryAfterS: Option<real>)

  /** `Refused` is the source's `ValueError`. */
  datatype Reply = Refused | Recorded | Decided(decision: Decision)

  const FRESH: Circuit := CLOSED

  function Opened(nowS: real): Circuit {
    Circuit(Open, [], Some(nowS), 0, 0)
  }

  // ---------- One circuit ----------

  /** Pop failures that have left the window off the front. */
  function Pruned(spec: BreakerSpec, failures: seq<real>, nowS: real): seq<real> {
    if failures != [] && failures[0] < nowS - spec.windowS then Pruned(spec, failures[1..], nowS) else failures
  }

  method PruneFailures(spec: BreakerSpec, failures: seq<real>, nowS: real) returns (r: seq<real>)
    ensures r == Pruned(spec, failures, nowS)
  {
    var cutoff := nowS - spec.windowS;
    r := failures;
    while r != [] && r[0] < cutoff
      invariant Pruned(spec, r, nowS) == Pruned(spec, failures, nowS)
      decreases |r|
    {
      r := r[1..];
    }
  }

  function Allow(spec: BreakerSpec, c0: Circuit, nowS: real): (Circuit, Decision)
  {
    var c1 := c0.(failures := Pruned(spec, c0.failures, nowS));
    if c1.state.Open? && c1.openedAtS.value + spec.openCooldownS - nowS > 0.0 then
      (c1, Decision(false, Open, Some(c1.openedAtS.value + spec.openCooldownS - nowS)))
    else
      var c := if c1.state.Open? then Circuit(HalfOpen, [], None, 0, 0) else c1;
      if c.state.HalfOpen? then
        if c.inFlight >= spec.PermitLimit() then (c, Decision(false, HalfOpen, Some(0.0)))
        else (c.(inFlight := c.inFlight + 1), Decision(true, HalfOpen, None))
      else if |c.failures| >= spec.failureThreshold then
        (Opened(nowS), Decision(false, Open, Some(spec.openCooldownS)))
      else (c, Decision(true, Closed, None))
  }

  function Record(spec: BreakerSpec, c0: Circuit, ok: bool, nowS: real): Circuit {
    var c := c0.(failures := Pruned(spec, c0.failures, nowS));
    match c.state
    case HalfOpen =>
      var inFlight := if c.inFlight > 0 then c.inFlight - 1 else c.inFlight;
      if !ok then Opened(nowS)
      else if c.successes + 1 >= spec.successThreshold then FRESH
      else c.(inFlight := inFlight, successes := c.successes + 1)
    case Open => if ok then c else c.(openedAtS := Some(nowS))
    case Closed =>
      if ok then c
      else
        var failures := Pruned(spec, c.failures + [nowS], nowS);
        if |failures| >= spec.failureThreshold then Opened(nowS) else c.(failures := failures)
  }

  function CircuitStep(spec: BreakerSpec, c: Circuit, op: Op, nowS: real): (Circuit, Reply)
  {
    match op
    case AllowCall => var (c', d) := Allow(spec, c, nowS); (c', Decided(d))
    case RecordResult(ok) => (Record(spec, c, ok, nowS), Recorded)
  }

  // ---------- The breaker ----------

  datatype Call<K> = Call(key: K, op: Op, nowS: real)

  function CircuitOf<K>(found: Option<Entry<K, Circuit>>): Circuit {
    if found.Some? then found.value.value else FRESH
  }

  /** Mutate the circuit held under a key, if the container still holds it. */
  function SetValue<K(==), V>(es: seq<Entry<K, V>>, k: K, v: V): seq<Entry<K, V>> {
    if es == [] then []
    else [if es[0].key == k then es[0].(value := v) else es[0]] + SetValue(es[1..], k, v)
  }

  /** Touch the circuit, trim the container, then run the transition on the circuit. */
  function BreakerStep<K(==)>(
    cfg: Config, spec: BreakerSpec, es: seq<Entry<K, Circuit>>, c: Call<K>): (seq<Entry<K, Circuit>>, Reply)
  {
    if c.nowS < 0.0 then (es, Refused)
    else
      var swept := DropExpired(cfg, es, c.nowS);
      var circuit := CircuitOf(Find(swept, c.key));
      var trimmed := Newest(cfg.maxKeys, Put(swept, Entry(c.key, c.nowS, circuit)));
      var (circuit', reply) := CircuitStep(spec, circuit, c.op, c.nowS);
      (SetValue(trimmed, c.key, circuit'), reply)
  }

  class InMemoryCircuitBreaker<K(==)> {
    const spec: BreakerSpec
    const cfg: Config
    var circuits: seq<Entry<K, Circuit>>

    constructor (spec: BreakerSpec, cfg: Config)
      requires spec.Valid() && cfg.Valid()
      ensures Valid() && this.spec == spec && this.cfg == cfg && circuits == []
    {
      this.spec := spec;
      this.cfg := cfg;
      circuits := [];
    }

    ghost predicate Valid()
      reads this
    {
      spec.Valid() && cfg.Valid()
    }

    method Touch(key: K, nowS: real) returns (circuit: Circuit)
      requires Valid()
      modifies this
      ensures var swept := DropExpired(cfg, old(circuits), nowS);
              && circuit == CircuitOf(Find(swept, key))
              && circuits == Newest(cfg.maxKeys, Put(swept, Entry(key, nowS, circuit)))
    {
      var swept := EvictExpired(cfg, circuits, nowS);
      var existing: Option<Entry<K, Circuit>> := Find(swept, key);
      circuit := if existing.Some? then existing.value.value else FRESH;
      circuits := EvictLru(cfg, Put(swept, Entry(key, nowS, circuit)));
    }

    method AllowCall(key: K, nowS: real) returns (reply: Reply)
      requires Valid()
      modifies this
      ensures Valid()
      ensures (circuits, reply) == BreakerStep(cfg, spec, old(circuits), Call(key, Op.AllowCall, nowS))
    {
      if nowS < 0.0 {
        return Refused;
      }
      var circuit := Touch(key, nowS);
      var failures := PruneFailures(spec, circuit.failures, nowS);
      circuit := circuit.(failures := failures);
      if circuit.state.Open? {
        var remaining := circuit.openedAtS.value + spec.openCooldownS - nowS;
        if remaining > 0.0 {
          circuits := SetValue(circuits, key, circuit);
          return Decided(Decision(false, Open, Some(remaining)));
        }
        circuit := Circuit(HalfOpen, [], None, 0, 0);
      }
      if circuit.state.HalfOpen? {
        var permitLimit := spec.PermitLimit();
        if circuit.inFlight >= permitLimit {
          circuits := SetValue(circuits, key, circuit);
          return Decided(Decision(false, HalfOpen, Some(0.0)));
        }
        circuit := circuit.(inFlight := circuit.inFlight + 1);
        circuits := SetValue(circuits, key, circuit);
        return Decided(Decision(true, HalfOpen, None));
      }
      if |circuit.failures| >= spec.failureThreshold {
        circuits := SetValue(circuits, key, Opened(nowS));
        return Decided(Decision(false, Open, Some(spec.openCooldownS)));
      }
      circuits := SetValue(circuits, key, circuit);
      return Decided(Decision(true, Closed, None));
    }

    method RecordResult(key: K, ok: bool, nowS: real) returns (reply: Reply)
      requires Valid()
      modifies this
      ensures Valid()
      ensures (circuits, reply) == BreakerStep(cfg, spec, old(circuits), Call(key, Op.RecordResult(ok), nowS))
    {
      if nowS < 0.0 {
        return Refused;
      }
      reply := Recorded;
      var circuit := Touch(key, nowS);
      var failures := PruneFailures(spec, circuit.failures, nowS);
      circuit := circuit.(failures := failures);
      if circuit.state.HalfOpen? {
        if circuit.inFlight > 0 {
          circuit := circuit.(inFlight := circuit.inFlight - 1);
        }
        if !ok {
          circuits := SetValue(circuits, key, Opened(nowS));
          return;
        }
        circuit := circuit.(successes := circuit.successes + 1);
        if circuit.successes >= spec.successThreshold {
          circuit := FRESH;
        }
        circuits := SetValue(circuits, key, circuit);
        return;
      }
      if circuit.state.Open? {
        if !ok {
          circuit := circuit.(openedAtS := Some(nowS));
        }
        circuits := SetValue(circuits, key, circuit);
        return;
      }
      if ok {
        circuits := SetValue(circuits, key, circuit);
        return;
      }
      failures := PruneFailures(spec, circuit.failures + [nowS], nowS);
      circuit := circuit.(failures := failures);
      if |failures| >= spec.failureThreshold {
        circuit := Opened(nowS);
      }
      circuits := SetValue(circuits, key, circuit);
    }
  }

  // ---------- Runs of the breaker, and of one key on its own ----------

  function BreakerRun<K(==)>(
    cfg: Config, spec: BreakerSpec, calls: seq<Call<K>>): (seq<Entry<K, Circuit>>, seq<Reply>)
  {
    if calls == [] then ([], [])
    else
      var (es, rs) := BreakerRun(cfg, spec, calls[..|calls| - 1]);
      var (es', r) := BreakerStep(cfg, spec, es, calls[|calls| - 1]);
      (es', rs + [r])
  }

  datatype Event = Event(op: Op, nowS: real)

  datatype Seen = Seen(stampS: real, circuit: Circuit)

  /** The circuit a call at `nowS` finds: idle circuits are forgotten. */
  function Found(cfg: Config, seen: Option<Seen>, nowS: real): Circuit {
    if seen.Some? && nowS - seen.value.stampS <= cfg.ttlS then seen.value.circuit else FRESH
  }

  function KeyStep(cfg: Config, spec: BreakerSpec, seen: Option<Seen>, e: Event): (Option<Seen>, Reply) {
    if e.nowS < 0.0 then (seen, Refused)
    else
      var (c, r) := CircuitStep(spec, Found(cfg, seen, e.nowS), e.op, e.nowS);
      (Some(Seen(e.nowS, c)), r)
  }

  function KeyRun(cfg: Config, spec: BreakerSpec, es: seq<Event>): (Option<Seen>, seq<Reply>) {
    if es == [] then (None, [])
    else
      var (seen, rs) := KeyRun(cfg, spec, es[..|es| - 1]);
      var (seen', r) := KeyStep(cfg, spec, seen, es[|es| - 1]);
      (seen', rs + [r])
  }

  /** The calls, and the replies, that concern one key. */
  function CallsOf<K(==)>(calls: seq<Call<K>>, k: K): seq<Event> {
    if calls == [] then []
    else
      var c := calls[|calls| - 1];
      CallsOf(calls[..|calls| - 1], k) + if c.key == k then [Event(c.op, c.nowS)] else []
  }

  function RepliesOf<K(==)>(calls: seq<Call<K>>, replies: seq<Reply>, k: K): seq<Reply>
    requires |calls| == |replies|
  {
    if calls == [] then []
    else
      RepliesOf(calls[..|calls| - 1], replies[..|calls| - 1], k)
      + if calls[|calls| - 1].key == k then [replies[|calls| - 1]] else []
  }

  ghost function KeysOf<K>(calls: seq<Call<K>>): set<K> {
    set i: nat | i < |calls| :: calls[i].key
  }

  ghost predicate Admissible<K>(cfg: Config, calls: seq<Call<K>>) {
    && (forall i, j :: 0 <= i < j < |calls| ==> calls[i].nowS <= calls[j].nowS)
    && |KeysOf(calls)| <= cfg.maxKeys
  }

  // ---------- Keys do not disturb each other ----------

  /** The state of every key's own run, as entries. */
  ghost function Shadow<K>(cfg: Config, spec: BreakerSpec, calls: seq<Call<K>>): map<K, Entry<K, Circuit>> {
    map k | k in KeysOf(calls) && KeyRun(cfg, spec, CallsOf(calls, k)).0.Some? ::
      var seen := KeyRun(cfg, spec, CallsOf(calls, k)).0.value; Entry(k, seen.stampS, seen.circuit)
  }

  lemma {:induction false} SetValueAbsent<K, V>(es: seq<Entry<K, V>>, k: K, v: V)
    requires forall i :: 0 <= i < |es| ==> es[i].key != k
    ensures SetValue(es, k, v) == es
  {
    if es != [] {
      SetValueAbsent(es[1..], k, v);
    }
  }

  lemma {:induction false} SetValueLast<K, V>(es: seq<Entry<K, V>>, e: Entry<K, V>, v: V)
    requires forall i :: 0 <= i < |es| ==> es[i].key != e.key
    ensures SetValue(es + [e], e.key, v) == es + [e.(value := v)]
  {
    if es == [] {
      assert es + [e] == [e];
    } else {
      assert (es + [e])[1..] == es[1..] + [e];
      SetValueLast(es[1..], e, v);
    }
  }

  /** The circuit just touched is the last entry and cannot have been trimmed, so changing it in
      place is the same as writing its new value. */
  lemma TouchedIsHeld<K>(cfg: Config, es: seq<Entry<K, Circuit>>, e: Entry<K, Circuit>, c: Circuit)
    requires cfg.Valid()
    ensures SetValue(Newest(cfg.maxKeys, Put(es, e)), e.key, c) == Newest(cfg.maxKeys, Put(es, e.(value := c)))
  {
    var others := Without(es, e.key);
    FilterMembers(NotKey(e.key), es);
    var kept := if |others| + 1 <= cfg.maxKeys then others else others[|others| + 1 - cfg.maxKeys..];
    assert Newest(cfg.maxKeys, others + [e]) == kept + [e];
    assert Newest(cfg.maxKeys, others + [e.(value := c)]) == kept + [e.(value := c)];
    assert forall i :: 0 <= i < |others| ==> others[i].key != e.key;
    SetValueLast(kept, e, c);
  }

  /** One call: the breaker's reply is the key's own, and the container stays in step. */
  lemma StepMirrors<K(!new)>(
    cfg: Config, spec: BreakerSpec, es: seq<Entry<K, Circuit>>, store: map<K, Entry<K, Circuit>>, t0: real, c: Call<K>)
    requires cfg.Valid() && Mirrors(cfg, es, store, t0) && t0 <= c.nowS && 0.0 <= c.nowS
    requires |store.Keys + {c.key}| <= cfg.maxKeys
    ensures BreakerStep(cfg, spec, es, c).1
         == CircuitStep(spec, CircuitOf(LookupLive(cfg, store, c.key, c.nowS)), c.op, c.nowS).1
    ensures Mirrors(cfg, BreakerStep(cfg, spec, es, c).0, store[c.key := NextEntry(cfg, spec, store, c)], c.nowS)
  {
    hide CircuitStep, Mirrors, Put, Newest, SetValue;
    var swept := DropExpired(cfg, es, c.nowS);
    SweepMirrors(cfg, es, store, t0, c.nowS);
    SweptLookup(cfg, es, store, t0, c.nowS, c.key);
    var before := CircuitOf(Find(swept, c.key));
    var (circuit, reply) := CircuitStep(spec, before, c.op, c.nowS);
    TouchedIsHeld(cfg, swept, Entry(c.key, c.nowS, before), circuit);
    PutMirrors(cfg, swept, store, Entry(c.key, c.nowS, circuit));
  }

  // ---------- What the container holds ----------

  /** The circuit a call leaves behind, if the call is not refused. */
  function Written<K(==)>(
    cfg: Config, spec: BreakerSpec, es: seq<Entry<K, Circuit>>, c: Call<K>): seq<Entry<K, Circuit>>
  {
    if c.nowS < 0.0 then []
    else
      var circuit := CircuitOf(Find(DropExpired(cfg, es, c.nowS), c.key));
      [Entry(c.key, c.nowS, CircuitStep(spec, circuit, c.op, c.nowS).0)]
  }

  function Writes<K(==)>(cfg: Config, spec: BreakerSpec, calls: seq<Call<K>>): seq<Entry<K, Circuit>> {
    if calls == [] then []
    else
      var before := calls[..|calls| - 1];
      Writes(cfg, spec, before) + Written(cfg, spec, BreakerRun(cfg, spec, before).0, calls[|calls| - 1])
  }

  lemma StepExact<K>(cfg: Config, spec: BreakerSpec, log: seq<Entry<K, Circuit>>, t0: real, c: Call<K>)
    requires cfg.Valid() && Timely(log, t0) && t0 <= c.nowS && (c.nowS < 0.0 ==> log == [])
    ensures var es := Contents(cfg, log, t0);
            var log' := log + Written(cfg, spec, es, c);
            && BreakerStep(cfg, spec, es, c).0 == Contents(cfg, log', c.nowS)
            && Timely(log', c.nowS) && (c.nowS < 0.0 ==> log' == [])
  {
    hide CircuitStep;
    if c.nowS >= 0.0 {
      var es: seq<Entry<K, Circuit>> := Contents(cfg, log, t0);
      SweepExact(cfg, log, t0, c.nowS);
      var before := CircuitOf(Find(DropExpired(cfg, es, c.nowS), c.key));
      var e := Entry(c.key, c.nowS, CircuitStep(spec, before, c.op, c.nowS).0);
      TouchedIsHeld(cfg, DropExpired(cfg, es, c.nowS), Entry(c.key, c.nowS, before), e.value);
      WriteExact(cfg, log, c.nowS, e);
    }
  }

  lemma {:induction false} BreakerHoldsContents<K>(cfg: Config, spec: BreakerSpec, calls: seq<Call<K>>)
    requires cfg.Valid() && calls != []
    requires forall i, j :: 0 <= i < j < |calls| ==> calls[i].nowS <= calls[j].nowS
    ensures var nowS := calls[|calls| - 1].nowS;
            && Timely(Writes(cfg, spec, calls), nowS)
            && (nowS < 0.0 ==> Writes(cfg, spec, calls) == [])
            && BreakerRun(cfg, spec, calls).0 == Contents(cfg, Writes(cfg, spec, calls), nowS)
  {
    hide BreakerStep, Written, Contents;
    var before, c := calls[..|calls| - 1], calls[|calls| - 1];
    var t0 := if before == [] then c.nowS else before[|before| - 1].nowS;
    if before == [] {
      NothingYet<K, Circuit>(cfg, t0);
    } else {
      BreakerHoldsContents(cfg, spec, before);
    }
    StepExact(cfg, spec, Writes(cfg, spec, before), t0, c);
  }

  /** However many keys a run uses, after every call the breaker holds, in last-use order, exactly the
      circuits still retained out of everything the run ever wrote. */
  lemma BreakerHoldsRetained<K>(cfg: Config, spec: BreakerSpec, calls: seq<Call<K>>)
    requires cfg.Valid() && calls != []
    requires forall i, j :: 0 <= i < j < |calls| ==> calls[i].nowS <= calls[j].nowS
    ensures BreakerRun(cfg, spec, calls).0 == RetainedFrom(cfg, Writes(cfg, spec, calls), calls[|calls| - 1].nowS, 0)
  {
    BreakerHoldsContents(cfg, spec, calls);
    ContentsAreRetained(cfg, Writes(cfg, spec, calls), calls[|calls| - 1].nowS);
  }

  // ---------- Keys do not disturb each other: runs ----------

  lemma {:induction false} UnusedKey<K>(calls: seq<Call<K>>, k: K)
    requires k !in KeysOf(calls)
    ensures CallsOf(calls, k) == []
  {
    if calls != [] {
      var before := calls[..|calls| - 1];
      assert calls[|calls| - 1].key in KeysOf(calls);
      assert forall i: nat :: i < |before| ==> before[i].key == calls[i].key;
      UnusedKey(before, k);
    }
  }

  lemma CallsOfStep<K>(calls: seq<Call<K>>, k: K)
    requires calls != []
    ensures var before, c := calls[..|calls| - 1], calls[|calls| - 1];
            && KeysOf(calls) == KeysOf(before) + {c.key}
            && CallsOf(calls, k)
               == if k == c.key then CallsOf(before, k) + [Event(c.op, c.nowS)] else CallsOf(before, k)
  {
    var before, c := calls[..|calls| - 1], calls[|calls| - 1];
    assert KeysOf(calls) == KeysOf(before) + {c.key};
  }

  lemma KeyRunStep(cfg: Config, spec: BreakerSpec, es: seq<Event>, e: Event)
    ensures var (seen, r) := KeyStep(cfg, spec, KeyRun(cfg, spec, es).0, e);
            KeyRun(cfg, spec, es + [e]) == (seen, KeyRun(cfg, spec, es).1 + [r])
  {
    assert (es + [e])[..|es|] == es;
  }

  lemma FoundInShadow<K>(cfg: Config, spec: BreakerSpec, calls: seq<Call<K>>, k: K, nowS: real)
    ensures Found(cfg, KeyRun(cfg, spec, CallsOf(calls, k)).0, nowS)
         == CircuitOf(LookupLive(cfg, Shadow(cfg, spec, calls), k, nowS))
  {
    if k !in KeysOf(calls) {
      UnusedKey(calls, k);
    }
  }

  /** What the shadow holds for a key. */
  ghost function ShadowAt<K>(cfg: Config, spec: BreakerSpec, calls: seq<Call<K>>, k: K): Option<Entry<K, Circuit>> {
    var seen := KeyRun(cfg, spec, CallsOf(calls, k)).0;
    if seen.Some? then Some(Entry(k, seen.value.stampS, seen.value.circuit)) else None
  }

  lemma ShadowIsPointwise<K>(cfg: Config, spec: BreakerSpec, calls: seq<Call<K>>, k: K)
    ensures k in Shadow(cfg, spec, calls) <==> ShadowAt(cfg, spec, calls, k).Some?
    ensures k in Shadow(cfg, spec, calls) ==> Shadow(cfg, spec, calls)[k] == ShadowAt(cfg, spec, calls, k).value
  {
    if k !in KeysOf(calls) {
      UnusedKey(calls, k);
    }
  }

  /** The key's own next circuit. */
  function NextEntry<K>(
    cfg: Config, spec: BreakerSpec, store: map<K, Entry<K, Circuit>>, c: Call<K>): Entry<K, Circuit>
  {
    Entry(c.key, c.nowS, CircuitStep(spec, CircuitOf(LookupLive(cfg, store, c.key, c.nowS)), c.op, c.nowS).0)
  }

  lemma ShadowAtStep<K>(cfg: Config, spec: BreakerSpec, calls: seq<Call<K>>, k: K)
    requires calls != []
    ensures var before, c := calls[..|calls| - 1], calls[|calls| - 1];
            ShadowAt(cfg, spec, calls, k)
            == if k == c.key && c.nowS >= 0.0 then Some(NextEntry(cfg, spec, Shadow(cfg, spec, before), c))
               else ShadowAt(cfg, spec, before, k)
  {
    hide CircuitStep;
    var before, c := calls[..|calls| - 1], calls[|calls| - 1];
    CallsOfStep(calls, k);
    if k == c.key {
      FoundInShadow(cfg, spec, before, k, c.nowS);
      KeyRunStep(cfg, spec, CallsOf(before, k), Event(c.op, c.nowS));
    }
  }

  lemma ShadowStep<K(!new)>(cfg: Config, spec: BreakerSpec, calls: seq<Call<K>>)
    requires calls != []
    ensures var before, c := calls[..|calls| - 1], calls[|calls| - 1];
            var store := Shadow(cfg, spec, before);
            Shadow(cfg, spec, calls) == if c.nowS < 0.0 then store else store[c.key := NextEntry(cfg, spec, store, c)]
  {
    var before, c := calls[..|calls| - 1], calls[|calls| - 1];
    var store := Shadow(cfg, spec, before);
    var want := if c.nowS < 0.0 then store else store[c.key := NextEntry(cfg, spec, store, c)];
    hide *;
    forall k
      ensures k in Shadow(cfg, spec, calls) <==> k in want
      ensures k in want ==> Shadow(cfg, spec, calls)[k] == want[k]
    {
      ShadowAtStep(cfg, spec, calls, k);
      ShadowIsPointwise(cfg, spec, calls, k);
      ShadowIsPointwise(cfg, spec, before, k);
    }
  }

  lemma RepliesOfStep<K>(calls: seq<Call<K>>, replies: seq<Reply>, k: K, r: Reply)
    requires calls != [] && |replies| == |calls| - 1
    ensures RepliesOf(calls, replies + [r], k)
         == RepliesOf(calls[..|calls| - 1], replies, k) + if calls[|calls| - 1].key == k then [r] else []
  {
    assert (replies + [r])[..|calls| - 1] == replies;
  }

  lemma {:induction false} RunMirrors<K(!new)>(cfg: Config, spec: BreakerSpec, calls: seq<Call<K>>)
    requires cfg.Valid() && Admissible(cfg, calls)
    ensures |BreakerRun(cfg, spec, calls).1| == |calls|
    ensures calls != [] ==>
              Mirrors(cfg, BreakerRun(cfg, spec, calls).0, Shadow(cfg, spec, calls), calls[|calls| - 1].nowS)
  {
    if calls != [] {
      hide BreakerStep, CircuitStep, NextEntry;
      var before, c := calls[..|calls| - 1], calls[|calls| - 1];
      AdmissiblePrefix(cfg, calls);
      RunMirrors(cfg, spec, before);
      var t0 := if before == [] then c.nowS else before[|before| - 1].nowS;
      var store := Shadow(cfg, spec, before);
      assert Mirrors(cfg, BreakerRun(cfg, spec, before).0, store, t0);
      ShadowStep(cfg, spec, calls);
      ShadowFits(cfg, spec, calls);
      if c.nowS >= 0.0 {
        StepMirrors(cfg, spec, BreakerRun(cfg, spec, before).0, store, t0, c);
      } else {
        MirrorsLater(cfg, BreakerRun(cfg, spec, before).0, store, t0, c.nowS);
        RefusedStep(cfg, spec, BreakerRun(cfg, spec, before).0, c);
      }
    }
  }

  lemma RefusedStep<K>(cfg: Config, spec: BreakerSpec, es: seq<Entry<K, Circuit>>, c: Call<K>)
    requires c.nowS < 0.0
    ensures BreakerStep(cfg, spec, es, c) == (es, Refused)
  {
  }

  lemma AdmissiblePrefix<K>(cfg: Config, calls: seq<Call<K>>)
    requires Admissible(cfg, calls) && calls != []
    ensures Admissible(cfg, calls[..|calls| - 1])
  {
    CallsOfStep(calls, calls[0].key);
    FewerKeys(KeysOf(calls[..|calls| - 1]), KeysOf(calls));
  }

  lemma ShadowFits<K>(cfg: Config, spec: BreakerSpec, calls: seq<Call<K>>)
    requires Admissible(cfg, calls) && calls != []
    ensures |Shadow(cfg, spec, calls[..|calls| - 1]).Keys + {calls[|calls| - 1].key}| <= cfg.maxKeys
  {
    CallsOfStep(calls, calls[0].key);
    FewerKeys(Shadow(cfg, spec, calls[..|calls| - 1]).Keys + {calls[|calls| - 1].key}, KeysOf(calls));
  }

  /** Keys do not disturb each other: while at most `maxKeys` keys are in use, the breaker's replies
      to one key are those of that key on its own. */
  lemma {:induction false} KeysAreIndependent<K(!new)>(cfg: Config, spec: BreakerSpec, calls: seq<Call<K>>, k: K)
    requires cfg.Valid() && Admissible(cfg, calls)
    ensures |BreakerRun(cfg, spec, calls).1| == |calls|
    ensures RepliesOf(calls, BreakerRun(cfg, spec, calls).1, k) == KeyRun(cfg, spec, CallsOf(calls, k)).1
  {
    RunMirrors(cfg, spec, calls);
    if calls != [] {
      hide BreakerStep, CircuitStep;
      var before, c := calls[..|calls| - 1], calls[|calls| - 1];
      AdmissiblePrefix(cfg, calls);
      RunMirrors(cfg, spec, before);
      KeysAreIndependent(cfg, spec, before, k);
      CallsOfStep(calls, k);
      var (es, rs) := BreakerRun(cfg, spec, before);
      RepliesOfStep(calls, rs, k, BreakerStep(cfg, spec, es, c).1);
      if c.key == k {
        KeyRunStep(cfg, spec, CallsOf(before, k), Event(c.op, c.nowS));
        if c.nowS < 0.0 {
          RefusedStep(cfg, spec, es, c);
        } else {
          var t0 := if before == [] then c.nowS else before[|before| - 1].nowS;
          ShadowFits(cfg, spec, calls);
          FoundInShadow(cfg, spec, before, k, c.nowS);
          assert Mirrors(cfg, es, Shadow(cfg, spec, before), t0);
          StepMirrors(cfg, spec, es, Shadow(cfg, spec, before), t0, c);
        }
      }
    }
  }

  // ---------- The sliding window ----------

  /** One key's events, in time order; the source refuses negative times and changes nothing. */
  ghost predicate Ordered(es: seq<Event>) {
    && (forall i :: 0 <= i < |es| ==> 0.0 <= es[i].nowS)
    && (forall i, j :: 0 <= i < j < |es| ==> es[i].nowS <= es[j].nowS)
  }

  /** The circuit a key has after its events. */
  function After(cfg: Config, spec: BreakerSpec, es: seq<Event>): Circuit {
    var seen := KeyRun(cfg, spec, es).0;
    if seen.Some? then seen.value.circuit else FRESH
  }

  /** Every failure recorded since the circuit last closed, whether or not it is still in the window. */
  function SinceClosed(cfg: Config, spec: BreakerSpec, es: seq<Event>): seq<real> {
    if es == [] || !After(cfg, spec, es).state.Closed? then []
    else
      var e := es[|es| - 1];
      SinceClosed(cfg, spec, es[..|es| - 1]) + if e.op == RecordResult(false) then [e.nowS] else []
  }

  function InWindow(spec: BreakerSpec, nowS: real): real -> bool {
    (t: real) => t >= nowS - spec.windowS
  }

  function Recent(spec: BreakerSpec, failures: seq<real>, nowS: real): seq<real> {
    Filter(InWindow(spec, nowS), failures)
  }

  function AtMost(): (real, real) -> bool {
    (a: real, b: real) => a <= b
  }

  ghost predicate Rising(ts: seq<real>, toS: real) {
    Pairwise(AtMost(), ts) && forall i :: 0 <= i < |ts| ==> ts[i] <= toS
  }

  /** Popping old failures off the front is filtering, when they are in time order. */
  lemma {:induction false} PrunedIsRecent(spec: BreakerSpec, failures: seq<real>, nowS: real)
    requires Pairwise(AtMost(), failures)
    ensures Pruned(spec, failures, nowS) == Recent(spec, failures, nowS)
  {
    if failures != [] {
      if failures[0] < nowS - spec.windowS {
        PrunedIsRecent(spec, failures[1..], nowS);
      } else {
        assert forall i :: 0 < i < |failures| ==> AtMost()(failures[0], failures[i]);
        FilterAll(InWindow(spec, nowS), failures);
      }
    }
  }

  lemma RecentLater(spec: BreakerSpec, h: seq<real>, t0: real, t1: real)
    requires spec.Valid() && Rising(h, t0) && t0 <= t1
    ensures Rising(Recent(spec, h, t0), t0)
    ensures Pruned(spec, Recent(spec, h, t0), t1) == Recent(spec, h, t1)
    ensures Rising(h + [t1], t1) && Recent(spec, h + [t1], t1) == Recent(spec, h, t1) + [t1]
    ensures Pruned(spec, Recent(spec, h, t1) + [t1], t1) == Recent(spec, h + [t1], t1)
  {
    FilterPairwise(AtMost(), InWindow(spec, t0), h);
    FilterMembers(InWindow(spec, t0), h);
    PrunedIsRecent(spec, Recent(spec, h, t0), t1);
    FilterNarrows(InWindow(spec, t0), InWindow(spec, t1), h);
    PairwiseAppend(AtMost(), h, t1);
    FilterAppend(InWindow(spec, t1), h, [t1]);
    FilterPairwise(AtMost(), InWindow(spec, t1), h + [t1]);
    PrunedIsRecent(spec, Recent(spec, h + [t1], t1), t1);
    FilterNarrows(InWindow(spec, t1), InWindow(spec, t1), h + [t1]);
  }

  lemma {:induction false} AllLeft(spec: BreakerSpec, h: seq<real>, t0: real, t1: real)
    requires Rising(h, t0) && t1 - t0 > spec.windowS
    ensures Recent(spec, h, t1) == []
  {
    if h != [] {
      AllLeft(spec, h[1..], t0, t1);
    }
  }

  /** The closed circuit that the next event finds holds the failures still in the window then. */
  ghost predicate WindowHolds(spec: BreakerSpec, h: seq<real>, c: Circuit, nowS: real) {
    && Rising(h, nowS)
    && (c.state.Closed? ==> c.failures == Recent(spec, h, nowS) && |c.failures| < spec.failureThreshold)
    && (!c.state.Closed? ==> h == [])
  }

  lemma ClosedStep(spec: BreakerSpec, h: seq<real>, c: Circuit, t0: real, e: Event)
    requires spec.Valid() && WindowHolds(spec, h, c, t0) && t0 <= e.nowS && c.state.Closed?
    ensures var opens := e.op == RecordResult(false) && |Recent(spec, h + [e.nowS], e.nowS)| >= spec.failureThreshold;
            var c' := CircuitStep(spec, c, e.op, e.nowS).0;
            var h' := if opens then [] else h + if e.op == RecordResult(false) then [e.nowS] else [];
            && (c'.state.Open? <==> opens) && !c'.state.HalfOpen?
            && WindowHolds(spec, h', c', e.nowS)
  {
    RecentLater(spec, h, t0, e.nowS);
    FilterMembers(InWindow(spec, e.nowS), h);
    RecentShrinks(spec, h, t0, e.nowS);
    assert h + [] == h;
  }

  lemma RecentShrinks(spec: BreakerSpec, h: seq<real>, t0: real, t1: real)
    requires Rising(h, t0) && t0 <= t1
    ensures |Recent(spec, h, t1)| <= |Recent(spec, h, t0)|
  {
    FilterNarrows(InWindow(spec, t0), InWindow(spec, t1), h);
    FilterMembers(InWindow(spec, t1), Recent(spec, h, t0));
  }

  lemma OtherStep(spec: BreakerSpec, c: Circuit, e: Event)
    requires spec.Valid() && !c.state.Closed?
    ensures var c' := CircuitStep(spec, c, e.op, e.nowS).0;
            c'.state.Closed? ==> c' == FRESH && e.op == RecordResult(true)
  {
  }

  /** The circuit the last event found, against the history before it. */
  lemma FoundHolds(cfg: Config, spec: BreakerSpec, h: seq<real>, seen: Option<Seen>, nowS: real)
    requires spec.Valid() && (cfg.ttlS >= spec.windowS || h == [])
    requires seen.Some? ==> seen.value.stampS <= nowS && WindowHolds(spec, h, seen.value.circuit, seen.value.stampS)
    requires seen.None? ==> h == []
    ensures var t0 := if seen.Some? && nowS - seen.value.stampS <= cfg.ttlS then seen.value.stampS else nowS;
            WindowHolds(spec, h, Found(cfg, seen, nowS), t0)
  {
    if h != [] && nowS - seen.value.stampS > cfg.ttlS {
      AllLeft(spec, h, seen.value.stampS, nowS);
    }
  }

  /** The promise about one key's run: a closed circuit opens exactly when a failure brings the
      failures since it last closed that are still in the window up to the threshold. */
  ghost predicate OpensOnTime(cfg: Config, spec: BreakerSpec, es: seq<Event>)
    requires es != []
  {
    var before, e := es[..|es| - 1], es[|es| - 1];
    var h := SinceClosed(cfg, spec, before) + [e.nowS];
    Found(cfg, KeyRun(cfg, spec, before).0, e.nowS).state.Closed? ==>
      (After(cfg, spec, es).state.Open?
       <==> e.op == RecordResult(false) && |Recent(spec, h, e.nowS)| >= spec.failureThreshold)
  }

  ghost predicate WindowPromised(cfg: Config, spec: BreakerSpec) {
    forall es: seq<Event> :: Ordered(es) && es != [] ==> OpensOnTime(cfg, spec, es)
  }

  /** Circuits are kept as long as the window lasts, or no failure has to be remembered. */
  predicate KeepsWindow(cfg: Config, spec: BreakerSpec) {
    cfg.ttlS >= spec.windowS || spec.failureThreshold == 1
  }

  /** With a threshold of one every failure opens a closed circuit, so none is remembered. */
  lemma {:induction false} NothingRemembered(cfg: Config, spec: BreakerSpec, es: seq<Event>)
    requires spec.Valid() && spec.failureThreshold == 1 && Ordered(es)
    ensures SinceClosed(cfg, spec, es) == [] && After(cfg, spec, es).failures == []
  {
    if es != [] {
      NothingRemembered(cfg, spec, es[..|es| - 1]);
    }
  }

  lemma AfterLast(cfg: Config, spec: BreakerSpec, es: seq<Event>)
    requires es != [] && 0.0 <= es[|es| - 1].nowS
    ensures var before, e := es[..|es| - 1], es[|es| - 1];
            var c := CircuitStep(spec, Found(cfg, KeyRun(cfg, spec, before).0, e.nowS), e.op, e.nowS).0;
            && KeyRun(cfg, spec, es).0 == Some(Seen(e.nowS, c)) && After(cfg, spec, es) == c
            && SinceClosed(cfg, spec, es)
               == if c.state.Closed? then
                    SinceClosed(cfg, spec, before) + if e.op == RecordResult(false) then [e.nowS] else []
                  else []
  {
    hide CircuitStep, Found;
  }

  /** A closed circuit remembers exactly the failures since it last closed that are still in the
      window, fewer than the threshold, and it opens on time. */
  lemma {:induction false} WindowIsExact(cfg: Config, spec: BreakerSpec, es: seq<Event>)
    requires cfg.Valid() && spec.Valid() && KeepsWindow(cfg, spec) && Ordered(es) && es != []
    ensures KeyRun(cfg, spec, es).0.Some? && KeyRun(cfg, spec, es).0.value.stampS == es[|es| - 1].nowS
    ensures WindowHolds(spec, SinceClosed(cfg, spec, es), After(cfg, spec, es), es[|es| - 1].nowS)
    ensures OpensOnTime(cfg, spec, es)
  {
    var before, e := es[..|es| - 1], es[|es| - 1];
    var h, seen := SinceClosed(cfg, spec, before), KeyRun(cfg, spec, before).0;
    hide CircuitStep, Found, WindowHolds, Recent;
    AfterLast(cfg, spec, es);
    if before != [] {
      WindowIsExact(cfg, spec, before);
    }
    if spec.failureThreshold == 1 {
      NothingRemembered(cfg, spec, before);
    }
    FoundHolds(cfg, spec, h, seen, e.nowS);
    hide KeyRun, SinceClosed, KeepsWindow, Ordered;
    WindowStep(spec, h, Found(cfg, seen, e.nowS),
               if seen.Some? && e.nowS - seen.value.stampS <= cfg.ttlS then seen.value.stampS else e.nowS, e);
  }

  /** One event, whatever state it finds the circuit in. */
  lemma WindowStep(spec: BreakerSpec, h: seq<real>, c: Circuit, t0: real, e: Event)
    requires spec.Valid() && WindowHolds(spec, h, c, t0) && t0 <= e.nowS
    ensures var opens := e.op == RecordResult(false) && |Recent(spec, h + [e.nowS], e.nowS)| >= spec.failureThreshold;
            var c' := CircuitStep(spec, c, e.op, e.nowS).0;
            var h' := if c'.state.Closed? then h + if e.op == RecordResult(false) then [e.nowS] else [] else [];
            && (c.state.Closed? ==> (c'.state.Open? <==> opens))
            && WindowHolds(spec, h', c', e.nowS)
  {
    if c.state.Closed? {
      ClosedStep(spec, h, c, t0, e);
    } else {
      OtherStep(spec, c, e);
    }
    hide CircuitStep;
  }

  // ---------- A window longer than circuits are kept ----------

  function FailAt(nowS: real): Event {
    Event(RecordResult(false), nowS)
  }

  /** One failure at time zero, then `n` failures once its circuit has been forgotten. */
  function Split(lateS: real, n: nat): seq<Event> {
    [FailAt(0.0)] + seq(n, _ => FailAt(lateS))
  }

  lemma {:induction false} SplitForgets(cfg: Config, spec: BreakerSpec, lateS: real, n: nat)
    requires cfg.Valid() && spec.Valid() && cfg.ttlS < lateS < spec.windowS && n < spec.failureThreshold
    requires spec.failureThreshold > 1
    ensures var es, late := Split(lateS, n), seq(n, _ => lateS);
            && After(cfg, spec, es) == FRESH.(failures := if n == 0 then [0.0] else late)
            && KeyRun(cfg, spec, es).0 == Some(Seen(if n == 0 then 0.0 else lateS, After(cfg, spec, es)))
            && SinceClosed(cfg, spec, es) == [0.0] + late
    decreases n
  {
    var es := Split(lateS, n);
    if n == 0 {
      assert es[..|es| - 1] == [] && es[|es| - 1] == FailAt(0.0);
      assert KeyRun(cfg, spec, []).0 == None && FRESH.failures + [0.0] == [0.0];
      assert [] + [0.0] == [0.0] + seq(0, _ => lateS);
    } else {
      SplitForgets(cfg, spec, lateS, n - 1);
      var late := seq(n - 1, _ => lateS);
      assert es[..|es| - 1] == Split(lateS, n - 1) && es[|es| - 1] == FailAt(lateS);
      assert late + [lateS] == seq(n, _ => lateS) && ([0.0] + late) + [lateS] == [0.0] + (late + [lateS]);
      SplitStep(cfg, spec, KeyRun(cfg, spec, Split(lateS, n - 1)).0, lateS, n - 1);
      hide KeyStep;
    }
  }

  lemma SplitStep(cfg: Config, spec: BreakerSpec, seen: Option<Seen>, lateS: real, n: nat)
    requires cfg.Valid() && spec.Valid() && cfg.ttlS < lateS < spec.windowS && n + 1 < spec.failureThreshold
    requires seen == if n == 0 then Some(Seen(0.0, FRESH.(failures := [0.0])))
                     else Some(Seen(lateS, FRESH.(failures := seq(n, _ => lateS))))
    ensures KeyStep(cfg, spec, seen, FailAt(lateS)).0
         == Some(Seen(lateS, FRESH.(failures := seq(n + 1, _ => lateS))))
  {
    var late: seq<real> := seq(n, _ => lateS);
    assert late + [lateS] == seq(n + 1, _ => lateS);
    assert n == 0 ==> late == [];
    assert Found(cfg, seen, lateS).failures == late;
  }

  lemma SplitIsOrdered(lateS: real, n: nat)
    requires 0.0 <= lateS
    ensures Ordered(Split(lateS, n))
  {
  }

  lemma SplitStaysClosed(cfg: Config, spec: BreakerSpec, lateS: real, n: nat)
    requires cfg.Valid() && spec.Valid() && cfg.ttlS < lateS < spec.windowS && n + 1 == spec.failureThreshold > 1
    ensures Ordered(Split(lateS, n)) && !OpensOnTime(cfg, spec, Split(lateS, n))
  {
    var es := Split(lateS, n);
    SplitForgets(cfg, spec, lateS, n);
    SplitForgets(cfg, spec, lateS, n - 1);
    assert es[..|es| - 1] == Split(lateS, n - 1) && es[|es| - 1] == FailAt(lateS);
    SplitIsOrdered(lateS, n);
    hide KeyRun, SinceClosed, Split, Ordered;
    var h := SinceClosed(cfg, spec, es[..|es| - 1]) + [lateS];
    FilterAll(InWindow(spec, lateS), h);
  }

  /** A circuit opens on time in every run exactly when circuits outlive the window, or one failure
      opens them.  Otherwise a failure, a wait longer than circuits are kept, and one failure less
      than the threshold leave the circuit closed with the threshold met inside the window. */
  lemma WindowExactlyWhenKept(cfg: Config, spec: BreakerSpec)
    requires cfg.Valid() && spec.Valid()
    ensures WindowPromised(cfg, spec) <==> KeepsWindow(cfg, spec)
  {
    if KeepsWindow(cfg, spec) {
      forall es: seq<Event> | Ordered(es) && es != []
        ensures OpensOnTime(cfg, spec, es)
      {
        WindowIsExact(cfg, spec, es);
      }
    } else {
      SplitStaysClosed(cfg, spec, (cfg.ttlS + spec.windowS) / 2.0, spec.failureThreshold - 1);
    }
  }

  lemma {:induction false} OrderedCalls<K>(calls: seq<Call<K>>, k: K)
    requires forall i, j :: 0 <= i < j < |calls| ==> calls[i].nowS <= calls[j].nowS
    requires forall i :: 0 <= i < |calls| ==> 0.0 <= calls[i].nowS
    ensures Ordered(CallsOf(calls, k))
    ensures forall i :: 0 <= i < |CallsOf(calls, k)| ==> CallsOf(calls, k)[i].nowS <= calls[|calls| - 1].nowS
  {
    if calls != [] {
      OrderedCalls(calls[..|calls| - 1], k);
    }
  }

  /** In the breaker itself: while at most `maxKeys` keys are in use, every circuit it holds is its
      key's own, and so remembers exactly that key's failures still in the window. */
  lemma BreakerWindowIsExact<K(!new)>(cfg: Config, spec: BreakerSpec, calls: seq<Call<K>>, i: nat)
    requires cfg.Valid() && spec.Valid() && KeepsWindow(cfg, spec) && Admissible(cfg, calls)
    requires forall j :: 0 <= j < |calls| ==> 0.0 <= calls[j].nowS
    requires i < |BreakerRun(cfg, spec, calls).0|
    ensures var e := BreakerRun(cfg, spec, calls).0[i];
            var es := CallsOf(calls, e.key);
            && es != [] && e.stampS == es[|es| - 1].nowS && e.value == After(cfg, spec, es)
            && WindowHolds(spec, SinceClosed(cfg, spec, es), e.value, e.stampS)
            && OpensOnTime(cfg, spec, es)
  {
    RunMirrors(cfg, spec, calls);
    var held := BreakerRun(cfg, spec, calls).0;
    var e := held[i];
    var es := CallsOf(calls, e.key);
    HeldIsShadow(cfg, held, Shadow(cfg, spec, calls), calls[|calls| - 1].nowS, i);
    ShadowIsPointwise(cfg, spec, calls, e.key);
    OrderedCalls(calls, e.key);
    hide CircuitStep, WindowHolds, OpensOnTime, BreakerRun, BreakerStep, Mirrors, Shadow;
    assert es != [];
    WindowIsExact(cfg, spec, es);
  }

  lemma HeldIsShadow<K(!new), V>(cfg: Config, held: seq<Entry<K, V>>, store: map<K, Entry<K, V>>, nowS: real, i: nat)
    requires Mirrors(cfg, held, store, nowS) && i < |held|
    ensures held[i].key in store && store[held[i].key] == held[i]
  {
    var k := held[i].key;
    assert Mirrored(cfg, held, store[k], k, nowS);
    assert held[i] in held;
    var j :| 0 <= j < |held| && held[j] == store[k];
  }

  // ---------- The cooldown ----------

  /** Once a circuit opens, or is held open by a late failure, at `i`, no call is let through before
      the cooldown has passed since then: not after other results, and not because the idle circuit
      was forgotten.  A denied caller is told the time that is left, counted from the latest opening. */
  lemma {:induction false} CooldownHolds(cfg: Config, spec: BreakerSpec, es: seq<Event>, i: nat)
    requires cfg.Valid() && spec.Valid() && cfg.ttlS >= spec.openCooldownS && Ordered(es) && i < |es|
    requires After(cfg, spec, es[..i + 1]).openedAtS == Some(es[i].nowS)
    requires es[|es| - 1].nowS < es[i].nowS + spec.openCooldownS
    ensures KeyRun(cfg, spec, es).0.Some? && KeyRun(cfg, spec, es).0.value.stampS == es[|es| - 1].nowS
    ensures var c := After(cfg, spec, es); c.state.Open? && es[i].nowS <= c.openedAtS.value <= es[|es| - 1].nowS
    ensures |es| > i + 1 && es[|es| - 1].op.AllowCall? ==>
              var left := After(cfg, spec, es).openedAtS.value + spec.openCooldownS - es[|es| - 1].nowS;
              KeyStep(cfg, spec, KeyRun(cfg, spec, es[..|es| - 1]).0, es[|es| - 1]).1
              == Decided(Decision(false, Open, Some(left)))
  {
    var before := es[..|es| - 1];
    if |es| == i + 1 {
      assert es[..i + 1] == es;
    } else {
      assert before[..i + 1] == es[..i + 1];
      CooldownHolds(cfg, spec, before, i);
    }
  }

  predicate Granted(r: Reply) {
    r.Decided? && r.decision.allowed
  }

  /** The promise about one key's run: a call made before the cooldown since an opening is denied. */
  ghost predicate DeniedDuringCooldown(cfg: Config, spec: BreakerSpec, es: seq<Event>, i: nat)
    requires i + 1 < |es|
  {
    var last := es[|es| - 1];
    && After(cfg, spec, es[..i + 1]).openedAtS == Some(es[i].nowS)
    && last.op.AllowCall? && last.nowS < es[i].nowS + spec.openCooldownS
    ==> !Granted(KeyStep(cfg, spec, KeyRun(cfg, spec, es[..|es| - 1]).0, last).1)
  }

  ghost predicate CooldownPromised(cfg: Config, spec: BreakerSpec) {
    forall es: seq<Event>, i: nat :: Ordered(es) && i + 1 < |es| ==> DeniedDuringCooldown(cfg, spec, es, i)
  }

  /** The cooldown is kept through idle eviction exactly when circuits are kept as long as it lasts. */
  lemma CooldownExactlyWhenKept(cfg: Config, spec: BreakerSpec)
    requires cfg.Valid() && spec.Valid()
    ensures CooldownPromised(cfg, spec) <==> cfg.ttlS >= spec.openCooldownS
  {
    if cfg.ttlS >= spec.openCooldownS {
      forall es: seq<Event>, i: nat | Ordered(es) && i + 1 < |es|
        ensures DeniedDuringCooldown(cfg, spec, es, i)
      {
        var last := es[|es| - 1];
        if After(cfg, spec, es[..i + 1]).openedAtS == Some(es[i].nowS) && last.nowS < es[i].nowS + spec.openCooldownS {
          CooldownHolds(cfg, spec, es, i);
        }
      }
    } else {
      var n := spec.failureThreshold;
      var trips := seq(n, _ => Event(RecordResult(false), 0.0));
      var last := Event(AllowCall, (cfg.ttlS + spec.openCooldownS) / 2.0);
      var es := trips + [last];
      assert es[..n - 1 + 1] == trips && es[..|es| - 1] == trips;
      assert trips == seq(n, _ => Event(RecordResult(false), 0.0));
      Trips(cfg, spec, trips);
      assert Ordered(es);
      assert !DeniedDuringCooldown(cfg, spec, es, n - 1);
    }
  }

  /** Failures at time zero: each is remembered until the threshold opens the circuit. */
  lemma {:induction false} Trips(cfg: Config, spec: BreakerSpec, es: seq<Event>)
    requires cfg.Valid() && spec.Valid() && |es| <= spec.failureThreshold
    requires forall i :: 0 <= i < |es| ==> es[i] == Event(RecordResult(false), 0.0)
    ensures |es| < spec.failureThreshold ==>
              After(cfg, spec, es) == FRESH.(failures := seq(|es|, _ => 0.0))
    ensures es != [] ==> KeyRun(cfg, spec, es).0 == Some(Seen(0.0, After(cfg, spec, es)))
    ensures |es| == spec.failureThreshold ==> After(cfg, spec, es) == Opened(0.0)
  {
    if es != [] {
      var before := es[..|es| - 1];
      Trips(cfg, spec, before);
      var failures := After(cfg, spec, before).failures;
      assert failures == seq(|es| - 1, _ => 0.0);
      assert failures + [0.0] == seq(|es|, _ => 0.0);
    } else {
      assert FRESH.failures == seq(0, _ => 0.0);
    }
  }

  // ---------- Half-open ----------

  ghost predicate ProbesOk(spec: BreakerSpec, c: Circuit) {
    && 0 <= c.inFlight <= spec.PermitLimit()
    && 0 <= c.successes < spec.successThreshold
    && (!c.state.HalfOpen? ==> c.inFlight == 0 && c.successes == 0)
  }

  ghost predicate CircuitOk(spec: BreakerSpec, c: Circuit) {
    ProbesOk(spec, c) && |c.failures| < spec.failureThreshold
  }

  lemma StepKeepsProbes(spec: BreakerSpec, c: Circuit, op: Op, nowS: real)
    requires spec.Valid() && ProbesOk(spec, c)
    ensures ProbesOk(spec, CircuitStep(spec, c, op, nowS).0)
  {
  }

  lemma {:induction false} PrunedShrinks(spec: BreakerSpec, failures: seq<real>, nowS: real)
    ensures |Pruned(spec, failures, nowS)| <= |failures|
  {
    if failures != [] {
      PrunedShrinks(spec, failures[1..], nowS);
    }
  }

  /** A closed circuit below the threshold lets every call through and stays closed. */
  lemma StepKeepsOk(spec: BreakerSpec, c: Circuit, op: Op, nowS: real)
    requires spec.Valid() && CircuitOk(spec, c)
    ensures CircuitOk(spec, CircuitStep(spec, c, op, nowS).0)
    ensures op.AllowCall? && c.state.Closed? ==>
              && CircuitStep(spec, c, op, nowS).0.state.Closed?
              && CircuitStep(spec, c, op, nowS).1 == Decided(Decision(true, Closed, None))
  {
    StepKeepsProbes(spec, c, op, nowS);
    PrunedShrinks(spec, c.failures, nowS);
  }

  /** In the container, whatever the keys, the clock and the evictions, no circuit ever counts more
      probes in flight than the permit limit, or as many failures as the threshold. */
  lemma {:induction false} PermitsNeverExceeded<K>(cfg: Config, spec: BreakerSpec, calls: seq<Call<K>>)
    requires spec.Valid()
    ensures forall i :: 0 <= i < |BreakerRun(cfg, spec, calls).0| ==>
              CircuitOk(spec, BreakerRun(cfg, spec, calls).0[i].value)
  {
    if calls != [] {
      var before, c := calls[..|calls| - 1], calls[|calls| - 1];
      PermitsNeverExceeded(cfg, spec, before);
      BreakerStepKeepsOk(cfg, spec, BreakerRun(cfg, spec, before).0, c);
      hide BreakerStep;
    }
  }

  /** So whatever the run before it, `allow_call` never opens a circuit: one that is closed, or that is
      new or was forgotten, lets the call through and stays closed. */
  lemma AllowNeverOpens<K>(cfg: Config, spec: BreakerSpec, calls: seq<Call<K>>, k: K, nowS: real)
    requires spec.Valid() && cfg.Valid() && 0.0 <= nowS
    ensures var es, c := BreakerRun(cfg, spec, calls).0, Call(k, AllowCall, nowS);
            var (es', r) := BreakerStep(cfg, spec, es, c);
            CircuitOf(Find(DropExpired(cfg, es, nowS), k)).state.Closed? ==>
              r == Decided(Decision(true, Closed, None)) && es' != [] && es'[|es'| - 1].key == k
              && es'[|es'| - 1].value.state.Closed?
  {
    PermitsNeverExceeded(cfg, spec, calls);
    var es := BreakerRun(cfg, spec, calls).0;
    var swept := DropExpired(cfg, es, nowS);
    DropExpiredIsSuffix(cfg, es, nowS);
    var before := CircuitOf(Find(swept, k));
    assert CircuitOk(spec, before);
    StepKeepsOk(spec, before, AllowCall, nowS);
    var after := CircuitStep(spec, before, AllowCall, nowS).0;
    TouchedIsHeld(cfg, swept, Entry(k, nowS, before), after);
    hide CircuitStep, BreakerRun, CircuitOk;
  }

  lemma BreakerStepKeepsOk<K>(cfg: Config, spec: BreakerSpec, es: seq<Entry<K, Circuit>>, c: Call<K>)
    requires spec.Valid() && forall i :: 0 <= i < |es| ==> CircuitOk(spec, es[i].value)
    ensures forall i :: 0 <= i < |BreakerStep(cfg, spec, es, c).0| ==>
              CircuitOk(spec, BreakerStep(cfg, spec, es, c).0[i].value)
  {
    hide CircuitStep;
    var swept := DropExpired(cfg, es, c.nowS);
    DropExpiredIsSuffix(cfg, es, c.nowS);
    var circuit := CircuitOf(Find(swept, c.key));
    assert CircuitOk(spec, circuit);
    FilterMembers(NotKey(c.key), swept);
    StepKeepsOk(spec, circuit, c.op, c.nowS);
    SetKeepsOk(spec, Newest(cfg.maxKeys, Put(swept, Entry(c.key, c.nowS, circuit))), c.key,
               CircuitStep(spec, circuit, c.op, c.nowS).0);
  }

  lemma {:induction false} SetKeepsOk<K>(spec: BreakerSpec, es: seq<Entry<K, Circuit>>, k: K, c: Circuit)
    requires CircuitOk(spec, c) && forall i :: 0 <= i < |es| ==> CircuitOk(spec, es[i].value)
    ensures forall i :: 0 <= i < |SetValue(es, k, c)| ==> CircuitOk(spec, SetValue(es, k, c)[i].value)
  {
    if es != [] {
      SetKeepsOk(spec, es[1..], k, c);
    }
  }

  /** A half-open circuit through a stretch of events that leaves it half-open throughout. */
  function Probed(spec: BreakerSpec, c: Circuit, es: seq<Event>): Circuit {
    if es == [] then c else CircuitStep(spec, Probed(spec, c, es[..|es| - 1]), es[|es| - 1].op, es[|es| - 1].nowS).0
  }

  ghost predicate StaysHalfOpen(spec: BreakerSpec, c: Circuit, es: seq<Event>) {
    forall n :: 0 <= n <= |es| ==> Probed(spec, c, es[..n]).state.HalfOpen?
  }

  function Grants(spec: BreakerSpec, c: Circuit, es: seq<Event>): nat {
    if es == [] then 0
    else
      var e := es[|es| - 1];
      var r := CircuitStep(spec, Probed(spec, c, es[..|es| - 1]), e.op, e.nowS).1;
      Grants(spec, c, es[..|es| - 1]) + if Granted(r) then 1 else 0
  }

  function Results(es: seq<Event>): nat {
    if es == [] then 0
    else Results(es[..|es| - 1]) + if es[|es| - 1].op.RecordResult? then 1 else 0
  }

  /** Probing is bounded by what comes back: through one half-open spell the circuit lets through at
      most the permit limit plus one more call per result, every result is a success and is counted,
      and fewer than the success threshold arrive (the next one would close the circuit). */
  lemma {:induction false} ProbesAreBounded(spec: BreakerSpec, c: Circuit, es: seq<Event>)
    requires spec.Valid() && ProbesOk(spec, c) && StaysHalfOpen(spec, c, es)
    ensures ProbesOk(spec, Probed(spec, c, es))
    ensures c.inFlight + Grants(spec, c, es) <= Probed(spec, c, es).inFlight + Results(es)
    ensures c.inFlight + Grants(spec, c, es) <= spec.PermitLimit() + Results(es)
    ensures c.successes + Results(es) == Probed(spec, c, es).successes < spec.successThreshold
  {
    assert es[..|es|] == es;
    if es != [] {
      var before := es[..|es| - 1];
      forall n | 0 <= n <= |before|
        ensures Probed(spec, c, before[..n]).state.HalfOpen?
      {
        assert before[..n] == es[..n];
      }
      ProbesAreBounded(spec, c, before);
      StepKeepsProbes(spec, Probed(spec, c, before), es[|es| - 1].op, es[|es| - 1].nowS);
    }
  }
}
