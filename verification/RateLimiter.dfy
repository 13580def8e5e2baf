/** The two rate limiters: the plain one over an unbounded dictionary
    (`guards/rate_limit/token_bucket_limiter.py`, `store.py`) and the bounded one
    (`guards/rate_limit/in_memory.py`), and when the second gives the answers of the first. */
module RateLimiters {
  import opened Wrappers
  import opened Sequences
  import opened LruTtl
  import opened TokenBuckets

  datatype Call<K> = Call(key: K, spec: Spec, cost: real, nowS: real)

  // ---------- The plain limiter ----------

  class InMemoryTokenBucketStore<K(==)> {
    var buckets: map<K, BucketState>

    constructor ()
      ensures buckets == map[]
    {
      buckets := map[];
    }

    method Load(key: K) returns (r: Option<BucketState>)
      ensures r == LoadFrom(buckets, key)
    {
      r := if key in buckets then Some(buckets[key]) else None;
    }

    method Save(key: K, state: BucketState)
      modifies this
      ensures buckets == old(buckets)[key := state]
    {
      buckets := buckets[key := state];
    }
  }

  function LoadFrom<K>(buckets: map<K, BucketState>, key: K): Option<BucketState> {
    if key in buckets then Some(buckets[key]) else None
  }

  function PlainStep<K>(buckets: map<K, BucketState>, c: Call<K>): (map<K, BucketState>, Verdict) {
    if c.nowS < 0.0 then (buckets, Rejected)
    else
      var (s, v) := Consumed(c.spec, Loaded(c.spec, LoadFrom(buckets, c.key), c.nowS), c.cost, c.nowS);
      (if v.Rejected? then buckets else buckets[c.key := s], v)
  }

  class TokenBucketRateLimiter<K(==)> {
    const store: InMemoryTokenBucketStore<K>

    constructor (store: InMemoryTokenBucketStore<K>)
      ensures this.store == store
    {
      this.store := store;
    }

    ghost predicate Valid()
      reads store
    {
      forall k :: k in store.buckets ==> store.buckets[k].Valid()
    }

    method Consume(c: Call<K>) returns (v: Verdict)
      requires Valid() && c.spec.Valid()
      modifies store
      ensures Valid()
      ensures (store.buckets, v) == PlainStep(old(store.buckets), c)
    {
      var state := store.Load(c.key);
      if state.None? && c.nowS < 0.0 {
        return Rejected;
      }
      var bucket := new Bucket.FromState(c.spec, state, c.nowS);
      v := bucket.Consume(c.cost, c.nowS);
      if v.Decided? {
        store.Save(c.key, bucket.State());
      }
    }
  }

  // ---------- The bounded limiter ----------

  function BucketOf<K(==)>(es: seq<Entry<K, real>>, key: K): Option<BucketState> {
    match Find(es, key)
    case None => None
    case Some(e) => Some(BucketState(e.value, e.stampS))
  }

  function BoundedStep<K(==)>(cfg: Config, es: seq<Entry<K, real>>, c: Call<K>): (seq<Entry<K, real>>, Verdict) {
    if c.nowS < 0.0 then (es, Rejected)
    else
      var swept := DropExpired(cfg, es, c.nowS);
      var (s, v) := Consumed(c.spec, Loaded(c.spec, BucketOf(swept, c.key), c.nowS), c.cost, c.nowS);
      if v.Rejected? then (swept, v)
      else (Newest(cfg.maxKeys, Put(swept, Entry(c.key, s.updatedAtS, s.tokens))), v)
  }

  class InMemoryRateLimiter<K(==)> {
    const cfg: Config
    var buckets: seq<Entry<K, real>>

    constructor (cfg: Config)
      requires cfg.Valid()
      ensures Valid() && this.cfg == cfg && buckets == []
    {
      this.cfg := cfg;
      buckets := [];
    }

    ghost predicate Valid()
      reads this
    {
      cfg.Valid() && AllSane(buckets)
    }

    method Consume(c: Call<K>) returns (v: Verdict)
      requires Valid() && c.spec.Valid()
      modifies this
      ensures Valid()
      ensures (buckets, v) == BoundedStep(cfg, old(buckets), c)
    {
      StepKeepsSane(cfg, buckets, c);
      if c.nowS < 0.0 {
        return Rejected;
      }
      hide Consumed, Loaded, DropExpired, Put, Newest, AllSane;
      var swept := EvictExpired(cfg, buckets, c.nowS);
      var state := BucketOf(swept, c.key);
      buckets := swept;
      var bucket := new Bucket.FromState(c.spec, state, c.nowS);
      v := bucket.Consume(c.cost, c.nowS);
      if v.Rejected? {
        return;
      }
      buckets := Put(swept, Entry(c.key, bucket.updatedAtS, bucket.tokens));
      buckets := EvictLru(cfg, buckets);
    }
  }

  ghost predicate AllSane<K>(es: seq<Entry<K, real>>) {
    forall i :: 0 <= i < |es| ==> BucketState(es[i].value, es[i].stampS).Valid()
  }

  lemma StepKeepsSane<K>(cfg: Config, es: seq<Entry<K, real>>, c: Call<K>)
    requires AllSane(es) && c.spec.Valid()
    ensures AllSane(BoundedStep(cfg, es, c).0)
    ensures var found := BucketOf(DropExpired(cfg, es, c.nowS), c.key); found.Some? ==> found.value.Valid()
  {
    var swept := DropExpired(cfg, es, c.nowS);
    DropExpiredIsSuffix(cfg, es, c.nowS);
    assert AllSane(swept);
    var found := BucketOf(swept, c.key);
    assert found.Some? ==> found.value.Valid();
    if c.nowS >= 0.0 {
      ConsumedValid(c.spec, found, c.cost, c.nowS);
      FilterMembers(NotKey(c.key), swept);
    }
  }

  lemma ConsumedValid(spec: Spec, state: Option<BucketState>, cost: real, nowS: real)
    requires spec.Valid() && nowS >= 0.0 && (state.Some? ==> state.value.Valid())
    ensures Consumed(spec, Loaded(spec, state, nowS), cost, nowS).0.Valid()
  {
    if state.Some? && state.value.updatedAtS <= nowS {
      MulMono(0.0, nowS - state.value.updatedAtS, spec.refillRatePerS);
    }
  }

  // ---------- Runs ----------

  function PlainRun<K>(calls: seq<Call<K>>): (map<K, BucketState>, seq<Verdict>) {
    if calls == [] then (map[], [])
    else
      var (s, vs) := PlainRun(calls[..|calls| - 1]);
      var (s', v) := PlainStep(s, calls[|calls| - 1]);
      (s', vs + [v])
  }

  function BoundedRun<K(==)>(cfg: Config, calls: seq<Call<K>>): (seq<Entry<K, real>>, seq<Verdict>) {
    if calls == [] then ([], [])
    else
      var (s, vs) := BoundedRun(cfg, calls[..|calls| - 1]);
      var (s', v) := BoundedStep(cfg, s, calls[|calls| - 1]);
      (s', vs + [v])
  }

  ghost function KeysOf<K>(calls: seq<Call<K>>): set<K> {
    set i: nat | i < |calls| :: calls[i].key
  }

  /** Clocks do not run backwards, every key keeps its spec, and the keys fit. */
  ghost predicate Admissible<K>(cfg: Config, specOf: K -> Spec, calls: seq<Call<K>>) {
    && (forall i, j :: 0 <= i < j < |calls| ==> calls[i].nowS <= calls[j].nowS)
    && (forall i :: 0 <= i < |calls| ==> calls[i].spec == specOf(calls[i].key) && calls[i].spec.Valid())
    && |KeysOf(calls)| <= cfg.maxKeys
  }

  // ---------- What the container holds ----------

  /** The bucket a call writes, if it is not rejected. */
  function Written<K(==)>(cfg: Config, es: seq<Entry<K, real>>, c: Call<K>): seq<Entry<K, real>> {
    var swept := DropExpired(cfg, es, c.nowS);
    var (s, v) := Consumed(c.spec, Loaded(c.spec, BucketOf(swept, c.key), c.nowS), c.cost, c.nowS);
    if v.Rejected? then [] else [Entry(c.key, s.updatedAtS, s.tokens)]
  }

  /** Every bucket a run wrote, in order. */
  function Writes<K(==)>(cfg: Config, calls: seq<Call<K>>): seq<Entry<K, real>> {
    if calls == [] then []
    else
      var before := calls[..|calls| - 1];
      Writes(cfg, before) + Written(cfg, BoundedRun(cfg, before).0, calls[|calls| - 1])
  }

  lemma StepExact<K>(cfg: Config, log: seq<Entry<K, real>>, t0: real, c: Call<K>)
    requires cfg.Valid() && Timely(log, t0) && t0 <= c.nowS && (c.nowS < 0.0 ==> log == [])
    ensures var es := Contents(cfg, log, t0);
            var log' := log + Written(cfg, es, c);
            && BoundedStep(cfg, es, c).0 == Contents(cfg, log', c.nowS)
            && Timely(log', c.nowS) && (c.nowS < 0.0 ==> log' == [])
  {
    var es := Contents(cfg, log, t0);
    SweepExact(cfg, log, t0, c.nowS);
    var swept := DropExpired(cfg, es, c.nowS);
    var (s, v) := Consumed(c.spec, Loaded(c.spec, BucketOf(swept, c.key), c.nowS), c.cost, c.nowS);
    if v.Decided? {
      WriteExact(cfg, log, c.nowS, Entry(c.key, s.updatedAtS, s.tokens));
    } else {
      assert log + Written(cfg, es, c) == log;
    }
  }

  lemma {:induction false} LimiterHoldsContents<K>(cfg: Config, calls: seq<Call<K>>)
    requires cfg.Valid() && calls != []
    requires forall i, j :: 0 <= i < j < |calls| ==> calls[i].nowS <= calls[j].nowS
    ensures var nowS := calls[|calls| - 1].nowS;
            && Timely(Writes(cfg, calls), nowS)
            && (nowS < 0.0 ==> Writes(cfg, calls) == [])
            && BoundedRun(cfg, calls).0 == Contents(cfg, Writes(cfg, calls), nowS)
  {
    hide BoundedStep, Written, Contents;
    var before, c := calls[..|calls| - 1], calls[|calls| - 1];
    var t0 := if before == [] then c.nowS else before[|before| - 1].nowS;
    if before == [] {
      NothingYet<K, real>(cfg, t0);
    } else {
      LimiterHoldsContents(cfg, before);
    }
    StepExact(cfg, Writes(cfg, before), t0, c);
  }

  /** However many keys a run uses, after every call the limiter holds, in last-use order, exactly
      the buckets still retained out of everything the run ever wrote. */
  lemma LimiterHoldsRetained<K>(cfg: Config, calls: seq<Call<K>>)
    requires cfg.Valid() && calls != []
    requires forall i, j :: 0 <= i < j < |calls| ==> calls[i].nowS <= calls[j].nowS
    ensures BoundedRun(cfg, calls).0 == RetainedFrom(cfg, Writes(cfg, calls), calls[|calls| - 1].nowS, 0)
  {
    LimiterHoldsContents(cfg, calls);
    ContentsAreRetained(cfg, Writes(cfg, calls), calls[|calls| - 1].nowS);
  }

  // ---------- Refinement ----------

  /** An idle bucket forgotten by the container had refilled by then, so a fresh one serves as well. */
  lemma ForgottenIsFull(spec: Spec, s: BucketState, ttlS: real, cost: real, nowS: real)
    requires spec.Valid() && s.Valid() && 0.0 <= nowS
    requires spec.RefillOver(ttlS) >= spec.MaxTokens() && nowS - s.updatedAtS > ttlS
    ensures var anew := Consumed(spec, Loaded(spec, None, nowS), cost, nowS);
            var kept := Consumed(spec, Loaded(spec, Some(s), nowS), cost, nowS);
            anew.1 == kept.1 && (anew.1.Decided? ==> anew.0 == kept.0)
  {
    MulMono(ttlS, nowS - s.updatedAtS, spec.refillRatePerS);
  }

  /** The plain limiter's dictionary, as entries. */
  function AsEntries<K>(buckets: map<K, BucketState>): map<K, Entry<K, real>> {
    map k | k in buckets :: Entry(k, buckets[k].updatedAtS, buckets[k].tokens)
  }

  ghost predicate Simulates<K(!new)>(cfg: Config, es: seq<Entry<K, real>>, buckets: map<K, BucketState>, nowS: real) {
    Mirrors(cfg, es, AsEntries(buckets), nowS) && forall k :: k in buckets ==> buckets[k].Valid()
  }

  lemma SameVerdict<K(!new)>(cfg: Config, found: Option<BucketState>, buckets: map<K, BucketState>, c: Call<K>)
    requires c.key in buckets ==> buckets[c.key].Valid() && buckets[c.key].updatedAtS <= c.nowS
    requires 0.0 <= c.nowS && c.spec.Valid() && c.spec.RefillOver(cfg.ttlS) >= c.spec.MaxTokens()
    requires found == LoadFrom(buckets, c.key)
          || (c.key in buckets && found.None? && c.nowS - buckets[c.key].updatedAtS > cfg.ttlS)
    ensures var bounded := Consumed(c.spec, Loaded(c.spec, found, c.nowS), c.cost, c.nowS);
            var plain := Consumed(c.spec, Loaded(c.spec, LoadFrom(buckets, c.key), c.nowS), c.cost, c.nowS);
            && bounded.1 == plain.1
            && (plain.1.Decided? ==> bounded.0 == plain.0 && plain.0.Valid() && plain.0.updatedAtS == c.nowS)
  {
    StepConserves(c.spec, Loaded(c.spec, LoadFrom(buckets, c.key), c.nowS), c.cost, c.nowS);
    if found != LoadFrom(buckets, c.key) {
      ForgottenIsFull(c.spec, buckets[c.key], cfg.ttlS, c.cost, c.nowS);
    }
  }

  /** One call gives the same answer on both sides and keeps them in step. */
  lemma StepSimulates<K(!new)>(cfg: Config, es: seq<Entry<K, real>>, buckets: map<K, BucketState>, t0: real, c: Call<K>)
    requires cfg.Valid() && Simulates(cfg, es, buckets, t0) && t0 <= c.nowS && c.spec.Valid()
    requires c.spec.RefillOver(cfg.ttlS) >= c.spec.MaxTokens()
    requires |buckets.Keys + {c.key}| <= cfg.maxKeys
    ensures BoundedStep(cfg, es, c).1 == PlainStep(buckets, c).1
    ensures Simulates(cfg, BoundedStep(cfg, es, c).0, PlainStep(buckets, c).0, c.nowS)
  {
    hide Consumed, Loaded, Mirrors, DropExpired, BucketOf, LoadFrom, Put, Newest;
    if c.nowS < 0.0 {
      MirrorsLater(cfg, es, AsEntries(buckets), t0, c.nowS);
    } else {
      SweptBucket(cfg, es, buckets, t0, c.nowS, c.key);
      SameVerdict(cfg, BucketOf(DropExpired(cfg, es, c.nowS), c.key), buckets, c);
      var (s, v) := Consumed(c.spec, Loaded(c.spec, LoadFrom(buckets, c.key), c.nowS), c.cost, c.nowS);
      if v.Decided? {
        PutSimulates(cfg, DropExpired(cfg, es, c.nowS), buckets, c.key, s);
      }
    }
  }

  lemma SweptBucket<K(!new)>(
    cfg: Config, es: seq<Entry<K, real>>, buckets: map<K, BucketState>, t0: real, t1: real, k: K)
    requires Simulates(cfg, es, buckets, t0) && t0 <= t1
    ensures var swept := DropExpired(cfg, es, t1);
            && Simulates(cfg, swept, buckets, t1)
            && (k in buckets ==> buckets[k].Valid() && buckets[k].updatedAtS <= t1)
            && (BucketOf(swept, k) == LoadFrom(buckets, k)
                || (k in buckets && BucketOf(swept, k).None? && t1 - buckets[k].updatedAtS > cfg.ttlS))
  {
    var store := AsEntries(buckets);
    SweepMirrors(cfg, es, store, t0, t1);
    SweptLookup(cfg, es, store, t0, t1, k);
  }

  lemma PutSimulates<K(!new)>(cfg: Config, es: seq<Entry<K, real>>, buckets: map<K, BucketState>, k: K, s: BucketState)
    requires Simulates(cfg, es, buckets, s.updatedAtS) && s.Valid() && |buckets.Keys + {k}| <= cfg.maxKeys
    ensures var put := Put(es, Entry(k, s.updatedAtS, s.tokens));
            Newest(cfg.maxKeys, put) == put && Simulates(cfg, put, buckets[k := s], s.updatedAtS)
  {
    hide Mirrors, Put, Newest;
    AsEntriesUpdate(buckets, k, s);
    PutMirrors(cfg, es, AsEntries(buckets), Entry(k, s.updatedAtS, s.tokens));
  }

  lemma AsEntriesUpdate<K>(buckets: map<K, BucketState>, k: K, s: BucketState)
    ensures AsEntries(buckets).Keys == buckets.Keys
    ensures AsEntries(buckets[k := s]) == AsEntries(buckets)[k := Entry(k, s.updatedAtS, s.tokens)]
  {
  }

  /** The bounded limiter refines the plain one: it forgets buckets, and no caller can tell. */
  lemma {:induction false} BoundedRefinesPlain<K(!new)>(cfg: Config, specOf: K -> Spec, calls: seq<Call<K>>)
    requires cfg.Valid() && Admissible(cfg, specOf, calls)
    requires forall i :: 0 <= i < |calls| ==> calls[i].spec.RefillOver(cfg.ttlS) >= calls[i].spec.MaxTokens()
    ensures BoundedRun(cfg, calls).1 == PlainRun(calls).1
    ensures calls != [] ==> Simulates(cfg, BoundedRun(cfg, calls).0, PlainRun(calls).0, calls[|calls| - 1].nowS)
    ensures PlainRun(calls).0.Keys <= KeysOf(calls)
  {
    if calls != [] {
      var before, c := calls[..|calls| - 1], calls[|calls| - 1];
      var t0 := if before == [] then c.nowS else before[|before| - 1].nowS;
      AdmissiblePrefix(cfg, specOf, calls);
      if before != [] {
        BoundedRefinesPlain(cfg, specOf, before);
      }
      assert Simulates(cfg, BoundedRun(cfg, before).0, PlainRun(before).0, t0);
      FewerKeys(PlainRun(before).0.Keys + {c.key}, KeysOf(calls));
      NextCall(cfg, calls, t0);
    }
  }

  lemma NextCall<K(!new)>(cfg: Config, calls: seq<Call<K>>, t0: real)
    requires cfg.Valid() && calls != []
    requires var before, c := calls[..|calls| - 1], calls[|calls| - 1];
             && BoundedRun(cfg, before).1 == PlainRun(before).1
             && Simulates(cfg, BoundedRun(cfg, before).0, PlainRun(before).0, t0)
             && t0 <= c.nowS && c.spec.Valid() && c.spec.RefillOver(cfg.ttlS) >= c.spec.MaxTokens()
             && |PlainRun(before).0.Keys + {c.key}| <= cfg.maxKeys
    ensures BoundedRun(cfg, calls).1 == PlainRun(calls).1
    ensures Simulates(cfg, BoundedRun(cfg, calls).0, PlainRun(calls).0, calls[|calls| - 1].nowS)
    ensures PlainRun(calls).0.Keys <= PlainRun(calls[..|calls| - 1]).0.Keys + {calls[|calls| - 1].key}
  {
    var before, c := calls[..|calls| - 1], calls[|calls| - 1];
    StepSimulates(cfg, BoundedRun(cfg, before).0, PlainRun(before).0, t0, c);
    hide BoundedStep, Simulates, Consumed;
  }

  lemma AdmissiblePrefix<K>(cfg: Config, specOf: K -> Spec, calls: seq<Call<K>>)
    requires Admissible(cfg, specOf, calls) && calls != []
    ensures Admissible(cfg, specOf, calls[..|calls| - 1])
    ensures KeysOf(calls) == KeysOf(calls[..|calls| - 1]) + {calls[|calls| - 1].key}
  {
    var before := calls[..|calls| - 1];
    assert KeysOf(calls) == KeysOf(before) + {calls[|calls| - 1].key};
    FewerKeys(KeysOf(before), KeysOf(calls));
  }

  ghost predicate NeverTold<K(!new)>(cfg: Config, spec: Spec) {
    forall calls: seq<Call<K>> :: Admissible(cfg, (k: K) => spec, calls) ==>
      BoundedRun(cfg, calls).1 == PlainRun(calls).1
  }

  /** When the bounded limiter can be told apart: exactly when the idle time is too short to refill. */
  lemma RefinesExactlyWhenTtlRefills<K(!new)>(cfg: Config, spec: Spec, k: K)
    requires cfg.Valid() && spec.Valid()
    ensures NeverTold<K>(cfg, spec) <==> spec.RefillOver(cfg.ttlS) >= spec.MaxTokens()
  {
    if spec.RefillOver(cfg.ttlS) >= spec.MaxTokens() {
      forall calls: seq<Call<K>> | Admissible(cfg, (k: K) => spec, calls)
        ensures BoundedRun(cfg, calls).1 == PlainRun(calls).1
      {
        BoundedRefinesPlain(cfg, (k: K) => spec, calls);
      }
    } else {
      var calls := TellingRun(cfg, spec, k);
    }
  }

  /** Empty the bucket, wait just past the idle time, ask for a full bucket again. */
  lemma TellingRun<K(!new)>(cfg: Config, spec: Spec, k: K) returns (calls: seq<Call<K>>)
    requires cfg.Valid() && spec.Valid() && spec.RefillOver(cfg.ttlS) < spec.MaxTokens()
    ensures Admissible(cfg, (k: K) => spec, calls)
    ensures BoundedRun(cfg, calls).1 != PlainRun(calls).1
  {
    var max := spec.MaxTokens();
    var laterS := LaterThanTtl(cfg, spec);
    var first, second := Call(k, spec, max, 0.0), Call(k, spec, max, laterS);
    calls := [first, second];
    assert calls[0].key == k && forall i: nat :: i < |calls| ==> calls[i].key == k;
    assert KeysOf(calls) == {k};
    assert calls[..1] == [first] && [first][..0] == [];
    FirstCall(cfg, first);
    assert DropExpired(cfg, [Entry(k, 0.0, 0.0)], laterS) == [];
    assert BoundedRun(cfg, calls).1[1] == BoundedStep(cfg, [Entry(k, 0.0, 0.0)], second).1;
    assert PlainRun(calls).1[1] == PlainStep(map[k := BucketState(0.0, 0.0)], second).1;
  }

  lemma FirstCall<K(!new)>(cfg: Config, c: Call<K>)
    requires cfg.Valid() && c.spec.Valid() && c.cost == c.spec.MaxTokens() && c.nowS == 0.0
    ensures PlainRun([c]) == (map[c.key := BucketState(0.0, 0.0)], [Decided(true, Some(0.0))])
    ensures BoundedRun(cfg, [c]) == ([Entry(c.key, 0.0, 0.0)], [Decided(true, Some(0.0))])
  {
    assert [c][..0] == [];
    assert Put([], Entry(c.key, 0.0, 0.0)) == [Entry(c.key, 0.0, 0.0)];
    var none: map<K, BucketState> := map[];
    assert PlainRun([c][..0]) == (none, []);
    assert none[c.key := BucketState(0.0, 0.0)] == map[c.key := BucketState(0.0, 0.0)];
    assert PlainStep(none, c) == (map[c.key := BucketState(0.0, 0.0)], Decided(true, Some(0.0)));
    assert PlainRun([c]).0 == PlainStep(none, c).0;
    assert PlainRun([c]).1 == [PlainStep(none, c).1];
  }

  lemma LaterThanTtl(cfg: Config, spec: Spec) returns (t: real)
    requires cfg.Valid() && spec.Valid() && spec.RefillOver(cfg.ttlS) < spec.MaxTokens()
    ensures t > cfg.ttlS && spec.RefillOver(t) < spec.MaxTokens()
  {
    var rate, slack := spec.refillRatePerS, spec.MaxTokens() - spec.RefillOver(cfg.ttlS);
    if rate == 0.0 {
      t := cfg.ttlS + 1.0;
    } else {
      var d := slack / (2.0 * rate);
      t := cfg.ttlS + d;
      assert d * rate == slack / 2.0;
      MulAdd(cfg.ttlS, d, rate);
    }
  }
}
