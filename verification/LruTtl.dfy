/** The bounded container that `guards/rate_limit/in_memory.py` and
    `guards/circuit_breaker/in_memory.py` share: an `OrderedDict`, oldest use first, trimmed by idle
    time from the front and by size from the front.

    The container is a sequence of entries with distinct keys.  An entry's stamp is the time of its
    last use (the bucket's `updated_at_s`, the circuit's `last_seen_s`). */
module LruTtl {
  import opened Wrappers
  import opened Sequences

  datatype Entry<K, V> = Entry(key: K, stampS: real, value: V)

  datatype Config = Config(maxKeys: nat, ttlS: real) {
    predicate Valid() {
      maxKeys > 0 && ttlS > 0.0
    }
  }

  // ---------- The container's operations ----------

  function Find<K(==), V>(es: seq<Entry<K, V>>, k: K): (r: Option<Entry<K, V>>)
    ensures r.Some? ==> r.value in es && r.value.key == k
    ensures r.None? ==> forall e :: e in es ==> e.key != k
  {
    if es == [] then None
    else if es[0].key == k then Some(es[0])
    else Find(es[1..], k)
  }

  function NotKey<K(==), V>(k: K): Entry<K, V> -> bool {
    (e: Entry<K, V>) => e.key != k
  }

  function Without<K(==), V>(es: seq<Entry<K, V>>, k: K): seq<Entry<K, V>> {
    Filter(NotKey(k), es)
  }

  /** `d[key] = value; d.move_to_end(key)`. */
  function Put<K(==), V>(es: seq<Entry<K, V>>, e: Entry<K, V>): seq<Entry<K, V>> {
    Without(es, e.key) + [e]
  }

  predicate Expired<K, V>(cfg: Config, e: Entry<K, V>, nowS: real) {
    nowS - e.stampS > cfg.ttlS
  }

  /** Pop expired entries off the front, stopping at the first one that is not. */
  function DropExpired<K, V>(cfg: Config, es: seq<Entry<K, V>>, nowS: real): seq<Entry<K, V>> {
    if es == [] || !Expired(cfg, es[0], nowS) then es
    else DropExpired(cfg, es[1..], nowS)
  }

  function Newest<T>(n: nat, es: seq<T>): seq<T> {
    if |es| <= n then es else es[|es| - n..]
  }

  method EvictExpired<K, V>(cfg: Config, es: seq<Entry<K, V>>, nowS: real) returns (r: seq<Entry<K, V>>)
    ensures r == DropExpired(cfg, es, nowS)
  {
    r := es;
    while r != []
      invariant DropExpired(cfg, r, nowS) == DropExpired(cfg, es, nowS)
      decreases |r|
    {
      if !Expired(cfg, r[0], nowS) {
        return;
      }
      r := r[1..];
    }
  }

  method EvictLru<K, V>(cfg: Config, es: seq<Entry<K, V>>) returns (r: seq<Entry<K, V>>)
    ensures r == Newest(cfg.maxKeys, es)
  {
    r := es;
    while |r| > cfg.maxKeys
      invariant |r| <= |es| && r == es[|es| - |r|..]
      invariant |r| >= cfg.maxKeys || r == es
    {
      r := r[1..];
    }
  }

  // ---------- What the container should hold, from the log of writes alone ----------

  function IsLive<K, V>(cfg: Config, nowS: real): Entry<K, V> -> bool {
    (e: Entry<K, V>) => !Expired(cfg, e, nowS)
  }

  /** Filter the whole container, wherever the expired entries are. */
  function Live<K, V>(cfg: Config, es: seq<Entry<K, V>>, nowS: real): seq<Entry<K, V>> {
    Filter(IsLive(cfg, nowS), es)
  }

  /** The last write of every key in the log, in the order of those last writes. */
  function LatestPerKey<K(==), V>(log: seq<Entry<K, V>>): seq<Entry<K, V>> {
    if log == [] then []
    else Put(LatestPerKey(log[..|log| - 1]), log[|log| - 1])
  }

  function Contents<K(==), V>(cfg: Config, log: seq<Entry<K, V>>, nowS: real): seq<Entry<K, V>> {
    Newest(cfg.maxKeys, Live(cfg, LatestPerKey(log), nowS))
  }

  function NoLater<K, V>(): (Entry<K, V>, Entry<K, V>) -> bool {
    (a: Entry<K, V>, b: Entry<K, V>) => a.stampS <= b.stampS
  }

  function OtherKey<K(==), V>(): (Entry<K, V>, Entry<K, V>) -> bool {
    (a: Entry<K, V>, b: Entry<K, V>) => a.key != b.key
  }

  ghost predicate Sorted<K, V>(es: seq<Entry<K, V>>) {
    Pairwise(NoLater(), es)
  }

  ghost predicate Distinct<K, V>(es: seq<Entry<K, V>>) {
    Pairwise(OtherKey(), es)
  }

  /** A log whose clock has not passed `nowS`. */
  ghost predicate Timely<K, V>(log: seq<Entry<K, V>>, nowS: real) {
    Sorted(log) && forall i :: 0 <= i < |log| ==> log[i].stampS <= nowS
  }

  // ---------- Lookups ----------

  lemma {:induction false} FindWithout<K, V>(es: seq<Entry<K, V>>, gone: K, k: K)
    ensures Find(Without(es, gone), k) == if k == gone then None else Find(es, k)
  {
    if es != [] {
      FindWithout(es[1..], gone, k);
      if es[0].key != gone {
        assert Without(es, gone) == [es[0]] + Without(es[1..], gone);
      } else {
        assert Without(es, gone) == Without(es[1..], gone);
      }
    }
  }

  lemma {:induction false} FindAppend<K, V>(es: seq<Entry<K, V>>, e: Entry<K, V>, k: K)
    ensures Find(es + [e], k) == if Find(es, k).Some? then Find(es, k) else if e.key == k then Some(e) else None
  {
    if es == [] {
      assert es + [e] == [e];
    } else {
      assert (es + [e])[1..] == es[1..] + [e];
      FindAppend(es[1..], e, k);
    }
  }

  lemma FindPut<K, V>(es: seq<Entry<K, V>>, e: Entry<K, V>, k: K)
    ensures Find(Put(es, e), k) == if k == e.key then Some(e) else Find(es, k)
  {
    FindWithout(es, e.key, k);
    FindAppend(Without(es, e.key), e, k);
  }

  lemma {:induction false} DropExpiredIsSuffix<K, V>(cfg: Config, es: seq<Entry<K, V>>, nowS: real)
    ensures |DropExpired(cfg, es, nowS)| <= |es|
    ensures DropExpired(cfg, es, nowS) == es[|es| - |DropExpired(cfg, es, nowS)|..]
  {
    if es != [] && Expired(cfg, es[0], nowS) {
      DropExpiredIsSuffix(cfg, es[1..], nowS);
    }
  }

  /** A sweep hides exactly the expired entries. */
  lemma {:induction false} FindDropExpired<K, V>(cfg: Config, es: seq<Entry<K, V>>, nowS: real, k: K)
    requires Distinct(es) && Sorted(es)
    ensures Find(DropExpired(cfg, es, nowS), k)
         == if Find(es, k).Some? && !Expired(cfg, Find(es, k).value, nowS) then Find(es, k) else None
  {
    if es != [] {
      if Expired(cfg, es[0], nowS) {
        FindDropExpired(cfg, es[1..], nowS, k);
        assert forall i :: 0 < i < |es| ==> OtherKey<K, V>()(es[0], es[i]);
      } else {
        assert forall i :: 0 < i < |es| ==> NoLater<K, V>()(es[0], es[i]);
      }
    }
  }

  // ---------- When the keys fit ----------

  /** The container against an unbounded dictionary of the same writes: every entry the dictionary
      knows is either in the container or has been idle for longer than the limit. */
  ghost predicate Mirrors<K(!new), V>(cfg: Config, es: seq<Entry<K, V>>, store: map<K, Entry<K, V>>, nowS: real) {
    && Distinct(es) && Timely(es, nowS)
    && (forall i :: 0 <= i < |es| ==> es[i].key in store)
    && (forall k :: k in store ==> Mirrored(cfg, es, store[k], k, nowS))
  }

  ghost predicate Mirrored<K, V>(cfg: Config, es: seq<Entry<K, V>>, e: Entry<K, V>, k: K, nowS: real) {
    && e.key == k && e.stampS <= nowS
    && (Find(es, k) == Some(e) || (Find(es, k).None? && Expired(cfg, e, nowS)))
  }

  /** What a lookup should give: the dictionary's entry, unless it has been idle too long. */
  function LookupLive<K, V>(cfg: Config, store: map<K, Entry<K, V>>, k: K, nowS: real): Option<Entry<K, V>> {
    if k in store && !Expired(cfg, store[k], nowS) then Some(store[k]) else None
  }

  /** After a sweep the container answers a lookup as the dictionary with an idle limit does. */
  lemma SweptLookup<K(!new), V>(cfg: Config, es: seq<Entry<K, V>>, store: map<K, Entry<K, V>>, t0: real, t1: real, k: K)
    requires Mirrors(cfg, es, store, t0) && t0 <= t1
    ensures Find(DropExpired(cfg, es, t1), k) == LookupLive(cfg, store, k, t1)
    ensures k in store ==> Mirrored(cfg, DropExpired(cfg, es, t1), store[k], k, t1)
  {
    FindDropExpired(cfg, es, t1, k);
    if k in store {
      assert Mirrored(cfg, es, store[k], k, t0);
    }
  }

  lemma SweepMirrors<K(!new), V>(cfg: Config, es: seq<Entry<K, V>>, store: map<K, Entry<K, V>>, t0: real, t1: real)
    requires Mirrors(cfg, es, store, t0) && t0 <= t1
    ensures Mirrors(cfg, DropExpired(cfg, es, t1), store, t1)
  {
    DropExpiredIsSuffix(cfg, es, t1);
    forall k | k in store
      ensures Mirrored(cfg, DropExpired(cfg, es, t1), store[k], k, t1)
    {
      SweptLookup(cfg, es, store, t0, t1, k);
    }
  }

  lemma MirrorsLater<K(!new), V>(cfg: Config, es: seq<Entry<K, V>>, store: map<K, Entry<K, V>>, t0: real, t1: real)
    requires Mirrors(cfg, es, store, t0) && t0 <= t1
    ensures Mirrors(cfg, es, store, t1)
  {
    assert forall k :: k in store ==> Mirrored(cfg, es, store[k], k, t0) ==> Mirrored(cfg, es, store[k], k, t1);
  }

  /** A write keeps the two in step, and nothing is evicted while the keys fit. */
  lemma PutMirrors<K(!new), V>(cfg: Config, es: seq<Entry<K, V>>, store: map<K, Entry<K, V>>, e: Entry<K, V>)
    requires Mirrors(cfg, es, store, e.stampS) && |store.Keys + {e.key}| <= cfg.maxKeys
    ensures Newest(cfg.maxKeys, Put(es, e)) == Put(es, e)
    ensures Mirrors(cfg, Put(es, e), store[e.key := e], e.stampS)
  {
    var put, store' := Put(es, e), store[e.key := e];
    PutFacts(es, e);
    forall k | k in store'
      ensures Mirrored(cfg, put, store'[k], k, e.stampS)
    {
      FindPut(es, e, k);
      assert k != e.key ==> Mirrored(cfg, es, store[k], k, e.stampS);
    }
    DistinctFits(put, store.Keys + {e.key});
  }

  lemma {:induction false} DistinctFits<K, V>(es: seq<Entry<K, V>>, keys: set<K>)
    requires Distinct(es) && forall i :: 0 <= i < |es| ==> es[i].key in keys
    ensures |es| <= |keys|
  {
    if es != [] {
      var last := es[|es| - 1].key;
      assert forall i :: 0 <= i < |es| - 1 ==> OtherKey<K, V>()(es[i], es[|es| - 1]);
      DistinctFits(es[..|es| - 1], keys - {last});
    }
  }

  // ---------- Exactness ----------

  /** Front-only expiry equals filtering the whole container when stamps are in order. */
  lemma {:induction false} DropExpiredIsFilter<K, V>(cfg: Config, es: seq<Entry<K, V>>, nowS: real)
    requires Sorted(es)
    ensures DropExpired(cfg, es, nowS) == Live(cfg, es, nowS)
  {
    if es != [] {
      if Expired(cfg, es[0], nowS) {
        DropExpiredIsFilter(cfg, es[1..], nowS);
      } else {
        assert forall i :: 0 <= i < |es| ==> es[0].stampS <= es[i].stampS;
        FilterAll(IsLive(cfg, nowS), es);
      }
    }
  }

  lemma {:induction false} LatestFacts<K, V>(log: seq<Entry<K, V>>, nowS: real)
    requires Timely(log, nowS)
    ensures Timely(LatestPerKey(log), nowS) && Distinct(LatestPerKey(log))
  {
    if log != [] {
      var before, last := log[..|log| - 1], log[|log| - 1];
      assert forall i :: 0 <= i < |before| ==> NoLater<K, V>()(log[i], last);
      LatestFacts(before, last.stampS);
      PutFacts(LatestPerKey(before), last);
    }
  }

  lemma PutFacts<K, V>(es: seq<Entry<K, V>>, e: Entry<K, V>)
    requires Timely(es, e.stampS) && Distinct(es)
    ensures Timely(Put(es, e), e.stampS) && Distinct(Put(es, e))
    ensures forall i :: 0 <= i < |Put(es, e)| ==> Put(es, e)[i] == e || Put(es, e)[i] in es
  {
    var kept := Without(es, e.key);
    FilterMembers(NotKey(e.key), es);
    FilterPairwise(NoLater(), NotKey(e.key), es);
    FilterPairwise(OtherKey(), NotKey(e.key), es);
    PairwiseAppend(NoLater(), kept, e);
    PairwiseAppend(OtherKey(), kept, e);
  }

  /** Dropping the oldest entries and dropping the expired ones commute when stamps are in order. */
  lemma NewestOfLive<K, V>(cfg: Config, es: seq<Entry<K, V>>, nowS: real)
    requires Sorted(es)
    ensures Live(cfg, Newest(cfg.maxKeys, es), nowS) == Newest(cfg.maxKeys, Live(cfg, es, nowS))
  {
    FilterMembers(IsLive(cfg, nowS), es);
    if |es| > cfg.maxKeys {
      var cut := |es| - cfg.maxKeys;
      var older, newer := es[..cut], es[cut..];
      assert es == older + newer;
      FilterAppend(IsLive(cfg, nowS), older, newer);
      FilterMembers(IsLive(cfg, nowS), older);
      FilterMembers(IsLive(cfg, nowS), newer);
      if Live(cfg, older, nowS) != [] {
        var e := Live(cfg, older, nowS)[0];
        var i :| 0 <= i < cut && es[i] == e;
        assert forall j :: cut <= j < |es| ==> e.stampS <= es[j].stampS;
        FilterAll(IsLive(cfg, nowS), newer);
      }
    }
  }

  lemma NothingYet<K, V>(cfg: Config, nowS: real)
    ensures Contents<K, V>(cfg, [], nowS) == [] && Timely<K, V>([], nowS)
  {
  }

  /** Sweeping keeps the container exact as time passes. */
  lemma SweepExact<K, V>(cfg: Config, log: seq<Entry<K, V>>, t0: real, t1: real)
    requires Timely(log, t0) && t0 <= t1
    ensures DropExpired(cfg, Contents(cfg, log, t0), t1) == Contents(cfg, log, t1)
  {
    var all := LatestPerKey(log);
    var live := Live(cfg, all, t0);
    LatestFacts(log, t0);
    FilterPairwise(NoLater(), IsLive(cfg, t0), all);
    DropExpiredIsFilter(cfg, Newest(cfg.maxKeys, live), t1);
    NewestOfLive(cfg, live, t1);
    FilterNarrows(IsLive(cfg, t0), IsLive(cfg, t1), all);
  }

  lemma {:induction false} WithoutSize<K, V>(es: seq<Entry<K, V>>, k: K)
    requires Distinct(es)
    ensures |Without(es, k)| >= |es| - 1
  {
    if es != [] {
      if es[0].key == k {
        assert forall i :: 0 < i < |es| ==> es[0].key != es[i].key;
        FilterAll(NotKey(k), es[1..]);
      } else {
        WithoutSize(es[1..], k);
      }
    }
  }

  lemma NewestAppend<T>(n: nat, a: seq<T>, b: seq<T>)
    requires |b| >= n
    ensures Newest(n, a + b) == Newest(n, b)
  {
  }

  lemma NewestPut<K, V>(n: nat, es: seq<Entry<K, V>>, e: Entry<K, V>)
    requires Distinct(es)
    ensures Newest(n, Put(Newest(n, es), e)) == Newest(n, Put(es, e))
  {
    if |es| > n {
      var older, newer := es[..|es| - n], es[|es| - n..];
      assert es == older + newer;
      FilterAppend(NotKey(e.key), older, newer);
      WithoutSize(newer, e.key);
      assert Put(es, e) == Without(older, e.key) + Put(newer, e);
      hide Without;
      NewestAppend(n, Without(older, e.key), Put(newer, e));
    }
  }

  /** A write keeps the container exact, and the key just written is always in it. */
  lemma WriteExact<K, V>(cfg: Config, log: seq<Entry<K, V>>, nowS: real, e: Entry<K, V>)
    requires cfg.Valid() && Timely(log, nowS) && e.stampS == nowS
    ensures Newest(cfg.maxKeys, Put(Contents(cfg, log, nowS), e)) == Contents(cfg, log + [e], nowS)
    ensures e in Contents(cfg, log + [e], nowS) && Timely(log + [e], nowS)
  {
    var all := LatestPerKey(log);
    var live := Live(cfg, all, nowS);
    LatestFacts(log, nowS);
    FilterPairwise(OtherKey(), IsLive(cfg, nowS), all);
    PairwiseAppend(NoLater(), log, e);
    assert (log + [e])[..|log|] == log;
    FilterAppend(IsLive(cfg, nowS), Without(all, e.key), [e]);
    FilterSwap(IsLive(cfg, nowS), NotKey(e.key), all);
    NewestPut(cfg.maxKeys, live, e);
    assert Live(cfg, LatestPerKey(log + [e]), nowS) == Put(live, e);
    assert Put(live, e)[|Put(live, e)| - 1] == e;
  }

  // ---------- The same, read off the log by position ----------

  ghost predicate IsLastUse<K, V>(log: seq<Entry<K, V>>, i: nat) {
    i < |log| && forall j :: i < j < |log| ==> log[j].key != log[i].key
  }

  ghost function KeysFrom<K, V>(log: seq<Entry<K, V>>, i: nat): set<K> {
    set j: nat | i <= j < |log| :: log[j].key
  }

  /** A write is still held exactly when its key was not written since, it is not too old, and fewer
      than `maxKeys` other keys were written since. */
  ghost predicate Retained<K, V>(cfg: Config, log: seq<Entry<K, V>>, nowS: real, i: nat) {
    && IsLastUse(log, i)
    && !Expired(cfg, log[i], nowS)
    && |KeysFrom(log, i + 1)| < cfg.maxKeys
  }

  /** The retained writes at positions `i` and up, in log order. */
  ghost function RetainedFrom<K, V>(cfg: Config, log: seq<Entry<K, V>>, nowS: real, i: nat): seq<Entry<K, V>>
    decreases |log| - i
  {
    if i >= |log| then []
    else (if Retained(cfg, log, nowS, i) then [log[i]] else []) + RetainedFrom(cfg, log, nowS, i + 1)
  }

  ghost function LastWritesFrom<K, V>(log: seq<Entry<K, V>>, i: nat): seq<Entry<K, V>>
    decreases |log| - i
  {
    if i >= |log| then []
    else (if IsLastUse(log, i) then [log[i]] else []) + LastWritesFrom(log, i + 1)
  }

  lemma {:induction false} LastWritesExtend<K, V>(log: seq<Entry<K, V>>, e: Entry<K, V>, i: nat)
    requires i <= |log|
    ensures LastWritesFrom(log + [e], i) == Without(LastWritesFrom(log, i), e.key) + [e]
    decreases |log| - i
  {
    var log' := log + [e];
    if i == |log| {
      assert IsLastUse(log', i) && LastWritesFrom(log', i + 1) == [];
    } else {
      LastWritesExtend(log, e, i + 1);
      assert forall j :: 0 <= j < |log| ==> log'[j] == log[j];
      assert IsLastUse(log', i) <==> IsLastUse(log, i) && log[i].key != e.key by {
        assert log'[|log|] == e;
      }
      FilterAppend(NotKey(e.key), if IsLastUse(log, i) then [log[i]] else [], LastWritesFrom(log, i + 1));
    }
  }

  lemma {:induction false} LatestIsLastWrites<K, V>(log: seq<Entry<K, V>>)
    ensures LatestPerKey(log) == LastWritesFrom(log, 0)
  {
    if log != [] {
      var before, last := log[..|log| - 1], log[|log| - 1];
      LatestIsLastWrites(before);
      assert log == before + [last];
      LastWritesExtend(before, last, 0);
    }
  }

  lemma {:induction false} LastWritesCount<K, V>(log: seq<Entry<K, V>>, i: nat)
    ensures |LastWritesFrom(log, i)| == |KeysFrom(log, i)|
    decreases |log| - i
  {
    if i >= |log| {
      assert KeysFrom(log, i) == {};
    } else {
      LastWritesCount(log, i + 1);
      assert KeysFrom(log, i) == {log[i].key} + KeysFrom(log, i + 1);
      if !IsLastUse(log, i) {
        var j: nat :| i < j < |log| && log[j].key == log[i].key;
        assert log[i].key in KeysFrom(log, i + 1);
        assert KeysFrom(log, i) == KeysFrom(log, i + 1);
      } else {
        assert log[i].key !in KeysFrom(log, i + 1);
      }
    }
  }

  lemma {:induction false} RetainedIsNewestLive<K, V>(cfg: Config, log: seq<Entry<K, V>>, nowS: real, i: nat)
    requires Sorted(log)
    ensures RetainedFrom(cfg, log, nowS, i) == Newest(cfg.maxKeys, Live(cfg, LastWritesFrom(log, i), nowS))
    decreases |log| - i
  {
    if i < |log| {
      RetainedIsNewestLive(cfg, log, nowS, i + 1);
      if IsLastUse(log, i) {
        LastWritesCount(log, i + 1);
        LiveCons(cfg, log, nowS, i);
        NewestCons(cfg.maxKeys, log[i], Live(cfg, LastWritesFrom(log, i + 1), nowS));
      } else {
        assert LastWritesFrom(log, i) == LastWritesFrom(log, i + 1);
      }
    }
  }

  /** A last write that is still live has only live ones after it. */
  lemma LiveCons<K, V>(cfg: Config, log: seq<Entry<K, V>>, nowS: real, i: nat)
    requires Sorted(log) && IsLastUse(log, i)
    ensures var later := LastWritesFrom(log, i + 1);
            Live(cfg, LastWritesFrom(log, i), nowS)
            == if Expired(cfg, log[i], nowS) then Live(cfg, later, nowS) else [log[i]] + Live(cfg, later, nowS)
    ensures !Expired(cfg, log[i], nowS) ==>
              Live(cfg, LastWritesFrom(log, i + 1), nowS) == LastWritesFrom(log, i + 1)
  {
    var later := LastWritesFrom(log, i + 1);
    assert LastWritesFrom(log, i) == [log[i]] + later;
    FilterAppend(IsLive(cfg, nowS), [log[i]], later);
    if !Expired(cfg, log[i], nowS) {
      assert forall j :: i < j < |log| ==> NoLater<K, V>()(log[i], log[j]);
      LastWritesNoEarlier(log, i + 1, log[i].stampS);
      FilterAll(IsLive(cfg, nowS), later);
    }
  }

  lemma NewestCons<T>(n: nat, x: T, s: seq<T>)
    ensures Newest(n, [x] + s) == if |s| < n then [x] + Newest(n, s) else Newest(n, s)
  {
  }

  lemma {:induction false} LastWritesNoEarlier<K, V>(log: seq<Entry<K, V>>, i: nat, fromS: real)
    requires forall j :: i <= j < |log| ==> fromS <= log[j].stampS
    ensures forall p :: 0 <= p < |LastWritesFrom(log, i)| ==> fromS <= LastWritesFrom(log, i)[p].stampS
    decreases |log| - i
  {
    if i < |log| {
      LastWritesNoEarlier(log, i + 1, fromS);
    }
  }

  /** Exactness: what the container should hold is, in order, the writes of the whole log that are
      still retained. */
  lemma ContentsAreRetained<K, V>(cfg: Config, log: seq<Entry<K, V>>, nowS: real)
    requires Sorted(log)
    ensures Contents(cfg, log, nowS) == RetainedFrom(cfg, log, nowS, 0)
  {
    LatestIsLastWrites(log);
    RetainedIsNewestLive(cfg, log, nowS, 0);
  }
}
