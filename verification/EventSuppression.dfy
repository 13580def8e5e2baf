/** Event suppression: `orchestrator/event_suppression.py`.  Events of one signature are counted in a
    fixed window; past the threshold they are suppressed for a while. */
module EventSuppression {
  import opened Wrappers

  type Signature = string

  datatype Settings = Settings(windowMs: nat, threshold: nat, ttlMs: nat)

  predicate ValidSettings(s: Settings) {
    s.threshold > 0
  }

  datatype Record = Record(
    windowStartMs: int,
    count: int,
    suppressedUntilMs: Option<int>,
    createdAtMs: int,
    updatedAtMs: int,
    expiresAtMs: int)

  // ---------- One event ----------

  /** The stored record that still counts at `nowMs`. */
  function Current(r: Option<Record>, nowMs: int): Option<Record> {
    if r.None? || nowMs >= r.value.expiresAtMs then None
    else if r.value.suppressedUntilMs.Some? && nowMs >= r.value.suppressedUntilMs.value then None
    else r
  }

  /** The record after an event, and whether the event is suppressed. */
  function Observed(s: Settings, r: Option<Record>, nowMs: int): (Record, bool) {
    var existing := Current(r, nowMs);
    if existing.Some? && existing.value.suppressedUntilMs.Some? then
      (existing.value.(count := existing.value.count + 1, updatedAtMs := nowMs), true)
    else
      var reset := existing.None? || nowMs - existing.value.windowStartMs >= s.windowMs;
      var start := if reset then nowMs else existing.value.windowStartMs;
      var count := if reset then 1 else existing.value.count + 1;
      var created := if reset then nowMs else existing.value.createdAtMs;
      var until := if count > s.threshold then Some(nowMs + s.ttlMs) else None;
      var expires := if until.Some? then until.value else start + s.windowMs;
      (Record(start, count, until, created, nowMs, expires), until.Some?)
  }

  function Get(records: map<Signature, Record>, signature: Signature): Option<Record> {
    if signature in records then Some(records[signature]) else None
  }

  class DbEventSuppressor {
    const settings: Settings
    var records: map<Signature, Record>

    constructor (settings: Settings)
      requires ValidSettings(settings)
      ensures this.settings == settings && records == map[]
    {
      this.settings := settings;
      records := map[];
    }

    method Observe(signature: Signature, nowMs: int) returns (suppressed: bool)
      modifies this`records
      ensures var (record, s) := Observed(settings, Get(old(records), signature), nowMs);
              records == old(records)[signature := record] && suppressed == s
    {
      var existing := Get(records, signature);
      if existing.Some? && nowMs >= existing.value.expiresAtMs {
        records := records - {signature};
        existing := None;
      }
      if existing.Some? && existing.value.suppressedUntilMs.Some? {
        if nowMs < existing.value.suppressedUntilMs.value {
          records := records[signature := existing.value.(count := existing.value.count + 1, updatedAtMs := nowMs)];
          return true;
        }
        records := records - {signature};
        existing := None;
      }
      var created, start, count := nowMs, nowMs, 1;
      if existing.Some? {
        if nowMs - existing.value.windowStartMs < settings.windowMs {
          start, count, created := existing.value.windowStartMs, existing.value.count + 1, existing.value.createdAtMs;
        }
      }
      var until, expires := None, start + settings.windowMs;
      if count > settings.threshold {
        until, expires := Some(nowMs + settings.ttlMs), nowMs + settings.ttlMs;
      }
      records := records[signature := Record(start, count, until, created, nowMs, expires)];
      return until.Some?;
    }
  }

  // ---------- Runs of one signature ----------

  /** What every stored record satisfies; `nowMs` is not before the last event. */
  predicate Coherent(s: Settings, r: Option<Record>, nowMs: int) {
    r.Some? ==>
      && r.value.count >= 1 && r.value.windowStartMs <= nowMs
      && match r.value.suppressedUntilMs
         case None => r.value.count <= s.threshold && r.value.expiresAtMs == r.value.windowStartMs + s.windowMs
         case Some(until) => r.value.expiresAtMs == until
  }

  ghost predicate NonDecreasing(times: seq<int>) {
    forall i, j :: 0 <= i < j < |times| ==> times[i] <= times[j]
  }

  function Run(s: Settings, r: Option<Record>, times: seq<int>): Option<Record>
    decreases |times|
  {
    if times == [] then r else Some(Observed(s, Run(s, r, times[..|times| - 1]), times[|times| - 1]).0)
  }

  /** Whether the last event of a run is admitted. */
  predicate AdmitsLast(s: Settings, r: Option<Record>, times: seq<int>)
    requires times != []
  {
    !Observed(s, Run(s, r, times[..|times| - 1]), times[|times| - 1]).1
  }

  function AdmittedCount(s: Settings, r: Option<Record>, times: seq<int>): nat
    decreases |times|
  {
    if times == [] then 0
    else AdmittedCount(s, r, times[..|times| - 1]) + if AdmitsLast(s, r, times) then 1 else 0
  }

  lemma StepCoherent(s: Settings, r: Option<Record>, earlierMs: int, nowMs: int)
    requires ValidSettings(s) && Coherent(s, r, earlierMs) && earlierMs <= nowMs
    ensures Coherent(s, Some(Observed(s, r, nowMs).0), nowMs)
  {
  }

  /** An event is suppressed exactly when suppression is in force, or it is one too many for its window;
      the latter starts suppression for the cooldown. */
  lemma SuppressedExactly(s: Settings, r: Option<Record>, nowMs: int)
    requires ValidSettings(s) && Coherent(s, r, nowMs)
    ensures var (record, suppressed) := Observed(s, r, nowMs);
            var inForce := r.Some? && r.value.suppressedUntilMs.Some? && nowMs < r.value.suppressedUntilMs.value;
            var full := && r.Some? && r.value.suppressedUntilMs.None? && nowMs < r.value.windowStartMs + s.windowMs
                        && r.value.count == s.threshold;
            && (suppressed <==> inForce || full)
            && (full ==> record.suppressedUntilMs == Some(nowMs + s.ttlMs))
            && (inForce ==> record.suppressedUntilMs == r.value.suppressedUntilMs)
            && (!suppressed ==> record.suppressedUntilMs.None?)
  {
  }

  /** Once suppression runs until a time, every event before that time is suppressed and leaves it in
      force; the first event at or after it is admitted and opens a new window. */
  lemma {:induction false} SuppressionLasts(s: Settings, r: Option<Record>, until: int, times: seq<int>, laterMs: int)
    requires ValidSettings(s) && r.Some? && r.value.suppressedUntilMs == Some(until) && r.value.expiresAtMs == until
    requires forall i :: 0 <= i < |times| ==> times[i] < until
    requires until <= laterMs
    ensures AdmittedCount(s, r, times) == 0
    ensures var end := Run(s, r, times);
            && end.Some? && end.value.suppressedUntilMs == Some(until) && end.value.expiresAtMs == until
            && Observed(s, end, laterMs) == (Record(laterMs, 1, None, laterMs, laterMs, laterMs + s.windowMs), false)
    decreases |times|
  {
    if times != [] {
      SuppressionLasts(s, r, until, times[..|times| - 1], laterMs);
      assert times[|times| - 1] < until;
    }
  }

  // ---------- The bound ----------

  function SpanMs(s: Settings): nat {
    if s.windowMs < s.ttlMs then s.windowMs else s.ttlMs
  }

  /** How many events the record can still admit in the span starting at `fromMs`. */
  function Room(s: Settings, r: Option<Record>, fromMs: int): int {
    if r.None? then s.threshold
    else if r.value.suppressedUntilMs.Some? then
      if r.value.suppressedUntilMs.value >= fromMs + SpanMs(s) then 0 else s.threshold
    else if r.value.windowStartMs >= fromMs then s.threshold - r.value.count
    else 2 * s.threshold - r.value.count
  }

  lemma RoomAtMost(s: Settings, r: Option<Record>, fromMs: int, nowMs: int)
    requires ValidSettings(s) && Coherent(s, r, nowMs)
    ensures 0 <= Room(s, r, fromMs) <= 2 * s.threshold - 1
  {
  }

  lemma RoomShrinks(s: Settings, r: Option<Record>, fromMs: int, nowMs: int)
    requires ValidSettings(s) && Coherent(s, r, nowMs) && fromMs <= nowMs < fromMs + SpanMs(s)
    ensures var (record, suppressed) := Observed(s, r, nowMs);
            Room(s, Some(record), fromMs) + (if suppressed then 0 else 1) <= Room(s, r, fromMs)
  {
  }

  lemma {:induction false} RoomCovers(s: Settings, r: Option<Record>, fromMs: int, times: seq<int>)
    requires ValidSettings(s) && NonDecreasing(times) && forall i :: 0 <= i < |times| ==>
              fromMs <= times[i] < fromMs + SpanMs(s)
    requires times != [] ==> Coherent(s, r, times[0])
    ensures AdmittedCount(s, r, times) + Room(s, Run(s, r, times), fromMs) <= Room(s, r, fromMs)
    ensures times != [] ==> Coherent(s, Run(s, r, times), times[|times| - 1])
    decreases |times|
  {
    if times != [] {
      var before, nowMs := times[..|times| - 1], times[|times| - 1];
      RoomCovers(s, r, fromMs, before);
      var mid := Run(s, r, before);
      if before == [] {
        assert mid == r;
        StepCoherent(s, r, nowMs, nowMs);
        RoomShrinks(s, r, fromMs, nowMs);
      } else {
        CoherentLater(s, mid, before[|before| - 1], nowMs);
        StepCoherent(s, mid, nowMs, nowMs);
        RoomShrinks(s, mid, fromMs, nowMs);
      }
    }
  }

  lemma CoherentLater(s: Settings, r: Option<Record>, earlierMs: int, nowMs: int)
    requires Coherent(s, r, earlierMs) && earlierMs <= nowMs
    ensures Coherent(s, r, nowMs)
  {
  }

  lemma {:induction false} RunCoherent(s: Settings, times: seq<int>)
    requires ValidSettings(s) && NonDecreasing(times)
    ensures forall nowMs :: (forall i :: 0 <= i < |times| ==> times[i] <= nowMs) ==>
              Coherent(s, Run(s, None, times), nowMs)
    decreases |times|
  {
    if times != [] {
      var before, last := times[..|times| - 1], times[|times| - 1];
      RunCoherent(s, before);
      assert Coherent(s, Run(s, None, before), last);
      StepCoherent(s, Run(s, None, before), last, last);
      forall nowMs | forall i :: 0 <= i < |times| ==> times[i] <= nowMs
        ensures Coherent(s, Run(s, None, times), nowMs)
      {
        assert times[|times| - 1] <= nowMs;
        CoherentLater(s, Run(s, None, times), last, nowMs);
      }
    }
  }

  lemma {:induction false} RunSplits(s: Settings, r: Option<Record>, before: seq<int>, after: seq<int>)
    ensures Run(s, r, before + after) == Run(s, Run(s, r, before), after)
    ensures AdmittedCount(s, r, before + after)
         == AdmittedCount(s, r, before) + AdmittedCount(s, Run(s, r, before), after)
    decreases |after|
  {
    if after == [] {
      assert before + after == before;
    } else {
      var init, last := after[..|after| - 1], after[|after| - 1];
      assert (before + after)[..|before + after| - 1] == before + init;
      RunSplits(s, r, before, init);
    }
  }

  // ---------- One instant ----------

  /** How many events the record can still admit at the instant `nowMs`. */
  function RoomAt(s: Settings, r: Option<Record>, nowMs: int): int {
    var existing := Current(r, nowMs);
    if existing.None? then s.threshold
    else if existing.value.suppressedUntilMs.Some? then 0
    else if nowMs - existing.value.windowStartMs >= s.windowMs then s.threshold
    else s.threshold - existing.value.count
  }

  /** At one instant at most the threshold is admitted, however the window falls. */
  lemma {:induction false} InstantBound(s: Settings, r: Option<Record>, nowMs: int, times: seq<int>)
    requires ValidSettings(s) && SpanMs(s) > 0 && Coherent(s, r, nowMs)
    requires forall i :: 0 <= i < |times| ==> times[i] == nowMs
    ensures Coherent(s, Run(s, r, times), nowMs)
    ensures AdmittedCount(s, r, times) + RoomAt(s, Run(s, r, times), nowMs) <= RoomAt(s, r, nowMs)
    ensures AdmittedCount(s, r, times) <= s.threshold
    decreases |times|
  {
    if times != [] {
      InstantBound(s, r, nowMs, times[..|times| - 1]);
    }
  }

  // ---------- Every run ----------

  /** The most events that any span can admit. */
  function Best(s: Settings): nat
    requires ValidSettings(s)
  {
    match SpanMs(s)
    case 0 => 0
    case 1 => s.threshold
    case _ => 2 * s.threshold - 1
  }

  ghost predicate Within(s: Settings, before: seq<int>, times: seq<int>, fromMs: int) {
    NonDecreasing(before + times) && forall i :: 0 <= i < |times| ==> fromMs <= times[i] < fromMs + SpanMs(s)
  }

  /** In every run, whatever happened before, fewer than twice the threshold of events are admitted in
      any half-open span of the length of the window or of the cooldown, whichever is shorter; and no
      more than the threshold when the span is a single instant. */
  lemma AdmissionBound(s: Settings, before: seq<int>, times: seq<int>, fromMs: int)
    requires ValidSettings(s) && Within(s, before, times, fromMs)
    ensures AdmittedCount(s, None, before + times) - AdmittedCount(s, None, before) <= Best(s)
  {
    RunSplits(s, None, before, times);
    if times != [] {
      assert forall i :: 0 <= i < |before| ==> (before + times)[i] == before[i];
      assert forall i :: 0 <= i < |times| ==> (before + times)[|before| + i] == times[i];
      RunCoherent(s, before);
      assert forall i :: 0 <= i < |before| ==> before[i] <= times[0];
      var r := Run(s, None, before);
      if SpanMs(s) == 1 {
        InstantBound(s, r, times[0], times);
      } else {
        RoomCovers(s, r, fromMs, times);
        RoomAtMost(s, r, fromMs, times[0]);
        RoomAtMost(s, Run(s, r, times), fromMs, times[|times| - 1]);
      }
    }
  }

  function Together(n: nat, nowMs: int): seq<int> {
    seq(n, _ => nowMs)
  }

  lemma TogetherAt(n: nat, nowMs: int)
    ensures |Together(n, nowMs)| == n && forall i :: 0 <= i < n ==> Together(n, nowMs)[i] == nowMs
  {
  }

  /** A window that has taken `count` events. */
  predicate Holding(s: Settings, r: Option<Record>, startMs: int, count: nat) {
    if count == 0 then r.None?
    else
      && r.Some? && r.value.windowStartMs == startMs && r.value.count == count
      && r.value.suppressedUntilMs.None? && r.value.expiresAtMs == startMs + s.windowMs
  }

  /** Events at one instant fill what is left of a window. */
  lemma {:induction false} WindowFills(s: Settings, r: Option<Record>, startMs: int, count: nat, n: nat, nowMs: int)
    requires startMs <= nowMs < startMs + s.windowMs && count + n <= s.threshold
    requires Holding(s, r, startMs, count) && (count == 0 ==> startMs == nowMs)
    ensures AdmittedCount(s, r, Together(n, nowMs)) == n
    ensures Holding(s, Run(s, r, Together(n, nowMs)), startMs, count + n)
    decreases n
  {
    if n > 0 {
      assert Together(n, nowMs)[..n - 1] == Together(n - 1, nowMs);
      WindowFills(s, r, startMs, count, n - 1, nowMs);
    }
  }

  /** A window that has expired leaves no trace. */
  lemma {:induction false} ExpiredIsNone(
    s: Settings, r: Option<Record>, startMs: int, count: nat, nowMs: int, times: seq<int>)
    requires Holding(s, r, startMs, count) && startMs + s.windowMs <= nowMs && times != [] && times[0] == nowMs
    ensures Run(s, r, times) == Run(s, None, times)
    ensures AdmittedCount(s, r, times) == AdmittedCount(s, None, times)
    decreases |times|
  {
    if |times| > 1 {
      ExpiredIsNone(s, r, startMs, count, nowMs, times[..|times| - 1]);
    }
  }

  /** One event opens a window; one less than the threshold arrive at its last instant; and the
      threshold arrives at the next. */
  function Straddling(s: Settings): seq<int>
    requires ValidSettings(s)
  {
    Together(s.threshold - 1, s.windowMs - 1) + Together(s.threshold, s.windowMs)
  }

  lemma FirstEvent(s: Settings)
    requires ValidSettings(s)
    ensures Run(s, None, [0]) == Some(Record(0, 1, None, 0, 0, s.windowMs))
  {
    assert [0][..0] == [];
  }

  lemma StraddlingAdmitted(s: Settings)
    requires ValidSettings(s) && SpanMs(s) > 1
    ensures AdmittedCount(s, Run(s, None, [0]), Straddling(s)) == 2 * s.threshold - 1
  {
    var t, w := s.threshold, s.windowMs;
    FirstEvent(s);
    assert t > 0 && w > 1 && Holding(s, Run(s, None, [0]), 0, 1) && Holding(s, None, w, 0);
    var early, late := Together(t - 1, w - 1), Together(t, w);
    assert Straddling(s) == early + late;
    TogetherAt(t, w);
    hide *;
    var r0 := Run(s, None, [0]);
    RunSplits(s, r0, early, late);
    WindowFills(s, r0, 0, 1, t - 1, w - 1);
    ExpiredIsNone(s, Run(s, r0, early), 0, t, w, late);
    WindowFills(s, None, w, 0, t, w);
  }

  /** The bound is met for every setting. */
  lemma BoundIsTight(s: Settings) returns (before: seq<int>, times: seq<int>, fromMs: int)
    requires ValidSettings(s)
    ensures Within(s, before, times, fromMs)
    ensures AdmittedCount(s, None, before + times) - AdmittedCount(s, None, before) == Best(s)
  {
    if SpanMs(s) == 0 {
      before, times, fromMs := [], [], 0;
    } else if SpanMs(s) == 1 {
      before, times, fromMs := [], Together(s.threshold, 0), 0;
      WindowFills(s, None, 0, 0, s.threshold, 0);
    } else {
      before, times, fromMs := [0], Straddling(s), s.windowMs - 1;
      StraddlingAdmitted(s);
      assert Within(s, before, times, fromMs);
    }
    RunSplits(s, None, before, times);
    hide Run, AdmittedCount;
  }

  // ---------- Signatures do not interfere ----------

  datatype Event = Event(signature: Signature, nowMs: int)

  function RunAll(s: Settings, records: map<Signature, Record>, events: seq<Event>): map<Signature, Record>
    decreases |events|
  {
    if events == [] then records
    else
      var before, e := RunAll(s, records, events[..|events| - 1]), events[|events| - 1];
      before[e.signature := Observed(s, Get(before, e.signature), e.nowMs).0]
  }

  function TimesOf(signature: Signature, events: seq<Event>): seq<int> {
    if events == [] then []
    else
      TimesOf(signature, events[..|events| - 1])
      + if events[|events| - 1].signature == signature then [events[|events| - 1].nowMs] else []
  }

  /** What is stored for a signature depends on its own events only. */
  lemma {:induction false} SignaturesAreIndependent(
    s: Settings, records: map<Signature, Record>, events: seq<Event>, signature: Signature)
    ensures Get(RunAll(s, records, events), signature) == Run(s, Get(records, signature), TimesOf(signature, events))
    decreases |events|
  {
    if events != [] {
      var before, e := events[..|events| - 1], events[|events| - 1];
      SignaturesAreIndependent(s, records, before, signature);
      if e.signature == signature {
        var times := TimesOf(signature, before);
        assert (times + [e.nowMs])[..|times|] == times;
      } else {
        assert TimesOf(signature, before) + [] == TimesOf(signature, before);
      }
    }
  }
}
