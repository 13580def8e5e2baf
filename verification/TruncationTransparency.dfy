/** When truncation changes nothing. */
module TruncationTransparency {
  import opened Wrappers
  import opened Utf8
  import opened Truncation
  import opened TruncationBounds
  import opened TruncationFit

  /** JSON-like data inside the limits: finite numbers, primitive distinct keys, collections above the
      depth limit and no wider than the item limit. */
  ghost predicate Plain(o: Options, v: Value, depth: int)
    decreases v
  {
    match v
    case Map(entries) => depth < o.maxDepth && |entries| <= o.maxItems && EntriesPlain(o, entries, depth)
    case Seq(_, items) => depth < o.maxDepth && |items| <= o.maxItems && ItemsPlain(o, items, depth)
    case NonFinite => false
    case Other(_) => false
    case _ => true
  }

  ghost predicate EntriesPlain(o: Options, entries: seq<Entry>, depth: int)
    decreases entries
  {
    entries == [] ||
    (&& Primitive(entries[0].key)
     && (assert entries[0].value < entries[0]; Plain(o, entries[0].value, depth + 1))
     && Unkeyed(entries[1..], entries[0].key)
     && EntriesPlain(o, entries[1..], depth))
  }

  ghost predicate ItemsPlain(o: Options, items: seq<Value>, depth: int)
    decreases items
  {
    items == [] || (Plain(o, items[0], depth + 1) && ItemsPlain(o, items[1..], depth))
  }

  ghost predicate Unkeyed(entries: seq<Entry>, key: Value) {
    forall i :: 0 <= i < |entries| ==> entries[i].key != key
  }

  // ---------- The estimate is exact ----------

  lemma {:induction false} PlainEstimate(o: Options, v: Value, depth: int, at: int)
    requires Plain(o, v, depth) && at <= depth
    ensures Estimate(o, v, at) == Payload(v)
    decreases v
  {
    match v {
      case Map(entries) => EntriesEstimate(o, entries, 0, depth, at);
      case Seq(_, items) => ItemsEstimate(o, items, 0, depth, at);
      case _ =>
    }
  }

  lemma {:induction false} EntriesEstimate(o: Options, entries: seq<Entry>, idx: nat, depth: int, at: int)
    requires EntriesPlain(o, entries, depth) && at <= depth && idx + |entries| <= o.maxItems
    ensures EstimateEntries(o, entries, idx, at) == PayloadEntries(entries)
    decreases entries
  {
    hide Estimate, Payload, Plain, Encode;
    if entries != [] {
      assert entries[0].value < entries[0];
      PlainEstimate(o, entries[0].value, depth + 1, at + 1);
      KeySize(o, entries[0].key, at + 1);
      EntriesEstimate(o, entries[1..], idx + 1, depth, at);
    }
  }

  lemma {:induction false} ItemsEstimate(o: Options, items: seq<Value>, idx: nat, depth: int, at: int)
    requires ItemsPlain(o, items, depth) && at <= depth && idx + |items| <= o.maxItems
    ensures EstimateItems(o, items, idx, at) == PayloadItems(items)
    decreases items
  {
    hide Estimate, Payload, Plain, Encode;
    if items != [] {
      PlainEstimate(o, items[0], depth + 1, at + 1);
      ItemsEstimate(o, items[1..], idx + 1, depth, at);
    }
  }

  // ---------- Headroom ----------

  /** The marker's size once for every level of nesting. */
  function Headroom(o: Options, h: nat): nat {
    if h == 0 then 0 else Size(o.marker) + Headroom(o, h - 1)
  }

  lemma {:induction false} HeadroomIsProduct(o: Options, h: nat)
    ensures Headroom(o, h) == Size(o.marker) * h
  {
    if h > 0 {
      HeadroomIsProduct(o, h - 1);
      hide Encode;
      assert Size(o.marker) * h == Size(o.marker) * (h - 1) + Size(o.marker);
    }
  }

  /** `SetKey` of a new key appends. */
  lemma {:induction false} SetNewKey(entries: seq<Entry>, key: Value, value: Value)
    requires Unkeyed(entries, key)
    ensures SetKey(entries, key, value) == entries + [Entry(key, value)]
  {
    if entries != [] {
      assert entries[0].key != key;
      forall i | 0 <= i < |entries[1..]|
        ensures entries[1..][i].key != key
      {
        assert entries[1..][i] == entries[i + 1];
      }
      SetNewKey(entries[1..], key, value);
    }
  }

  // ---------- Nothing is lost ----------

  lemma {:induction false} TakesWholeEntry(
    o: Options, e: Entry, idx: nat, total: nat, remaining: int, depth: nat, h: nat)
    requires Primitive(e.key) && Plain(o, e.value, depth + 1) && Within(e.value, h) && idx < o.maxItems
    requires Payload(e.key) + Payload(e.value) + Size(o.marker) + Headroom(o, h) < remaining
    ensures EntryFate(o, e, idx, total, remaining, depth) == Take(e, Payload(e.key) + Payload(e.value))
    decreases e, 1
  {
    hide Truncate, Estimate, Payload, Plain, Within, Headroom, Encode;
    KeySize(o.(maxDepth := 0, maxItems := 0), e.key, 0);
    var budget := ItemBudget(o, idx, total, remaining) - Payload(e.key);
    Transparent(o, e.value, budget, depth + 1, h);
    PlainEstimate(o, e.value, depth + 1, 0);
    assert OutKey(o, e.key) == e.key;
    assert Entry(e.key, e.value) == e;
  }

  lemma {:induction false} TakesWholeItem(
    o: Options, item: Value, idx: nat, total: nat, remaining: int, depth: nat, h: nat)
    requires Plain(o, item, depth + 1) && Within(item, h) && idx < o.maxItems
    requires Payload(item) + Size(o.marker) + Headroom(o, h) < remaining
    ensures ItemFate(o, item, idx, total, remaining, depth) == Take(item, Payload(item))
    decreases item, 1
  {
    hide Truncate, Estimate, Payload, Plain, Within, Headroom, Encode;
    Transparent(o, item, ItemBudget(o, idx, total, remaining), depth + 1, h);
    PlainEstimate(o, item, depth + 1, 0);
  }

  ghost predicate Apart(a: seq<Entry>, b: seq<Entry>) {
    forall i :: 0 <= i < |b| ==> Unkeyed(a, b[i].key)
  }

  lemma ApartNext(a: seq<Entry>, b: seq<Entry>)
    requires Apart(a, b) && b != [] && Unkeyed(b[1..], b[0].key)
    ensures Apart(a + [b[0]], b[1..]) && Unkeyed(a, b[0].key)
  {
    forall i | 0 <= i < |b[1..]|
      ensures Unkeyed(a + [b[0]], b[1..][i].key)
    {
      assert b[1..][i] == b[i + 1] && Unkeyed(a, b[i + 1].key);
    }
  }

  lemma {:induction false} KeepsEntries(
    o: Options, entries: seq<Entry>, idx: nat, total: nat, result: seq<Entry>, remaining: int, depth: nat, h: nat)
    requires EntriesPlain(o, entries, depth) && EntriesWithin(entries, h) && Apart(result, entries)
    requires idx + |entries| == total <= o.maxItems && |result| == idx
    requires PayloadEntries(entries) + Size(o.marker) + Headroom(o, h) < remaining
    ensures AcceptEntries(o, entries, idx, total, result, remaining, depth)
         == Outcome(result + entries, remaining - PayloadEntries(entries))
    decreases entries, 0
  {
    hide EntryFate, Payload, Plain, Within, Headroom, Encode;
    if entries == [] {
      assert result + entries == result;
    } else {
      var e, rest := entries[0], entries[1..];
      assert e.value < e;
      TakesWholeEntry(o, e, idx, total, remaining, depth, h);
      ApartNext(result, entries);
      SetNewKey(result, e.key, e.value);
      assert Entry(e.key, e.value) == e;
      KeepsEntries(o, rest, idx + 1, total, result + [e], remaining - (Payload(e.key) + Payload(e.value)), depth, h);
      assert (result + [e]) + rest == result + entries;
    }
  }

  lemma {:induction false} KeepsItems(
    o: Options, items: seq<Value>, idx: nat, total: nat, result: seq<Value>, remaining: int, depth: nat, h: nat)
    requires ItemsPlain(o, items, depth) && ItemsWithin(items, h)
    requires idx + |items| == total <= o.maxItems && |result| == idx
    requires PayloadItems(items) + Size(o.marker) + Headroom(o, h) < remaining
    ensures AcceptItems(o, items, idx, total, result, remaining, depth)
         == Outcome(result + items, remaining - PayloadItems(items))
    decreases items, 0
  {
    hide ItemFate, Payload, Plain, Within, Headroom, Encode;
    if items == [] {
      assert result + items == result;
    } else {
      TakesWholeItem(o, items[0], idx, total, remaining, depth, h);
      KeepsItems(o, items[1..], idx + 1, total, result + [items[0]], remaining - Payload(items[0]), depth, h);
      assert (result + [items[0]]) + items[1..] == result + items;
    }
  }

  /** A value inside the limits with room for one marker per level of nesting comes out unchanged, and
      only its own bytes are charged. */
  lemma {:induction false} Transparent(o: Options, v: Value, budget: int, depth: nat, h: nat)
    requires Plain(o, v, depth) && Within(v, h) && Payload(v) + Headroom(o, h) < budget
    ensures Truncate(o, v, budget, depth) == (v, budget - Payload(v))
    decreases v, 0
  {
    hide *;
    if v.Map? {
      TransparentMap(o, v, budget, depth, h);
    } else if v.Seq? {
      TransparentSeq(o, v, budget, depth, h);
    } else {
      TransparentLeaf(o, v, budget, depth, h);
    }
  }

  lemma TransparentLeaf(o: Options, v: Value, budget: int, depth: nat, h: nat)
    requires Plain(o, v, depth) && Payload(v) + Headroom(o, h) < budget && !v.Map? && !v.Seq?
    ensures Truncate(o, v, budget, depth) == (v, budget - Payload(v))
  {
    hide Encode, AcceptEntries, AcceptItems, TruncatedStr, TruncatedBytes;
  }

  lemma {:induction false} TransparentMap(o: Options, v: Value, budget: int, depth: nat, h: nat)
    requires Plain(o, v, depth) && Within(v, h) && Payload(v) + Headroom(o, h) < budget && v.Map?
    ensures Truncate(o, v, budget, depth) == (v, budget - Payload(v))
    decreases v.entries, 1
  {
    hide Truncate, AcceptEntries, Encode, Size, EntriesPlain, EntriesWithin, PayloadEntries;
    MapTruncates(o, v.entries, budget, depth);
    KeepsEntries(o, v.entries, 0, |v.entries|, [], budget, depth, h - 1);
    assert [] + v.entries == v.entries;
  }

  lemma {:induction false} TransparentSeq(o: Options, v: Value, budget: int, depth: nat, h: nat)
    requires Plain(o, v, depth) && Within(v, h) && Payload(v) + Headroom(o, h) < budget && v.Seq?
    ensures Truncate(o, v, budget, depth) == (v, budget - Payload(v))
    decreases v.items, 1
  {
    hide Truncate, AcceptItems, Encode, Size, ItemsPlain, ItemsWithin, PayloadItems;
    SeqTruncates(o, v.isTuple, v.items, budget, depth);
    KeepsItems(o, v.items, 0, |v.items|, [], budget, depth, h - 1);
    assert [] + v.items == v.items;
  }

  /** The same for a whole call. */
  lemma CollectionUnchanged(o: Options, v: Value, maxBytes: int, h: nat)
    requires Plain(o, v, 0) && Within(v, h) && Payload(v) + Size(o.marker) * h < maxBytes
    ensures TruncateCollection(o, v, maxBytes) == Ok(v)
  {
    hide Truncate, Plain, Within, Payload, Headroom, Encode;
    HeadroomIsProduct(o, h);
    Transparent(o, v, maxBytes, 0, h);
  }
}
