/** What truncation keeps: how deep the result nests, and when its bytes are within the budget. */
module TruncationBounds {
  import opened Wrappers
  import opened Utf8
  import opened Truncation

  // ---------- Bytes actually kept ----------

  /** Bytes of keys and leaves, however deep and however many. */
  function Payload(v: Value): nat
    decreases v
  {
    match v
    case Null => 0
    case Scalar(repr) => Size(repr)
    case NonFinite => Size(NONFINITE_FLOAT_REPLACEMENT)
    case Str(text) => Size(text)
    case Bytes(data) => |data|
    case Map(entries) => PayloadEntries(entries)
    case Seq(_, items) => PayloadItems(items)
    case Other(form) => Size(form)
  }

  function PayloadEntries(entries: seq<Entry>): nat
    decreases entries
  {
    if entries == [] then 0
    else
      assert entries[0].key < entries[0] && entries[0].value < entries[0];
      Payload(entries[0].key) + Payload(entries[0].value) + PayloadEntries(entries[1..])
  }

  function PayloadItems(items: seq<Value>): nat
    decreases items
  {
    if items == [] then 0 else Payload(items[0]) + PayloadItems(items[1..])
  }

  function MarkerSize(): nat {
    Size(TRUNCATION_MARKER)
  }

  lemma {:induction false} AsciiSize(s: string)
    requires forall i :: 0 <= i < |s| ==> (s[i] as int) < 0x80
    ensures Size(s) == |s|
  {
    if s != "" {
      AsciiSize(s[1..]);
      assert |EncodeChar(s[0])| == 1;
    }
  }

  lemma MarkerIsElevenBytes()
    ensures MarkerSize() == 11 && Size(NONFINITE_FLOAT_REPLACEMENT) == 18
  {
    hide Encode;
    AsciiSize(TRUNCATION_MARKER);
    AsciiSize(NONFINITE_FLOAT_REPLACEMENT);
  }

  lemma EmptySize()
    ensures Size("") == 0
  {
  }

  /** The estimate of a key does not depend on limits. */
  lemma KeySize(o: Options, key: Value, depth: int)
    requires Primitive(key)
    ensures Estimate(o, key, depth) == Payload(key)
  {
  }

  lemma {:induction false} PayloadSet(entries: seq<Entry>, key: Value, value: Value)
    ensures PayloadEntries(SetKey(entries, key, value)) <= PayloadEntries(entries) + Payload(key) + Payload(value)
  {
    hide Payload;
    if entries == [] {
      PayloadCons(Entry(key, value), []);
    } else if entries[0].key == key {
      PayloadCons(Entry(key, value), entries[1..]);
    } else {
      PayloadSet(entries[1..], key, value);
      PayloadCons(entries[0], SetKey(entries[1..], key, value));
    }
  }

  lemma PayloadCons(e: Entry, rest: seq<Entry>)
    ensures PayloadEntries([e] + rest) == Payload(e.key) + Payload(e.value) + PayloadEntries(rest)
  {
    assert ([e] + rest)[1..] == rest;
    hide Payload;
  }

  lemma {:induction false} PayloadAppend(items: seq<Value>, v: Value)
    ensures PayloadItems(items + [v]) == PayloadItems(items) + Payload(v)
  {
    hide Payload;
    if items == [] {
      assert items + [v] == [v] && [v][1..] == [];
    } else {
      PayloadAppend(items[1..], v);
      assert (items + [v])[1..] == items[1..] + [v];
    }
  }

  /** The marker is cut to what is left, and is never longer than itself. */
  lemma MarkerFits(o: Options, remaining: nat)
    ensures var key := TruncatedStr(o.marker, remaining, o.marker);
            Size(key) <= remaining && Size(key) <= Size(o.marker) && (Size(o.marker) <= remaining ==> key == o.marker)
  {
    TruncatedStrExact(o.marker, remaining, o.marker);
    if Size(o.marker) > remaining {
      FittingIsLongest(o.marker, remaining);
    }
    hide TruncatedStr, Fitting, Encode;
  }

  // ---------- The shape of what comes out ----------

  /** A collection at the depth limit is empty; others hold at most the item limit, and one small entry
      more, no larger than the marker. */
  ghost predicate Shaped(o: Options, v: Value, depth: int)
    decreases v
  {
    match v
    case Map(entries) => entries == [] || (depth < o.maxDepth && ShapedEntries(o, entries, 0, depth))
    case Seq(_, items) => items == [] || (depth < o.maxDepth && ShapedItems(o, items, 0, depth))
    case Other(_) => false
    case _ => true
  }

  ghost predicate ShapedEntries(o: Options, entries: seq<Entry>, idx: nat, depth: int)
    decreases entries
  {
    entries == [] ||
    (&& Primitive(entries[0].key)
     && (assert entries[0].value < entries[0]; Shaped(o, entries[0].value, depth + 1))
     && (idx >= o.maxItems ==> |entries| == 1 && Payload(entries[0].key) + Payload(entries[0].value) <= Size(o.marker))
     && ShapedEntries(o, entries[1..], idx + 1, depth))
  }

  ghost predicate ShapedItems(o: Options, items: seq<Value>, idx: nat, depth: int)
    decreases items
  {
    items == [] ||
    (&& Shaped(o, items[0], depth + 1)
     && (idx >= o.maxItems ==> |items| == 1 && Payload(items[0]) <= Size(o.marker))
     && ShapedItems(o, items[1..], idx + 1, depth))
  }

  /** On such shapes the estimate, which counts eleven bytes for what is past the item limit, never falls
      short of the bytes kept, if the marker is no longer than that. */
  lemma {:induction false} EstimateCovers(o: Options, v: Value, depth: int)
    requires Shaped(o, v, depth) && Size(o.marker) <= MarkerSize()
    ensures Payload(v) <= Estimate(o, v, depth)
    decreases v
  {
    match v {
      case Map(entries) => if entries != [] { EntriesCover(o, entries, 0, depth); }
      case Seq(_, items) => if items != [] { ItemsCover(o, items, 0, depth); }
      case _ =>
    }
  }

  lemma {:induction false} EntriesCover(o: Options, entries: seq<Entry>, idx: nat, depth: int)
    requires ShapedEntries(o, entries, idx, depth) && Size(o.marker) <= MarkerSize()
    ensures PayloadEntries(entries) <= EstimateEntries(o, entries, idx, depth)
    decreases entries
  {
    if entries != [] {
      assert entries[0].value < entries[0];
      EstimateCovers(o, entries[0].value, depth + 1);
      KeySize(o, entries[0].key, depth + 1);
      EntriesCover(o, entries[1..], idx + 1, depth);
      hide Payload, Estimate, Shaped;
      if idx >= o.maxItems {
        assert entries[1..] == [];
      }
    }
  }

  lemma {:induction false} ItemsCover(o: Options, items: seq<Value>, idx: nat, depth: int)
    requires ShapedItems(o, items, idx, depth) && Size(o.marker) <= MarkerSize()
    ensures PayloadItems(items) <= EstimateItems(o, items, idx, depth)
    decreases items
  {
    if items != [] {
      EstimateCovers(o, items[0], depth + 1);
      ItemsCover(o, items[1..], idx + 1, depth);
      hide Payload, Estimate, Shaped;
      if idx >= o.maxItems {
        assert items[1..] == [];
      }
    }
  }

  /** Nearer the surface there is more room. */
  lemma {:induction false} ShapedNearer(o: Options, v: Value, depth: int, nearer: int)
    requires Shaped(o, v, depth) && nearer <= depth
    ensures Shaped(o, v, nearer)
    decreases v
  {
    match v {
      case Map(entries) => if entries != [] { EntriesNearer(o, entries, 0, depth, nearer); }
      case Seq(_, items) => if items != [] { ItemsNearer(o, items, 0, depth, nearer); }
      case _ =>
    }
  }

  lemma {:induction false} EntriesNearer(o: Options, entries: seq<Entry>, idx: nat, depth: int, nearer: int)
    requires ShapedEntries(o, entries, idx, depth) && nearer <= depth
    ensures ShapedEntries(o, entries, idx, nearer)
    decreases entries
  {
    if entries != [] {
      assert entries[0].value < entries[0];
      ShapedNearer(o, entries[0].value, depth + 1, nearer + 1);
      EntriesNearer(o, entries[1..], idx + 1, depth, nearer);
      hide Payload, Shaped;
    }
  }

  lemma {:induction false} ItemsNearer(o: Options, items: seq<Value>, idx: nat, depth: int, nearer: int)
    requires ShapedItems(o, items, idx, depth) && nearer <= depth
    ensures ShapedItems(o, items, idx, nearer)
    decreases items
  {
    if items != [] {
      ShapedNearer(o, items[0], depth + 1, nearer + 1);
      ItemsNearer(o, items[1..], idx + 1, depth, nearer);
      hide Payload, Shaped;
    }
  }

  /** An entry may be set while there is room, and a small one also right at the limit. */
  lemma {:induction false} ShapedSet(o: Options, entries: seq<Entry>, idx: nat, depth: int, key: Value, value: Value)
    requires ShapedEntries(o, entries, idx, depth) && Primitive(key) && Shaped(o, value, depth + 1)
    requires || idx + |entries| < o.maxItems
             || (Payload(key) + Payload(value) <= Size(o.marker) && (entries == [] || idx + |entries| <= o.maxItems))
    ensures ShapedEntries(o, SetKey(entries, key, value), idx, depth)
    decreases entries
  {
    hide Payload, Shaped;
    if entries == [] {
      assert [Entry(key, value)][1..] == [];
    } else if entries[0].key == key {
      assert ([Entry(key, value)] + entries[1..])[1..] == entries[1..];
    } else {
      ShapedSet(o, entries[1..], idx + 1, depth, key, value);
      assert ([entries[0]] + SetKey(entries[1..], key, value))[1..] == SetKey(entries[1..], key, value);
    }
  }

  lemma {:induction false} ShapedAppend(o: Options, items: seq<Value>, idx: nat, depth: int, v: Value)
    requires ShapedItems(o, items, idx, depth) && Shaped(o, v, depth + 1)
    requires || idx + |items| < o.maxItems
             || (Payload(v) <= Size(o.marker) && (items == [] || idx + |items| <= o.maxItems))
    ensures ShapedItems(o, items + [v], idx, depth)
    decreases items
  {
    hide Payload, Shaped;
    if items == [] {
      assert items + [v] == [v] && [v][1..] == [];
    } else {
      ShapedAppend(o, items[1..], idx + 1, depth, v);
      assert (items + [v])[1..] == items[1..] + [v];
    }
  }

  // ---------- The bound ----------

  /** Whatever is nested is charged at least its bytes. */
  predicate Charged(o: Options) {
    Size(o.marker) <= MarkerSize() || o.maxDepth <= 1
  }

  /** Either that, or nothing comes after a nested collection but the marker. */
  predicate Kept(o: Options) {
    Charged(o) || o.maxItems <= 1
  }

  ghost predicate Bounded(o: Options, out: Value, remaining: int, budget: int, depth: int) {
    && Shaped(o, out, depth) && remaining >= 0
    && (Charged(o) ==> Payload(out) + remaining <= budget)
    && (Kept(o) ==> Payload(out) <= budget)
  }

  lemma TextBounded(o: Options, text: string, budget: nat, depth: nat)
    requires Size(text) <= budget
    ensures Bounded(o, Str(text), Left(budget, text), budget, depth) && Bounded(o, Str(text), 0, budget, depth)
  {
  }

  lemma WholeBounded(o: Options, v: Value, budget: nat, depth: nat)
    requires v.Null? || v.Scalar? || v.Str? || v.Bytes?
    requires Payload(v) <= budget
    ensures Bounded(o, v, budget - Payload(v), budget, depth)
  {
  }

  lemma EmptyBounded(o: Options, v: Value, depth: nat)
    ensures Bounded(o, Emptied(v), 0, 0, depth)
  {
    EmptySize();
  }

  lemma LeafBounded(o: Options, v: Value, budget: int, depth: nat)
    requires budget >= 0
    requires budget == 0 || !(v.Map? || v.Seq?) || depth >= o.maxDepth
    ensures Bounded(o, Truncate(o, v, budget, depth).0, Truncate(o, v, budget, depth).1, budget, depth)
  {
    hide Bounded, TruncatedStr, TruncatedBytes, Encode, AcceptEntries, AcceptItems, Left;
    if budget == 0 {
      EmptyBounded(o, v, depth);
    } else {
      MarkerFits(o, budget);
      TextBounded(o, TruncatedStr(o.marker, budget, o.marker), budget, depth);
      match v {
        case Null => WholeBounded(o, v, budget, depth);
        case Scalar(repr) => if Size(repr) <= budget { WholeBounded(o, v, budget, depth); }
        case NonFinite =>
          TruncatedStrExact(NONFINITE_FLOAT_REPLACEMENT, budget, o.marker);
          TextBounded(o, TruncatedStr(NONFINITE_FLOAT_REPLACEMENT, budget, o.marker), budget, depth);
        case Str(text) =>
          TruncatedStrExact(text, budget, o.marker);
          TextBounded(o, TruncatedStr(text, budget, o.marker), budget, depth);
          if Size(text) <= budget {
            WholeBounded(o, v, budget, depth);
          }
        case Bytes(data) =>
          var kept := if |data| <= budget then data else TruncatedBytes(data, budget, Encode(o.marker));
          WholeBounded(o, Bytes(kept), budget, depth);
        case Other(form) =>
          TruncatedStrExact(form, budget, o.marker);
          TextBounded(o, TruncatedStr(form, budget, o.marker), budget, depth);
        case _ =>
      }
    }
  }

  /** What the loop has taken is paid for; `none` says that it has taken nothing.  With at most one item,
      room for the marker was kept. */
  ghost predicate Paid(o: Options, payload: nat, none: bool, idx: nat, total: nat, remaining: int, budget: int) {
    && remaining >= 0
    && (Charged(o) ==> payload + remaining <= budget)
    && (none ==> payload == 0 && remaining <= budget)
    && (o.maxItems <= 1 && !none ==> payload + (if idx < total then Size(o.marker) else 0) <= budget)
  }

  ghost predicate EntriesPaid(
    o: Options, result: seq<Entry>, idx: nat, total: nat, remaining: int, budget: int, depth: int)
  {
    && ShapedEntries(o, result, 0, depth) && |result| <= idx && (result == [] || idx <= o.maxItems)
    && Paid(o, PayloadEntries(result), result == [], idx, total, remaining, budget)
  }

  ghost predicate ItemsPaid(
    o: Options, result: seq<Value>, idx: nat, total: nat, remaining: int, budget: int, depth: int)
  {
    && ShapedItems(o, result, 0, depth) && |result| <= idx && (result == [] || idx <= o.maxItems)
    && Paid(o, PayloadItems(result), result == [], idx, total, remaining, budget)
  }

  /** The result of a loop. */
  ghost predicate EntriesDone(o: Options, result: seq<Entry>, remaining: int, budget: int, depth: int) {
    && ShapedEntries(o, result, 0, depth) && remaining >= 0
    && (Charged(o) ==> PayloadEntries(result) + remaining <= budget)
    && (Kept(o) ==> PayloadEntries(result) <= budget)
  }

  ghost predicate ItemsDone(o: Options, result: seq<Value>, remaining: int, budget: int, depth: int) {
    && ShapedItems(o, result, 0, depth) && remaining >= 0
    && (Charged(o) ==> PayloadItems(result) + remaining <= budget)
    && (Kept(o) ==> PayloadItems(result) <= budget)
  }

  lemma MarkEntryBounded(
    o: Options, result: seq<Entry>, idx: nat, total: nat, remaining: int, budget: int, depth: nat)
    requires EntriesPaid(o, result, idx, total, remaining, budget, depth)
    requires idx < total || result == [] || o.maxItems > 1
    ensures EntriesDone(o, MarkEntry(o, result, remaining), 0, budget, depth)
  {
    hide TruncatedStr, Encode, ShapedEntries, PayloadEntries, Payload, SetKey;
    if remaining > 0 {
      MarkerFits(o, remaining);
      var key := TruncatedStr(o.marker, remaining, o.marker);
      TextPayload(key);
      PayloadSet(result, Str(key), Str(""));
      ShapedText(o, "", depth + 1);
      ShapedSet(o, result, 0, depth, Str(key), Str(""));
    }
  }

  lemma TextPayload(text: string)
    ensures Payload(Str(text)) == Size(text) && Payload(Str("")) == 0
  {
    EmptySize();
  }

  lemma ShapedText(o: Options, text: string, depth: int)
    ensures Shaped(o, Str(text), depth)
  {
  }

  lemma MarkItemBounded(
    o: Options, result: seq<Value>, idx: nat, total: nat, remaining: int, budget: int, depth: nat)
    requires ItemsPaid(o, result, idx, total, remaining, budget, depth)
    requires idx < total || result == [] || o.maxItems > 1
    ensures ItemsDone(o, MarkItem(o, result, remaining), 0, budget, depth)
  {
    hide TruncatedStr, Encode, ShapedItems, PayloadItems, Payload;
    if remaining > 0 {
      MarkerFits(o, remaining);
      var text := TruncatedStr(o.marker, remaining, o.marker);
      TextPayload(text);
      PayloadAppend(result, Str(text));
      ShapedText(o, text, depth + 1);
      ShapedAppend(o, result, 0, depth, Str(text));
    }
  }

  /** What a taken entry is. */
  lemma EntryFateTake(o: Options, e: Entry, idx: nat, total: nat, remaining: int, depth: int)
    requires EntryFate(o, e, idx, total, remaining, depth).Take?
    ensures var fate, key := EntryFate(o, e, idx, total, remaining, depth), OutKey(o, e.key);
            var budget := ItemBudget(o, idx, total, remaining) - Payload(key);
            && idx < o.maxItems && budget >= 0
            && fate.item == Entry(key, Truncate(o, e.value, budget, depth + 1).0)
            && fate.size == Payload(key) + Estimate(o, fate.item.value, 0) <= ItemBudget(o, idx, total, remaining)
  {
    KeySize(o.(maxDepth := 0, maxItems := 0), OutKey(o, e.key), 0);
    hide Truncate, Estimate, Payload, OutKey, Encode;
  }

  lemma ItemBudgetWithin(o: Options, idx: nat, total: nat, remaining: int)
    ensures ItemBudget(o, idx, total, remaining) <= remaining
    ensures idx + 1 < total ==> ItemBudget(o, idx, total, remaining) == remaining - Size(o.marker)
  {
  }

  /** The estimate that is charged covers the bytes. */
  lemma ChargeCovers(o: Options, out: Value, depth: nat)
    requires Charged(o) && Shaped(o, out, depth + 1)
    ensures Payload(out) <= Estimate(o, out, 0)
  {
    hide Payload, Estimate, Shaped, Encode;
    if Size(o.marker) <= MarkerSize() {
      ShapedNearer(o, out, depth + 1, 0);
      EstimateCovers(o, out, 0);
    } else {
      EmptyCovers(o, out, depth + 1);
    }
  }

  lemma EmptyCovers(o: Options, out: Value, depth: nat)
    requires Shaped(o, out, depth) && depth >= o.maxDepth
    ensures Payload(out) <= Estimate(o, out, 0)
  {
    hide Encode, EstimateEntries, EstimateItems;
  }

  /** A taken entry is charged at least its bytes, or takes no more than its own budget. */
  ghost predicate Taken<T>(o: Options, payload: nat, fate: Fate<T>, idx: nat, total: nat, remaining: int) {
    && fate.Take? && idx < o.maxItems && 0 <= fate.size <= ItemBudget(o, idx, total, remaining)
    && (Charged(o) ==> payload <= fate.size)
    && (Kept(o) ==> payload <= ItemBudget(o, idx, total, remaining))
  }

  lemma {:induction false} TakenEntryPaid(o: Options, e: Entry, idx: nat, total: nat, remaining: int, depth: nat)
    requires EntryFate(o, e, idx, total, remaining, depth).Take?
    ensures var fate := EntryFate(o, e, idx, total, remaining, depth);
            && Primitive(fate.item.key) && Shaped(o, fate.item.value, depth + 1)
            && Taken(o, Payload(fate.item.key) + Payload(fate.item.value), fate, idx, total, remaining)
    decreases e, 1
  {
    hide EntryFate, Truncate, Estimate, Payload, Shaped, ItemBudget, Encode, OutKey, Charged, Kept;
    var fate := EntryFate(o, e, idx, total, remaining, depth);
    EntryFateTake(o, e, idx, total, remaining, depth);
    TruncateBounded(o, e.value, ItemBudget(o, idx, total, remaining) - Payload(OutKey(o, e.key)), depth + 1);
    if Charged(o) {
      ChargeCovers(o, fate.item.value, depth);
    }
  }

  lemma {:induction false} TakenItemPaid(o: Options, item: Value, idx: nat, total: nat, remaining: int, depth: nat)
    requires ItemFate(o, item, idx, total, remaining, depth).Take?
    ensures var fate := ItemFate(o, item, idx, total, remaining, depth);
            Shaped(o, fate.item, depth + 1) && Taken(o, Payload(fate.item), fate, idx, total, remaining)
    decreases item, 1
  {
    hide Truncate, Estimate, Payload, Shaped, ItemBudget, Encode, Charged, Kept;
    var fate := ItemFate(o, item, idx, total, remaining, depth);
    TruncateBounded(o, item, ItemBudget(o, idx, total, remaining), depth + 1);
    if Charged(o) {
      ChargeCovers(o, fate.item, depth);
    }
  }

  lemma PaidNext<T>(
    o: Options, payload: nat, none: bool, idx: nat, total: nat, remaining: int, budget: int,
    fate: Fate<T>, more: nat, payload': nat)
    requires Paid(o, payload, none, idx, total, remaining, budget) && (none || 0 < idx) && idx < total
    requires Taken(o, more, fate, idx, total, remaining) && payload' <= payload + more
    ensures Paid(o, payload', false, idx + 1, total, remaining - fate.size, budget)
  {
    hide Encode;
  }

  lemma EntriesPaidNext(
    o: Options, result: seq<Entry>, idx: nat, total: nat, remaining: int, budget: int, depth: nat, fate: Fate<Entry>)
    requires EntriesPaid(o, result, idx, total, remaining, budget, depth) && idx < total
    requires fate.Take? && Primitive(fate.item.key) && Shaped(o, fate.item.value, depth + 1)
    requires Taken(o, Payload(fate.item.key) + Payload(fate.item.value), fate, idx, total, remaining)
    ensures EntriesPaid(
              o, SetKey(result, fate.item.key, fate.item.value), idx + 1, total, remaining - fate.size, budget, depth)
  {
    hide Payload, PayloadEntries, Shaped, ShapedEntries, Paid, SetKey, ItemBudget;
    var e := fate.item;
    ShapedSet(o, result, 0, depth, e.key, e.value);
    PayloadSet(result, e.key, e.value);
    SetKeyLength(result, e.key, e.value);
    PaidNext(o, PayloadEntries(result), result == [], idx, total, remaining, budget, fate,
             Payload(e.key) + Payload(e.value), PayloadEntries(SetKey(result, e.key, e.value)));
  }

  lemma {:induction false} SetKeyLength(entries: seq<Entry>, key: Value, value: Value)
    ensures |entries| <= |SetKey(entries, key, value)| <= |entries| + 1 && SetKey(entries, key, value) != []
  {
    if entries != [] {
      SetKeyLength(entries[1..], key, value);
    }
  }

  lemma ItemsPaidNext(
    o: Options, result: seq<Value>, idx: nat, total: nat, remaining: int, budget: int, depth: nat, fate: Fate<Value>)
    requires ItemsPaid(o, result, idx, total, remaining, budget, depth) && idx < total
    requires fate.Take? && Shaped(o, fate.item, depth + 1)
    requires Taken(o, Payload(fate.item), fate, idx, total, remaining)
    ensures ItemsPaid(o, result + [fate.item], idx + 1, total, remaining - fate.size, budget, depth)
  {
    hide Payload, PayloadItems, Shaped, ShapedItems, Paid, ItemBudget;
    ShapedAppend(o, result, 0, depth, fate.item);
    PayloadAppend(result, fate.item);
    PaidNext(o, PayloadItems(result), result == [], idx, total, remaining, budget, fate,
             Payload(fate.item), PayloadItems(result + [fate.item]));
  }

  lemma FinishEntriesBounded(
    o: Options, result: seq<Entry>, idx: nat, total: nat, remaining: int, budget: int, depth: nat)
    requires EntriesPaid(o, result, idx, total, remaining, budget, depth) && idx <= total
    ensures var a := FinishEntries(o, total, result, remaining); EntriesDone(o, a.result, a.remaining, budget, depth)
  {
    hide ShapedEntries, PayloadEntries, MarkEntry, Encode;
    if |result| < total && remaining > 0 {
      MarkEntryBounded(o, result, idx, total, remaining, budget, depth);
    }
  }

  lemma FinishItemsBounded(
    o: Options, result: seq<Value>, idx: nat, total: nat, remaining: int, budget: int, depth: nat)
    requires ItemsPaid(o, result, idx, total, remaining, budget, depth) && idx <= total
    ensures var a := FinishItems(o, total, result, remaining); ItemsDone(o, a.result, a.remaining, budget, depth)
  {
    hide ShapedItems, PayloadItems, MarkItem, Encode;
    if |result| < total && remaining > 0 {
      MarkItemBounded(o, result, idx, total, remaining, budget, depth);
    }
  }

  lemma {:induction false} EntriesBounded(
    o: Options, entries: seq<Entry>, idx: nat, total: nat, result: seq<Entry>, remaining: int, budget: int, depth: nat)
    requires EntriesPaid(o, result, idx, total, remaining, budget, depth) && idx + |entries| == total
    ensures var a := AcceptEntries(o, entries, idx, total, result, remaining, depth);
            EntriesDone(o, a.result, a.remaining, budget, depth)
    decreases entries, 0
  {
    hide EntryFate, MarkEntry, FinishEntries, EntriesPaid, EntriesDone, Taken, Payload, Shaped, Encode;
    if entries == [] {
      FinishEntriesBounded(o, result, idx, total, remaining, budget, depth);
    } else {
      assert entries[0].value < entries[0];
      var fate := EntryFate(o, entries[0], idx, total, remaining, depth);
      match fate {
        case Cap => MarkEntryBounded(o, result, idx, total, remaining, budget, depth);
        case Stop => FinishEntriesBounded(o, result, idx, total, remaining, budget, depth);
        case Take(e, size) =>
          TakenEntryPaid(o, entries[0], idx, total, remaining, depth);
          EntriesPaidNext(o, result, idx, total, remaining, budget, depth, fate);
          EntriesBounded(
            o, entries[1..], idx + 1, total, SetKey(result, e.key, e.value), remaining - size, budget, depth);
      }
    }
  }

  lemma {:induction false} ItemsBounded(
    o: Options, items: seq<Value>, idx: nat, total: nat, result: seq<Value>, remaining: int, budget: int, depth: nat)
    requires ItemsPaid(o, result, idx, total, remaining, budget, depth) && idx + |items| == total
    ensures var a := AcceptItems(o, items, idx, total, result, remaining, depth);
            ItemsDone(o, a.result, a.remaining, budget, depth)
    decreases items, 0
  {
    hide ItemFate, MarkItem, FinishItems, ItemsPaid, ItemsDone, Taken, Payload, Shaped, Encode;
    if items == [] {
      FinishItemsBounded(o, result, idx, total, remaining, budget, depth);
    } else {
      var fate := ItemFate(o, items[0], idx, total, remaining, depth);
      match fate {
        case Cap => MarkItemBounded(o, result, idx, total, remaining, budget, depth);
        case Stop => FinishItemsBounded(o, result, idx, total, remaining, budget, depth);
        case Take(item, size) =>
          TakenItemPaid(o, items[0], idx, total, remaining, depth);
          ItemsPaidNext(o, result, idx, total, remaining, budget, depth, fate);
          ItemsBounded(o, items[1..], idx + 1, total, result + [item], remaining - size, budget, depth);
      }
    }
  }

  lemma MapTruncates(o: Options, entries: seq<Entry>, budget: int, depth: nat)
    requires budget > 0 && depth < o.maxDepth
    ensures var a := AcceptEntries(o, entries, 0, |entries|, [], budget, depth);
            Truncate(o, Map(entries), budget, depth) == (Map(a.result), a.remaining)
  {
    hide AcceptEntries;
  }

  lemma SeqTruncates(o: Options, isTuple: bool, items: seq<Value>, budget: int, depth: nat)
    requires budget > 0 && depth < o.maxDepth
    ensures var a := AcceptItems(o, items, 0, |items|, [], budget, depth);
            Truncate(o, Seq(isTuple, items), budget, depth) == (Seq(isTuple, a.result), a.remaining)
  {
    hide AcceptItems;
  }

  lemma NothingPaid(o: Options, total: nat, budget: int, depth: nat)
    requires budget >= 0
    ensures EntriesPaid(o, [], 0, total, budget, budget, depth) && ItemsPaid(o, [], 0, total, budget, budget, depth)
  {
  }

  lemma DoneIsBounded(o: Options, a: Outcome<Entry>, budget: int, depth: nat)
    requires EntriesDone(o, a.result, a.remaining, budget, depth) && depth < o.maxDepth
    ensures Bounded(o, Map(a.result), a.remaining, budget, depth)
  {
    hide ShapedEntries, PayloadEntries, Encode;
  }

  lemma ItemsDoneIsBounded(o: Options, isTuple: bool, a: Outcome<Value>, budget: int, depth: nat)
    requires ItemsDone(o, a.result, a.remaining, budget, depth) && depth < o.maxDepth
    ensures Bounded(o, Seq(isTuple, a.result), a.remaining, budget, depth)
  {
    hide ShapedItems, PayloadItems, Encode;
  }

  /** For every marker and all limits, what comes out is well shaped.  Its bytes and the budget left are
      within the budget when what is nested is charged at least its bytes, and its bytes alone also when
      collections hold at most one item. */
  lemma {:induction false} TruncateBounded(o: Options, v: Value, budget: int, depth: nat)
    requires budget >= 0
    ensures Bounded(o, Truncate(o, v, budget, depth).0, Truncate(o, v, budget, depth).1, budget, depth)
    decreases v, 0
  {
    hide *;
    if budget > 0 && v.Map? && depth < o.maxDepth {
      NothingPaid(o, |v.entries|, budget, depth);
      EntriesBounded(o, v.entries, 0, |v.entries|, [], budget, budget, depth);
      MapTruncates(o, v.entries, budget, depth);
      DoneIsBounded(o, AcceptEntries(o, v.entries, 0, |v.entries|, [], budget, depth), budget, depth);
    } else if budget > 0 && v.Seq? && depth < o.maxDepth {
      NothingPaid(o, |v.items|, budget, depth);
      ItemsBounded(o, v.items, 0, |v.items|, [], budget, budget, depth);
      SeqTruncates(o, v.isTuple, v.items, budget, depth);
      ItemsDoneIsBounded(o, v.isTuple, AcceptItems(o, v.items, 0, |v.items|, [], budget, depth), budget, depth);
    } else {
      LeafBounded(o, v, budget, depth);
    }
  }

  /** Collections nest at most `h` deep, not counting empty ones. */
  ghost predicate Nested(v: Value, h: int)
    decreases v
  {
    match v
    case Map(entries) => entries == [] || (h > 0 && EntriesNested(entries, h - 1))
    case Seq(_, items) => items == [] || (h > 0 && ItemsNested(items, h - 1))
    case _ => true
  }

  ghost predicate EntriesNested(entries: seq<Entry>, h: int)
    decreases entries
  {
    entries == [] ||
    ((assert entries[0].value < entries[0]; Nested(entries[0].value, h)) && EntriesNested(entries[1..], h))
  }

  ghost predicate ItemsNested(items: seq<Value>, h: int)
    decreases items
  {
    items == [] || (Nested(items[0], h) && ItemsNested(items[1..], h))
  }

  lemma {:induction false} ShapedIsNested(o: Options, v: Value, depth: int)
    requires Shaped(o, v, depth)
    ensures Nested(v, o.maxDepth - depth)
    decreases v
  {
    match v {
      case Map(entries) => if entries != [] { EntriesAreNested(o, entries, 0, depth); }
      case Seq(_, items) => if items != [] { ItemsAreNested(o, items, 0, depth); }
      case _ =>
    }
  }

  lemma {:induction false} EntriesAreNested(o: Options, entries: seq<Entry>, idx: nat, depth: int)
    requires ShapedEntries(o, entries, idx, depth)
    ensures EntriesNested(entries, o.maxDepth - depth - 1)
    decreases entries
  {
    hide Payload;
    if entries != [] {
      assert entries[0].value < entries[0];
      ShapedIsNested(o, entries[0].value, depth + 1);
      EntriesAreNested(o, entries[1..], idx + 1, depth);
    }
  }

  lemma {:induction false} ItemsAreNested(o: Options, items: seq<Value>, idx: nat, depth: int)
    requires ShapedItems(o, items, idx, depth)
    ensures ItemsNested(items, o.maxDepth - depth - 1)
    decreases items
  {
    hide Payload;
    if items != [] {
      ShapedIsNested(o, items[0], depth + 1);
      ItemsAreNested(o, items[1..], idx + 1, depth);
    }
  }

  // ---------- The promise ----------

  /** Every value, under every budget, comes out with no more bytes than the budget. */
  ghost predicate BytesPromised(o: Options) {
    forall v, budget :: budget >= 0 ==> PayloadAfter(o, v, budget) <= budget
  }

  ghost function PayloadAfter(o: Options, v: Value, budget: int): nat {
    Payload(Truncate(o, v, budget, 0).0)
  }

  /** `truncate_collection` for every marker and all limits: only a negative budget is refused, and what it
      returns nests at most to the depth limit, not counting empty collections; with `Kept` limits the
      bytes it keeps are within the budget. */
  lemma CollectionWithinBudget(o: Options, v: Value, maxBytes: int)
    ensures var r := TruncateCollection(o, v, maxBytes);
            && (r.Err? <==> maxBytes < 0)
            && (r.Ok? ==> Nested(r.value, o.maxDepth) && (Kept(o) ==> Payload(r.value) <= maxBytes))
  {
    hide Truncate, Payload, Shaped, Nested, Kept, Charged;
    if maxBytes >= 0 {
      TruncateBounded(o, v, maxBytes, 0);
      ShapedIsNested(o, Truncate(o, v, maxBytes, 0).0, 0);
    }
  }

  function Nulls(n: nat): seq<Value> {
    seq(n, _ => Null)
  }

  lemma NullsTail(n: nat, rest: seq<Value>)
    requires n > 0
    ensures (Nulls(n) + rest)[0] == Null && (Nulls(n) + rest)[1..] == Nulls(n - 1) + rest
  {
  }

  /** Nulls cost nothing. */
  lemma {:induction false} NullsPass(
    o: Options, n: nat, rest: seq<Value>, idx: nat, total: nat, result: seq<Value>, remaining: int, depth: nat)
    requires idx + n <= o.maxItems && remaining > Size(o.marker)
    ensures AcceptItems(o, Nulls(n) + rest, idx, total, result, remaining, depth)
         == AcceptItems(o, rest, idx + n, total, result + Nulls(n), remaining, depth)
    decreases n
  {
    hide Encode;
    if n == 0 {
      assert Nulls(0) + rest == rest && result + Nulls(0) == result;
    } else {
      NullsTail(n, rest);
      NullsPass(o, n - 1, rest, idx + 1, total, result + [Null], remaining, depth);
      assert ItemFate(o, Null, idx, total, remaining, depth) == Take(Null, 0);
      assert (result + [Null]) + Nulls(n - 1) == result + Nulls(n);
    }
  }

  lemma {:induction false} NullsEstimate(o: Options, n: nat, rest: seq<Value>, idx: nat, depth: int)
    requires idx + n <= o.maxItems
    ensures EstimateItems(o, Nulls(n) + rest, idx, depth) == EstimateItems(o, rest, idx + n, depth)
    decreases n
  {
    hide Encode;
    if n == 0 {
      assert Nulls(0) + rest == rest;
    } else {
      NullsTail(n, rest);
      NullsEstimate(o, n - 1, rest, idx + 1, depth);
    }
  }

  lemma {:induction false} NullsPayload(n: nat, rest: seq<Value>)
    ensures PayloadItems(Nulls(n) + rest) == PayloadItems(rest)
    decreases n
  {
    hide Encode;
    if n == 0 {
      assert Nulls(0) + rest == rest;
    } else {
      NullsTail(n, rest);
      NullsPayload(n - 1, rest);
    }
  }

  /** A list one longer than the item limit, its last item inside the limit being `x`. */
  function Crowd(o: Options, x: Value, last: Value): Value
    requires o.maxItems >= 1
  {
    Seq(false, Nulls(o.maxItems - 1) + [x, last])
  }

  lemma CrowdEstimate(o: Options, x: Value, last: Value, depth: int)
    requires o.maxItems >= 1 && depth < o.maxDepth
    ensures Estimate(o, Crowd(o, x, last), depth) == Estimate(o, x, depth + 1) + MarkerSize()
  {
    hide Encode;
    NullsEstimate(o, o.maxItems - 1, [x, last], 0, depth);
    TwoEstimate(o, x, last, depth);
    hide EstimateItems, Nulls, Size;
  }

  lemma TwoEstimate(o: Options, x: Value, last: Value, depth: int)
    requires o.maxItems >= 1
    ensures EstimateItems(o, [x, last], o.maxItems - 1, depth) == Estimate(o, x, depth + 1) + MarkerSize()
  {
    hide Encode, Estimate;
    assert [x, last][1..] == [last];
    assert EstimateItems(o, [last], o.maxItems, depth) == MarkerSize();
  }

  lemma WholeItem(o: Options, x: Value, idx: nat, total: nat, budget: int, depth: nat)
    requires (x.Null? || x.Str?) && idx < o.maxItems && ItemBudget(o, idx, total, budget) > 0
    requires Payload(x) <= ItemBudget(o, idx, total, budget)
    ensures ItemFate(o, x, idx, total, budget, depth) == Take(x, Payload(x))
  {
    hide Encode, TruncatedStr;
  }

  lemma LastTwo(o: Options, x: Value, n: nat, result: seq<Value>, budget: int, depth: nat)
    requires n + 1 == o.maxItems && ItemFate(o, x, n, n + 2, budget, depth) == Take(x, Payload(x))
    requires Payload(x) < budget
    ensures AcceptItems(o, [x, Null], n, n + 2, result, budget, depth).result
         == result + [x, Str(TruncatedStr(o.marker, budget - Payload(x), o.marker))]
  {
    hide Encode, TruncatedStr, Truncate, Estimate, Payload;
    var left := budget - Payload(x);
    assert [x, Null][1..] == [Null];
    assert ItemFate(o, Null, n + 1, n + 2, left, depth) == Cap;
    hide ItemFate;
    assert (result + [x]) + [Str(TruncatedStr(o.marker, left, o.marker))]
        == result + [x, Str(TruncatedStr(o.marker, left, o.marker))];
  }

  /** The item past the limit becomes the marker. */
  lemma CrowdTruncates(o: Options, x: Value, budget: int, depth: nat)
    requires o.maxItems >= 1 && depth < o.maxDepth && (x.Null? || x.Str?)
    requires budget > Size(o.marker) && Payload(x) <= budget - Size(o.marker) && Payload(x) < budget
    ensures var text := TruncatedStr(o.marker, budget - Payload(x), o.marker);
            Truncate(o, Crowd(o, x, Null), budget, depth).0 == Crowd(o, x, Str(text))
  {
    hide Encode, TruncatedStr, Truncate, AcceptItems, ItemFate, Payload, ItemBudget;
    var n := o.maxItems - 1;
    SeqTruncates(o, false, Nulls(n) + [x, Null], budget, depth);
    NullsPass(o, n, [x, Null], 0, n + 2, [], budget, depth);
    assert [] + Nulls(n) == Nulls(n);
    ItemBudgetWithin(o, n, n + 2, budget);
    WholeItem(o, x, n, n + 2, budget, depth);
    LastTwo(o, x, n, Nulls(n), budget, depth);
  }

  lemma {:induction false} LettersSize(n: nat)
    ensures Size(Letters(n)) == n
  {
    AsciiSize(Letters(n));
    hide Encode;
  }

  function Letters(n: nat): string {
    seq(n, _ => 'a')
  }

  /** A crowded list, and a string for what its estimate leaves of the budget. */
  function Overfull(o: Options): Value
    requires o.maxItems >= 1 && Size(o.marker) > MarkerSize()
  {
    Seq(false, [Crowd(o, Null, Null), Str(Letters(2 * Size(o.marker) + 1 - MarkerSize()))])
  }

  /** The marker inside the list is longer than it is charged, by as much as the result is too long. */
  lemma OverfullBreaks(o: Options)
    requires o.maxItems >= 2 && o.maxDepth >= 2 && Size(o.marker) > MarkerSize()
    ensures var budget := 2 * Size(o.marker) + 1;
            PayloadAfter(o, Overfull(o), budget) == budget + Size(o.marker) - MarkerSize()
  {
    hide Encode;
    var m, budget := Size(o.marker), 2 * Size(o.marker) + 1;
    var inner, text := Crowd(o, Null, Null), Str(Letters(budget - MarkerSize()));
    var out := Crowd(o, Null, Str(o.marker));
    LettersSize(budget - MarkerSize());
    CrowdTruncates(o, Null, budget - m, 1);
    MarkerFits(o, budget - m);
    CrowdEstimate(o, Null, Str(o.marker), 0);
    CrowdPayload(o);
    SeqTruncates(o, false, [inner, text], budget, 0);
    assert Truncate(o, text, budget - MarkerSize(), 1).0 == text && Estimate(o, text, 0) == budget - MarkerSize();
    hide Truncate, Estimate, Crowd, MarkerSize, Payload, TruncatedStr;
    assert ItemFate(o, inner, 0, 2, budget, 0) == Take(out, MarkerSize());
    assert ItemFate(o, text, 1, 2, budget - MarkerSize(), 0) == Take(text, budget - MarkerSize());
    OverfullLoop(o, inner, text, out, budget, MarkerSize());
    OverfullPayload(out, text);
  }

  lemma OverfullLoop(o: Options, inner: Value, text: Value, out: Value, budget: int, size: int)
    requires ItemFate(o, inner, 0, 2, budget, 0) == Take(out, size)
    requires ItemFate(o, text, 1, 2, budget - size, 0) == Take(text, budget - size)
    ensures AcceptItems(o, [inner, text], 0, 2, [], budget, 0).result == [out, text]
  {
    hide ItemFate;
    assert [inner, text][1..] == [text] && [text][1..] == [];
    assert [] + [out] == [out] && [out] + [text] == [out, text];
    assert AcceptItems(o, [], 2, 2, [out, text], 0, 0) == Outcome([out, text], 0);
    assert AcceptItems(o, [text], 1, 2, [out], budget - size, 0) == Outcome([out, text], 0);
  }

  lemma OverfullPayload(out: Value, text: Value)
    ensures Payload(Seq(false, [out, text])) == Payload(out) + Payload(text)
  {
    assert [out, text][1..] == [text] && [text][1..] == [];
    assert PayloadItems([text]) == Payload(text);
  }

  lemma CrowdPayload(o: Options)
    requires o.maxItems >= 1
    ensures Payload(Crowd(o, Null, Str(o.marker))) == Size(o.marker)
  {
    var rest := [Null, Str(o.marker)];
    NullsPayload(o.maxItems - 1, rest);
    hide Encode;
    assert rest[1..] == [Str(o.marker)] && [Str(o.marker)][1..] == [];
    assert PayloadItems([Str(o.marker)]) == Size(o.marker);
    assert PayloadItems(rest) == Size(o.marker);
  }

  /** The bytes kept are within the budget for all values and budgets exactly when the marker is no longer
      than the default one, or collections do not nest, or hold at most one item. */
  lemma BytesExactly(o: Options)
    ensures BytesPromised(o) <==> Size(o.marker) <= MarkerSize() || o.maxDepth <= 1 || o.maxItems <= 1
  {
    hide Encode, MarkerSize, Truncate, Payload, Overfull;
    if Kept(o) {
      forall v, budget | budget >= 0
        ensures PayloadAfter(o, v, budget) <= budget
      {
        TruncateBounded(o, v, budget, 0);
        hide Shaped;
      }
    } else {
      OverfullBreaks(o);
      hide PayloadAfter;
    }
  }
}
