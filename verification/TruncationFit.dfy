/** When the estimated size of a truncated value fits its budget, as `truncate_collection` promises. */
module TruncationFit {
  import opened Wrappers
  import opened Utf8
  import opened Truncation
  import opened TruncationBounds

  /** Collections and other objects nest at most `h` deep. */
  ghost predicate Within(v: Value, h: int)
    decreases v
  {
    match v
    case Map(entries) => h > 0 && EntriesWithin(entries, h - 1)
    case Seq(_, items) => h > 0 && ItemsWithin(items, h - 1)
    case Other(_) => h > 0
    case _ => true
  }

  ghost predicate EntriesWithin(entries: seq<Entry>, h: int)
    decreases entries
  {
    entries == [] ||
    ((assert entries[0].value < entries[0]; Within(entries[0].value, h)) && EntriesWithin(entries[1..], h))
  }

  ghost predicate ItemsWithin(items: seq<Value>, h: int)
    decreases items
  {
    items == [] || (Within(items[0], h) && ItemsWithin(items[1..], h))
  }

  /** The same for what comes out: keys are primitive, and there are no other objects. */
  ghost predicate Tidy(v: Value, h: int)
    decreases v
  {
    match v
    case Map(entries) => h > 0 && EntriesTidy(entries, h - 1)
    case Seq(_, items) => h > 0 && ItemsTidy(items, h - 1)
    case Other(_) => false
    case _ => true
  }

  ghost predicate EntriesTidy(entries: seq<Entry>, h: int)
    decreases entries
  {
    entries == [] ||
    (&& Primitive(entries[0].key)
     && (assert entries[0].value < entries[0]; Tidy(entries[0].value, h))
     && EntriesTidy(entries[1..], h))
  }

  ghost predicate ItemsTidy(items: seq<Value>, h: int)
    decreases items
  {
    items == [] || (Tidy(items[0], h) && ItemsTidy(items[1..], h))
  }

  // ---------- The estimate away from the depth limit ----------

  lemma {:induction false} DepthFree(o: Options, v: Value, a: int, b: int)
    requires Tidy(v, o.maxDepth - a) && Tidy(v, o.maxDepth - b)
    ensures Estimate(o, v, a) == Estimate(o, v, b)
    decreases v
  {
    match v {
      case Map(entries) => EntriesDepthFree(o, entries, 0, a, b);
      case Seq(_, items) => ItemsDepthFree(o, items, 0, a, b);
      case _ =>
    }
  }

  lemma {:induction false} EntriesDepthFree(o: Options, entries: seq<Entry>, idx: nat, a: int, b: int)
    requires EntriesTidy(entries, o.maxDepth - a - 1) && EntriesTidy(entries, o.maxDepth - b - 1)
    ensures EstimateEntries(o, entries, idx, a) == EstimateEntries(o, entries, idx, b)
    decreases entries
  {
    hide Estimate, Tidy, Payload, Encode;
    if entries != [] {
      assert entries[0].value < entries[0];
      DepthFree(o, entries[0].value, a + 1, b + 1);
      KeySize(o, entries[0].key, a + 1);
      KeySize(o, entries[0].key, b + 1);
      EntriesDepthFree(o, entries[1..], idx + 1, a, b);
    }
  }

  lemma {:induction false} ItemsDepthFree(o: Options, items: seq<Value>, idx: nat, a: int, b: int)
    requires ItemsTidy(items, o.maxDepth - a - 1) && ItemsTidy(items, o.maxDepth - b - 1)
    ensures EstimateItems(o, items, idx, a) == EstimateItems(o, items, idx, b)
    decreases items
  {
    hide Estimate, Tidy, Encode;
    if items != [] {
      DepthFree(o, items[0], a + 1, b + 1);
      ItemsDepthFree(o, items[1..], idx + 1, a, b);
    }
  }

  lemma {:induction false} TidyMore(v: Value, h: int, more: int)
    requires Tidy(v, h) && h <= more
    ensures Tidy(v, more)
    decreases v
  {
    match v {
      case Map(entries) => EntriesTidyMore(entries, h - 1, more - 1);
      case Seq(_, items) => ItemsTidyMore(items, h - 1, more - 1);
      case _ =>
    }
  }

  lemma {:induction false} EntriesTidyMore(entries: seq<Entry>, h: int, more: int)
    requires EntriesTidy(entries, h) && h <= more
    ensures EntriesTidy(entries, more)
    decreases entries
  {
    if entries != [] {
      assert entries[0].value < entries[0];
      TidyMore(entries[0].value, h, more);
      EntriesTidyMore(entries[1..], h, more);
    }
  }

  lemma {:induction false} ItemsTidyMore(items: seq<Value>, h: int, more: int)
    requires ItemsTidy(items, h) && h <= more
    ensures ItemsTidy(items, more)
    decreases items
  {
    if items != [] {
      TidyMore(items[0], h, more);
      ItemsTidyMore(items[1..], h, more);
    }
  }

  // ---------- Adding to a result ----------

  lemma {:induction false} TidySet(entries: seq<Entry>, h: int, key: Value, value: Value)
    requires EntriesTidy(entries, h) && Primitive(key) && Tidy(value, h)
    ensures EntriesTidy(SetKey(entries, key, value), h)
    decreases entries
  {
    hide Tidy;
    if entries == [] {
      assert [Entry(key, value)][1..] == [];
    } else if entries[0].key == key {
      assert ([Entry(key, value)] + entries[1..])[1..] == entries[1..];
    } else {
      TidySet(entries[1..], h, key, value);
      assert ([entries[0]] + SetKey(entries[1..], key, value))[1..] == SetKey(entries[1..], key, value);
    }
  }

  lemma {:induction false} TidyAppend(items: seq<Value>, h: int, v: Value)
    requires ItemsTidy(items, h) && Tidy(v, h)
    ensures ItemsTidy(items + [v], h)
    decreases items
  {
    hide Tidy;
    if items == [] {
      assert items + [v] == [v] && [v][1..] == [];
    } else {
      TidyAppend(items[1..], h, v);
      assert (items + [v])[1..] == items[1..] + [v];
    }
  }

  lemma EstimateCons(o: Options, e: Entry, rest: seq<Entry>, idx: nat, depth: int)
    ensures EstimateEntries(o, [e] + rest, idx, depth)
            == if idx >= o.maxItems then MarkerSize()
               else Estimate(o, e.key, depth + 1) + Estimate(o, e.value, depth + 1)
                    + EstimateEntries(o, rest, idx + 1, depth)
  {
    assert ([e] + rest)[1..] == rest;
    hide Estimate, Encode;
  }

  /** Setting an entry adds at most its own size; past the item limit, the marker's, or the value's alone
      when the key is there already. */
  lemma {:induction false} EstimateSet(
    o: Options, entries: seq<Entry>, idx: nat, depth: int, key: Value, value: Value, cost: nat, most: nat)
    requires idx + |entries| <= o.maxItems && cost == Estimate(o, key, depth + 1) + Estimate(o, value, depth + 1)
    requires most >= Estimate(o, value, depth + 1)
    requires most >= if idx + |entries| < o.maxItems then cost else MarkerSize()
    ensures EstimateEntries(o, SetKey(entries, key, value), idx, depth)
         <= EstimateEntries(o, entries, idx, depth) + most
    decreases entries
  {
    hide Estimate, MarkerSize, Encode;
    if entries == [] {
      EstimateCons(o, Entry(key, value), [], idx, depth);
      assert [Entry(key, value)] + [] == [Entry(key, value)];
    } else {
      var e, rest := entries[0], entries[1..];
      assert entries == [e] + rest;
      EstimateCons(o, e, rest, idx, depth);
      if e.key == key {
        EstimateCons(o, Entry(key, value), rest, idx, depth);
      } else {
        EstimateSet(o, rest, idx + 1, depth, key, value, cost, most);
        EstimateCons(o, e, SetKey(rest, key, value), idx, depth);
      }
    }
  }

  lemma {:induction false} EstimateAppend(o: Options, items: seq<Value>, idx: nat, depth: int, v: Value)
    requires idx + |items| <= o.maxItems
    ensures EstimateItems(o, items + [v], idx, depth)
            == EstimateItems(o, items, idx, depth)
               + if idx + |items| < o.maxItems then Estimate(o, v, depth + 1) else MarkerSize()
    decreases items
  {
    hide Estimate, Encode;
    if items == [] {
      assert items + [v] == [v] && [v][1..] == [];
    } else {
      EstimateAppend(o, items[1..], idx + 1, depth, v);
      assert (items + [v])[1..] == items[1..] + [v];
    }
  }

  // ---------- The promise kept ----------

  ghost predicate Fits(o: Options, out: Value, remaining: int, budget: int, depth: int) {
    Tidy(out, o.maxDepth - depth) && remaining >= 0 && Estimate(o, out, depth) + remaining <= budget
  }

  /** The marker is at least as long as the estimator assumes, and a collection may hold an item. */
  predicate Usual(o: Options) {
    Size(o.marker) >= MarkerSize() && o.maxItems >= 1
  }

  lemma TextFits(o: Options, text: string, budget: nat, depth: nat)
    requires Size(text) <= budget
    ensures Fits(o, Str(text), Left(budget, text), budget, depth) && Fits(o, Str(text), 0, budget, depth)
  {
  }

  lemma WholeFits(o: Options, v: Value, budget: nat, depth: nat)
    requires v.Null? || v.Scalar? || v.Str? || v.Bytes?
    requires Payload(v) <= budget
    ensures Fits(o, v, budget - Payload(v), budget, depth)
  {
  }

  lemma EmptyFits(o: Options, v: Value, depth: nat)
    requires Within(v, o.maxDepth - depth)
    ensures Fits(o, Emptied(v), 0, 0, depth)
  {
    EmptySize();
  }

  lemma LeafFits(o: Options, v: Value, budget: int, depth: nat)
    requires budget >= 0 && Within(v, o.maxDepth - depth) && (budget == 0 || !(v.Map? || v.Seq?))
    ensures Fits(o, Truncate(o, v, budget, depth).0, Truncate(o, v, budget, depth).1, budget, depth)
  {
    hide Fits, TruncatedStr, TruncatedBytes, Encode, AcceptEntries, AcceptItems, Left;
    if budget == 0 {
      EmptyFits(o, v, depth);
    } else {
      MarkerFits(o, budget);
      TextFits(o, TruncatedStr(o.marker, budget, o.marker), budget, depth);
      match v {
        case Null => WholeFits(o, v, budget, depth);
        case Scalar(repr) => if Size(repr) <= budget { WholeFits(o, v, budget, depth); }
        case NonFinite =>
          TruncatedStrExact(NONFINITE_FLOAT_REPLACEMENT, budget, o.marker);
          TextFits(o, TruncatedStr(NONFINITE_FLOAT_REPLACEMENT, budget, o.marker), budget, depth);
        case Str(text) =>
          TruncatedStrExact(text, budget, o.marker);
          TextFits(o, TruncatedStr(text, budget, o.marker), budget, depth);
          if Size(text) <= budget {
            WholeFits(o, v, budget, depth);
          }
        case Bytes(data) =>
          var kept := if |data| <= budget then data else TruncatedBytes(data, budget, Encode(o.marker));
          WholeFits(o, Bytes(kept), budget, depth);
        case Other(form) =>
          TruncatedStrExact(form, budget, o.marker);
          TextFits(o, TruncatedStr(form, budget, o.marker), budget, depth);
        case _ =>
      }
    }
  }

  /** The loop's state; while items are to come, room for the marker was kept. */
  ghost predicate EntriesFit(
    o: Options, result: seq<Entry>, idx: nat, total: nat, remaining: int, budget: int, depth: int)
  {
    && EntriesTidy(result, o.maxDepth - depth - 1) && |result| <= idx <= o.maxItems && idx <= total
    && remaining >= 0 && EstimateEntries(o, result, 0, depth) + remaining <= budget
    && (0 < idx < total ==> remaining >= MarkerSize())
  }

  ghost predicate ItemsFit(
    o: Options, result: seq<Value>, idx: nat, total: nat, remaining: int, budget: int, depth: int)
  {
    && ItemsTidy(result, o.maxDepth - depth - 1) && |result| == idx <= o.maxItems && idx <= total
    && remaining >= 0 && EstimateItems(o, result, 0, depth) + remaining <= budget
    && (0 < idx < total ==> remaining >= MarkerSize())
  }

  lemma MarkEntryFits(o: Options, result: seq<Entry>, idx: nat, total: nat, remaining: int, budget: int, depth: nat)
    requires Usual(o) && EntriesFit(o, result, idx, total, remaining, budget, depth)
    requires |result| < o.maxItems || remaining >= MarkerSize()
    ensures EntriesTidy(MarkEntry(o, result, remaining), o.maxDepth - depth - 1)
    ensures EstimateEntries(o, MarkEntry(o, result, remaining), 0, depth) <= budget
  {
    hide TruncatedStr, Encode, EntriesTidy, EstimateEntries, Estimate, SetKey;
    if remaining > 0 {
      MarkerFits(o, remaining);
      var key := TruncatedStr(o.marker, remaining, o.marker);
      TextEntry(o, key, depth + 1);
      TidySet(result, o.maxDepth - depth - 1, Str(key), Str(""));
      EstimateSet(o, result, 0, depth, Str(key), Str(""), Size(key), remaining);
    }
  }

  lemma TextEntry(o: Options, key: string, depth: int)
    ensures Estimate(o, Str(key), depth) == Size(key) && Estimate(o, Str(""), depth) == 0
  {
    EmptySize();
  }

  lemma MarkItemFits(o: Options, result: seq<Value>, idx: nat, total: nat, remaining: int, budget: int, depth: nat)
    requires Usual(o) && ItemsFit(o, result, idx, total, remaining, budget, depth)
    requires |result| < o.maxItems || remaining >= MarkerSize()
    ensures ItemsTidy(MarkItem(o, result, remaining), o.maxDepth - depth - 1)
    ensures EstimateItems(o, MarkItem(o, result, remaining), 0, depth) <= budget
  {
    hide TruncatedStr, Encode, ItemsTidy, EstimateItems, Estimate;
    if remaining > 0 {
      MarkerFits(o, remaining);
      var text := TruncatedStr(o.marker, remaining, o.marker);
      TextEntry(o, text, depth + 1);
      TidyAppend(result, o.maxDepth - depth - 1, Str(text));
      EstimateAppend(o, result, 0, depth, Str(text));
    }
  }

  /** A taken entry costs exactly what it adds to the estimate. */
  lemma {:induction false} TakenEntryFits(o: Options, e: Entry, idx: nat, total: nat, remaining: int, depth: nat)
    requires Usual(o) && Within(e.value, o.maxDepth - depth - 1)
    ensures var fate := EntryFate(o, e, idx, total, remaining, depth);
            fate.Take? ==> && idx < o.maxItems && fate.size <= ItemBudget(o, idx, total, remaining)
                           && Primitive(fate.item.key) && Tidy(fate.item.value, o.maxDepth - depth - 1)
                           && fate.size
                              == Estimate(o, fate.item.key, depth + 1) + Estimate(o, fate.item.value, depth + 1)
    decreases e, 1
  {
    hide EntryFate, Truncate, Estimate, Payload, Tidy, Within, ItemBudget, Encode, OutKey;
    var fate := EntryFate(o, e, idx, total, remaining, depth);
    if fate.Take? {
      EntryFateTake(o, e, idx, total, remaining, depth);
      TruncateFits(o, e.value, ItemBudget(o, idx, total, remaining) - Payload(OutKey(o, e.key)), depth + 1);
      TidyMore(fate.item.value, o.maxDepth - depth - 1, o.maxDepth);
      DepthFree(o, fate.item.value, depth + 1, 0);
      KeySize(o, fate.item.key, depth + 1);
    }
  }

  lemma {:induction false} TakenItemFits(o: Options, item: Value, idx: nat, total: nat, remaining: int, depth: nat)
    requires Usual(o) && Within(item, o.maxDepth - depth - 1)
    ensures var fate := ItemFate(o, item, idx, total, remaining, depth);
            fate.Take? ==> && idx < o.maxItems && fate.size <= ItemBudget(o, idx, total, remaining)
                           && Tidy(fate.item, o.maxDepth - depth - 1) && fate.size == Estimate(o, fate.item, depth + 1)
    decreases item, 1
  {
    hide Truncate, Estimate, Tidy, Within, ItemBudget, Encode;
    var fate := ItemFate(o, item, idx, total, remaining, depth);
    if fate.Take? {
      TruncateFits(o, item, ItemBudget(o, idx, total, remaining), depth + 1);
      TidyMore(fate.item, o.maxDepth - depth - 1, o.maxDepth);
      DepthFree(o, fate.item, depth + 1, 0);
    }
  }

  lemma EntriesFitNext(
    o: Options, result: seq<Entry>, idx: nat, total: nat, remaining: int, budget: int, depth: nat, fate: Fate<Entry>)
    requires Usual(o) && EntriesFit(o, result, idx, total, remaining, budget, depth) && fate.Take?
    requires idx < o.maxItems && idx < total
    requires fate.size <= ItemBudget(o, idx, total, remaining)
    requires Primitive(fate.item.key) && Tidy(fate.item.value, o.maxDepth - depth - 1)
    requires fate.size == Estimate(o, fate.item.key, depth + 1) + Estimate(o, fate.item.value, depth + 1)
    ensures EntriesFit(
              o, SetKey(result, fate.item.key, fate.item.value), idx + 1, total, remaining - fate.size, budget, depth)
  {
    hide Estimate, EstimateEntries, Tidy, EntriesTidy, Encode;
    var e := fate.item;
    TidySet(result, o.maxDepth - depth - 1, e.key, e.value);
    EstimateSet(o, result, 0, depth, e.key, e.value, fate.size, fate.size);
    SetKeyLength(result, e.key, e.value);
    ItemBudgetWithin(o, idx, total, remaining);
  }

  lemma ItemsFitNext(
    o: Options, result: seq<Value>, idx: nat, total: nat, remaining: int, budget: int, depth: nat, fate: Fate<Value>)
    requires Usual(o) && ItemsFit(o, result, idx, total, remaining, budget, depth) && fate.Take?
    requires idx < o.maxItems && idx < total
    requires fate.size <= ItemBudget(o, idx, total, remaining)
    requires Tidy(fate.item, o.maxDepth - depth - 1) && fate.size == Estimate(o, fate.item, depth + 1)
    ensures ItemsFit(o, result + [fate.item], idx + 1, total, remaining - fate.size, budget, depth)
  {
    hide Estimate, EstimateItems, Tidy, ItemsTidy, Encode;
    TidyAppend(result, o.maxDepth - depth - 1, fate.item);
    EstimateAppend(o, result, 0, depth, fate.item);
    ItemBudgetWithin(o, idx, total, remaining);
  }

  lemma {:induction false} AcceptEntriesFit(
    o: Options, entries: seq<Entry>, idx: nat, total: nat, result: seq<Entry>, remaining: int, budget: int, depth: nat)
    requires Usual(o) && EntriesFit(o, result, idx, total, remaining, budget, depth)
    requires idx + |entries| == total && EntriesWithin(entries, o.maxDepth - depth - 1)
    ensures var a := AcceptEntries(o, entries, idx, total, result, remaining, depth);
            && EntriesTidy(a.result, o.maxDepth - depth - 1) && a.remaining >= 0
            && EstimateEntries(o, a.result, 0, depth) + a.remaining <= budget
    decreases entries, 0
  {
    hide EntryFate, MarkEntry, Estimate, EstimateEntries, Tidy, EntriesTidy, Encode, MarkerSize, Within;
    if |result| < o.maxItems || remaining >= MarkerSize() {
      MarkEntryFits(o, result, idx, total, remaining, budget, depth);
    }
    if entries != [] {
      assert entries[0].value < entries[0];
      TakenEntryFits(o, entries[0], idx, total, remaining, depth);
      var fate := EntryFate(o, entries[0], idx, total, remaining, depth);
      assert fate.Cap? <==> idx >= o.maxItems by { CapExact(o, entries[0], idx, total, remaining, depth); }
      if fate.Take? {
        EntriesFitNext(o, result, idx, total, remaining, budget, depth, fate);
        AcceptEntriesFit(
          o, entries[1..], idx + 1, total, SetKey(result, fate.item.key, fate.item.value),
          remaining - fate.size, budget, depth);
      }
    }
  }

  lemma CapExact(o: Options, e: Entry, idx: nat, total: nat, remaining: int, depth: int)
    ensures EntryFate(o, e, idx, total, remaining, depth).Cap? <==> idx >= o.maxItems
    ensures ItemFate(o, e.value, idx, total, remaining, depth).Cap? <==> idx >= o.maxItems
  {
    hide Truncate, Estimate, OutKey, Encode;
  }

  lemma {:induction false} AcceptItemsFit(
    o: Options, items: seq<Value>, idx: nat, total: nat, result: seq<Value>, remaining: int, budget: int, depth: nat)
    requires Usual(o) && ItemsFit(o, result, idx, total, remaining, budget, depth)
    requires idx + |items| == total && ItemsWithin(items, o.maxDepth - depth - 1)
    ensures var a := AcceptItems(o, items, idx, total, result, remaining, depth);
            && ItemsTidy(a.result, o.maxDepth - depth - 1) && a.remaining >= 0
            && EstimateItems(o, a.result, 0, depth) + a.remaining <= budget
    decreases items, 0
  {
    hide ItemFate, MarkItem, Estimate, EstimateItems, Tidy, ItemsTidy, Encode, MarkerSize, Within;
    if |result| < o.maxItems || remaining >= MarkerSize() {
      MarkItemFits(o, result, idx, total, remaining, budget, depth);
    }
    if items != [] {
      TakenItemFits(o, items[0], idx, total, remaining, depth);
      var fate := ItemFate(o, items[0], idx, total, remaining, depth);
      CapExact(o, Entry(Null, items[0]), idx, total, remaining, depth);
      if fate.Take? {
        ItemsFitNext(o, result, idx, total, remaining, budget, depth, fate);
        AcceptItemsFit(o, items[1..], idx + 1, total, result + [fate.item], remaining - fate.size, budget, depth);
      }
    }
  }

  /** A value that does not reach the depth limit comes out with an estimated size that fits. */
  lemma {:induction false} TruncateFits(o: Options, v: Value, budget: int, depth: nat)
    requires Usual(o) && budget >= 0 && Within(v, o.maxDepth - depth)
    ensures Fits(o, Truncate(o, v, budget, depth).0, Truncate(o, v, budget, depth).1, budget, depth)
    decreases v, 0
  {
    hide Truncate, AcceptEntries, AcceptItems, EntriesTidy, ItemsTidy, EstimateEntries;
    hide EstimateItems, EntriesFit, ItemsFit, Encode;
    if budget > 0 && v.Map? {
      NothingFits(o, |v.entries|, budget, depth);
      MapTruncates(o, v.entries, budget, depth);
      AcceptEntriesFit(o, v.entries, 0, |v.entries|, [], budget, budget, depth);
    } else if budget > 0 && v.Seq? {
      NothingFits(o, |v.items|, budget, depth);
      SeqTruncates(o, v.isTuple, v.items, budget, depth);
      AcceptItemsFit(o, v.items, 0, |v.items|, [], budget, budget, depth);
    } else {
      LeafFits(o, v, budget, depth);
    }
  }

  lemma NothingFits(o: Options, total: nat, budget: int, depth: nat)
    requires Usual(o) && budget >= 0
    ensures EntriesFit(o, [], 0, total, budget, budget, depth) && ItemsFit(o, [], 0, total, budget, budget, depth)
  {
    hide Encode, Estimate;
  }

  // ---------- The promise broken ----------

  /** Every value of at most this nesting, under every budget, comes out with an estimated size that
      fits. */
  ghost predicate AlwaysFits(o: Options, h: int) {
    forall v, budget :: budget >= 0 && Within(v, h) ==> EstimateAfter(o, v, budget) <= budget
  }

  ghost function EstimateAfter(o: Options, v: Value, budget: int): nat {
    Estimate(o, Truncate(o, v, budget, 0).0, 0)
  }

  lemma {:induction false} WithinMore(v: Value, h: int, more: int)
    requires Within(v, h) && h <= more
    ensures Within(v, more)
    decreases v
  {
    match v {
      case Map(entries) => EntriesWithinMore(entries, h - 1, more - 1);
      case Seq(_, items) => ItemsWithinMore(items, h - 1, more - 1);
      case _ =>
    }
  }

  lemma {:induction false} EntriesWithinMore(entries: seq<Entry>, h: int, more: int)
    requires EntriesWithin(entries, h) && h <= more
    ensures EntriesWithin(entries, more)
    decreases entries
  {
    if entries != [] {
      assert entries[0].value < entries[0];
      WithinMore(entries[0].value, h, more);
      EntriesWithinMore(entries[1..], h, more);
    }
  }

  lemma {:induction false} ItemsWithinMore(items: seq<Value>, h: int, more: int)
    requires ItemsWithin(items, h) && h <= more
    ensures ItemsWithin(items, more)
    decreases items
  {
    if items != [] {
      WithinMore(items[0], h, more);
      ItemsWithinMore(items[1..], h, more);
    }
  }

  /** An empty list below a one-letter key, below `n` lists. */
  function Deep(n: nat): Value {
    if n == 0 then Map([Entry(Str("a"), Seq(false, []))]) else Seq(false, [Deep(n - 1)])
  }

  lemma LetterSize()
    ensures Size("a") == 1
  {
    AsciiSize("a");
    hide Encode;
  }

  lemma {:induction false} DeepWithin(n: nat)
    ensures Within(Deep(n), n + 2)
  {
    if n == 0 {
      var entries := [Entry(Str("a"), Seq(false, []))];
      assert entries[1..] == [] && EntriesWithin(entries, 1);
    } else {
      DeepWithin(n - 1);
      assert [Deep(n - 1)][1..] == [];
      assert ItemsWithin([Deep(n - 1)], n + 1);
    }
  }

  lemma SingleItem(o: Options, v: Value, depth: int)
    requires depth < o.maxDepth
    ensures Estimate(o, Seq(false, [v]), depth) == if o.maxItems >= 1 then Estimate(o, v, depth + 1) else MarkerSize()
  {
    hide Encode;
    SingleEstimate(o, v, depth);
    hide EstimateItems, Size;
  }

  lemma SingleEstimate(o: Options, v: Value, depth: int)
    ensures EstimateItems(o, [v], 0, depth) == if o.maxItems >= 1 then Estimate(o, v, depth + 1) else MarkerSize()
  {
    hide Encode, Estimate;
    assert [v][1..] == [];
  }

  lemma {:induction false} DeepEstimate(o: Options, n: nat, depth: nat)
    requires o.maxItems >= 1 && depth + n < o.maxDepth
    ensures Estimate(o, Deep(n), depth) == 1 + if depth + n + 1 >= o.maxDepth then MarkerSize() else 0
  {
    hide Encode;
    if n == 0 {
      LetterSize();
      var e := Entry(Str("a"), Seq(false, []));
      assert [e] + [] == [e];
      EstimateCons(o, e, [], 0, depth);
    } else {
      DeepEstimate(o, n - 1, depth + 1);
      SingleItem(o, Deep(n - 1), depth);
      hide Estimate;
    }
  }

  /** Its budget of one byte goes to the key, and the empty list is left at the depth limit. */
  lemma {:induction false} DeepTruncates(o: Options, n: nat, depth: nat)
    requires o.maxItems >= 1 && depth + n + 1 == o.maxDepth
    ensures Truncate(o, Deep(n), 1, depth) == (Deep(n), 0)
  {
    hide Truncate, Estimate, Encode, AcceptItems, ItemFate;
    if n == 0 {
      DeepestTruncates(o, depth);
    } else {
      var inner := Deep(n - 1);
      SeqTruncates(o, false, [inner], 1, depth);
      DeepTruncates(o, n - 1, depth + 1);
      DeepEstimate(o, n - 1, 0);
      WholeList(o, inner, depth);
    }
  }

  lemma WholeList(o: Options, v: Value, depth: nat)
    requires o.maxItems >= 1 && Truncate(o, v, 1, depth + 1).0 == v && Estimate(o, v, 0) == 1
    ensures AcceptItems(o, [v], 0, 1, [], 1, depth) == Outcome([v], 0)
  {
    hide Truncate, Estimate, Encode;
    assert ItemFate(o, v, 0, 1, 1, depth) == Take(v, 1);
    assert [v][1..] == [] && [] + [v] == [v];
    assert AcceptItems(o, [], 1, 1, [v], 0, depth) == Outcome([v], 0);
  }

  lemma DeepestTruncates(o: Options, depth: nat)
    requires o.maxItems >= 1 && depth + 1 == o.maxDepth
    ensures Truncate(o, Deep(0), 1, depth) == (Deep(0), 0)
  {
    LetterSize();
    var key, inner := Str("a"), Seq(false, []);
    var e := Entry(key, inner);
    MapTruncates(o, [e], 1, depth);
    assert Estimate(o.(maxDepth := 0, maxItems := 0), key, 0) == 1;
    assert Truncate(o, inner, 0, depth + 1) == (inner, 0);
    assert Estimate(o, inner, 0) == 0;
    hide Truncate, Estimate, Encode;
    assert EntryFate(o, e, 0, 1, 1, depth) == Take(e, 1);
    assert [e][1..] == [] && SetKey([], key, inner) == [e];
    assert AcceptEntries(o, [], 1, 1, [e], 0, depth) == Outcome([e], 0);
  }

  lemma ShallowBreaks(o: Options)
    requires o.maxDepth <= 0
    ensures Within(Seq(false, []), 1) && EstimateAfter(o, Seq(false, []), 0) == MarkerSize()
  {
  }

  lemma NoItemsBreaks(o: Options)
    requires o.maxDepth >= 1 && o.maxItems <= 0
    ensures Within(Seq(false, [Null]), 1) && EstimateAfter(o, Seq(false, [Null]), 1) == MarkerSize()
  {
    assert [Null][1..] == [];
    assert ItemsWithin([Null], 0);
    SeqTruncates(o, false, [Null], 1, 0);
    var text := TruncatedStr(o.marker, 1, o.marker);
    hide TruncatedStr, Encode, Truncate;
    assert AcceptItems(o, [Null], 0, 1, [], 1, 0) == Outcome([] + [Str(text)], 0);
    assert [] + [Str(text)] == [Str(text)];
    SingleItem(o, Str(text), 0);
  }

  lemma DeepBreaks(o: Options)
    requires o.maxDepth >= 1 && o.maxItems >= 1
    ensures Within(Deep(o.maxDepth - 1), o.maxDepth + 1)
    ensures EstimateAfter(o, Deep(o.maxDepth - 1), 1) == 1 + MarkerSize()
  {
    hide Truncate, Estimate, Within, Deep, MarkerSize;
    DeepWithin(o.maxDepth - 1);
    DeepTruncates(o, o.maxDepth - 1, 0);
    DeepEstimate(o, o.maxDepth - 1, 0);
  }

  /** With a short marker the room kept for it is less than what the estimator charges past the item
      limit. */
  function LastItem(o: Options): Value {
    if Size(o.marker) + 1 < MarkerSize() then Null else Str("a")
  }

  lemma {:induction false} NullsWithin(n: nat, rest: seq<Value>)
    requires ItemsWithin(rest, 0)
    ensures ItemsWithin(Nulls(n) + rest, 0)
    decreases n
  {
    if n == 0 {
      assert Nulls(0) + rest == rest;
    } else {
      NullsTail(n, rest);
      NullsWithin(n - 1, rest);
    }
  }

  lemma CrowdWithin(o: Options)
    requires o.maxItems >= 1
    ensures Within(Crowd(o, LastItem(o), Null), 1)
  {
    hide Encode;
    var rest := [LastItem(o), Null];
    assert rest[1..] == [Null] && [Null][1..] == [];
    assert ItemsWithin([Null], 0) && ItemsWithin(rest, 0);
    NullsWithin(o.maxItems - 1, rest);
  }

  lemma LastItemSize(o: Options)
    ensures var x := LastItem(o);
            && (x.Null? || x.Str?)
            && Payload(x) == Estimate(o, x, 1) == if Size(o.marker) + 1 < MarkerSize() then 0 else 1
  {
    LetterSize();
    hide Encode;
  }

  lemma ShortMarkerBreaks(o: Options)
    requires o.maxDepth >= 1 && o.maxItems >= 1 && Size(o.marker) < MarkerSize()
    ensures Within(Crowd(o, LastItem(o), Null), 1)
    ensures EstimateAfter(o, Crowd(o, LastItem(o), Null), Size(o.marker) + 1) > Size(o.marker) + 1
  {
    hide *;
    MarkerIsElevenBytes();
    LastItemSize(o);
    CrowdWithin(o);
    var x, budget := LastItem(o), Size(o.marker) + 1;
    CrowdTruncates(o, x, budget, 0);
    CrowdEstimate(o, x, Str(TruncatedStr(o.marker, budget - Payload(x), o.marker)), 0);
    AfterTruncation(o, Crowd(o, x, Null), budget);
  }

  lemma AfterTruncation(o: Options, v: Value, budget: int)
    ensures EstimateAfter(o, v, budget) == Estimate(o, Truncate(o, v, budget, 0).0, 0)
  {
  }

  /** The estimated size fits for all values of a given nesting exactly when that nesting stays within
      the depth limit, a collection may hold at least one item, and the marker is no shorter than the
      default one. */
  lemma FitsExactly(o: Options, h: int)
    requires h >= 1
    ensures AlwaysFits(o, h) <==> h <= o.maxDepth && o.maxItems >= 1 && Size(o.marker) >= MarkerSize()
  {
    MarkerIsElevenBytes();
    hide Encode, MarkerSize, EstimateAfter, Truncate, Crowd;
    if h <= o.maxDepth && Usual(o) {
      forall v, budget | budget >= 0 && Within(v, h)
        ensures EstimateAfter(o, v, budget) <= budget
      {
        WithinMore(v, h, o.maxDepth);
        FittingValue(o, v, budget);
      }
    } else if o.maxDepth <= 0 {
      ShallowBreaks(o);
      WithinMore(Seq(false, []), 1, h);
    } else if o.maxItems <= 0 {
      NoItemsBreaks(o);
      WithinMore(Seq(false, [Null]), 1, h);
    } else if Size(o.marker) < MarkerSize() {
      ShortMarkerBreaks(o);
      WithinMore(Crowd(o, LastItem(o), Null), 1, h);
    } else {
      DeepBreaks(o);
      WithinMore(Deep(o.maxDepth - 1), o.maxDepth + 1, h);
    }
  }

  lemma FittingValue(o: Options, v: Value, budget: int)
    requires Usual(o) && budget >= 0 && Within(v, o.maxDepth)
    ensures EstimateAfter(o, v, budget) <= budget
  {
    hide Truncate, Estimate;
    TruncateFits(o, v, budget, 0);
  }
}
