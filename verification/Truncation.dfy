/** Budgeted truncation of nested data: `observability/truncation.py`. */
module Truncation {
  import opened Wrappers
  import opened Utf8

  /** JSON-like data.  `Scalar` is a boolean, an integer or a finite float with its representation, and
      `Other` any other object with its string form. */
  datatype Value =
    | Null
    | Scalar(repr: string)
    | NonFinite
    | Str(text: string)
    | Bytes(data: seq<Byte>)
    | Map(entries: seq<Entry>)
    | Seq(isTuple: bool, items: seq<Value>)
    | Other(form: string)

  datatype Entry = Entry(key: Value, value: Value)

  /** `stringify` gives the string form of keys that are not primitive. */
  datatype Options = Options(maxDepth: int, maxItems: int, marker: string, stringify: Value -> string)

  const TRUNCATION_MARKER: string := "<truncated>"
  const NONFINITE_FLOAT_REPLACEMENT: string := "<non-finite-float>"

  datatype TruncationError = NegativeMaxBytes

  // ---------- Strings and bytes ----------

  function TruncatedStr(value: string, maxBytes: nat, marker: string): string {
    var data := Encode(value);
    if |data| <= maxBytes then value
    else
      var markerBytes := Encode(marker);
      if maxBytes <= |markerBytes| then DecodeIgnore(markerBytes[..maxBytes])
      else DecodeIgnore(data[..maxBytes - |markerBytes|]) + marker
  }

  function TruncateStr(value: string, maxBytes: int, marker: string): Result<string, TruncationError> {
    if maxBytes < 0 then Err(NegativeMaxBytes) else Ok(TruncatedStr(value, maxBytes, marker))
  }

  /** A string that fits is kept; otherwise as many of its characters as fit before the marker are kept,
      or as much of the marker as fits alone.  The result always fits. */
  lemma TruncatedStrExact(value: string, maxBytes: nat, marker: string)
    ensures var r := TruncatedStr(value, maxBytes, marker);
            && Size(r) <= maxBytes
            && (Size(value) <= maxBytes ==> r == value)
            && (Size(value) > maxBytes && maxBytes <= Size(marker) ==> r == Fitting(marker, maxBytes))
            && (Size(value) > maxBytes > Size(marker) ==> r == Fitting(value, maxBytes - Size(marker)) + marker)
  {
    if Size(value) > maxBytes {
      if maxBytes <= Size(marker) {
        CutIsFitting(marker, maxBytes);
        FittingIsLongest(marker, maxBytes);
      } else {
        var keep := maxBytes - Size(marker);
        CutIsFitting(value, keep);
        FittingIsLongest(value, keep);
        EncodeAppend(Fitting(value, keep), marker);
      }
    }
  }

  /** As many whole characters of `s` as `n` bytes hold. */
  ghost predicate LongestPrefix(p: string, s: string, n: nat) {
    p <= s && Size(p) <= n && (p == s || Size(s[..|p| + 1]) > n)
  }

  /** The whole call: only a negative limit is refused; a string that fits is returned as it is; a limit no
      longer than the marker gives the longest prefix of the marker; otherwise the result is the longest
      prefix that leaves room for the marker, and the marker. */
  lemma TruncateStrExact(value: string, maxBytes: int, marker: string)
    ensures var r := TruncateStr(value, maxBytes, marker);
            && (r.Err? <==> maxBytes < 0)
            && (r.Ok? ==> Size(r.value) <= maxBytes)
            && (r.Ok? && Size(value) <= maxBytes ==> r.value == value)
            && (r.Ok? && Size(value) > maxBytes && maxBytes <= Size(marker) ==>
                 LongestPrefix(r.value, marker, maxBytes))
            && (r.Ok? && Size(value) > maxBytes > Size(marker) ==>
                 exists p :: LongestPrefix(p, value, maxBytes - Size(marker)) && r.value == p + marker)
  {
    hide TruncatedStr, Fitting, Encode, Size;
    if maxBytes >= 0 {
      TruncatedStrExact(value, maxBytes, marker);
      FittingIsLongest(marker, maxBytes);
      if maxBytes > Size(marker) {
        FittingIsLongest(value, maxBytes - Size(marker));
        assert LongestPrefix(Fitting(value, maxBytes - Size(marker)), value, maxBytes - Size(marker));
      }
    }
  }

  function TruncatedBytes(value: seq<Byte>, maxBytes: nat, marker: seq<Byte>): (r: seq<Byte>)
    ensures |r| <= maxBytes
    ensures |value| <= maxBytes ==> r == value
    ensures |value| > maxBytes ==> |r| == maxBytes
    ensures |value| > maxBytes && maxBytes <= |marker| ==> r <= marker
    ensures |value| > maxBytes > |marker| ==>
              r[..maxBytes - |marker|] <= value && r[maxBytes - |marker|..] == marker
  {
    if |value| <= maxBytes then value
    else if maxBytes <= |marker| then marker[..maxBytes]
    else value[..maxBytes - |marker|] + marker
  }

  // ---------- Estimated size ----------

  function Estimate(o: Options, v: Value, depth: int): nat
    decreases v
  {
    match v
    case Null => 0
    case Scalar(repr) => Size(repr)
    case NonFinite => Size(NONFINITE_FLOAT_REPLACEMENT)
    case Str(text) => Size(text)
    case Bytes(data) => |data|
    case Map(entries) => if depth >= o.maxDepth then Size(TRUNCATION_MARKER) else EstimateEntries(o, entries, 0, depth)
    case Seq(_, items) => if depth >= o.maxDepth then Size(TRUNCATION_MARKER) else EstimateItems(o, items, 0, depth)
    case Other(form) => if depth >= o.maxDepth then Size(TRUNCATION_MARKER) else Size(form)
  }

  function EstimateEntries(o: Options, entries: seq<Entry>, idx: nat, depth: int): nat
    decreases entries
  {
    if entries == [] then 0
    else if idx >= o.maxItems then Size(TRUNCATION_MARKER)
    else
      var e := entries[0];
      assert e.key < e && e.value < e;
      Estimate(o, e.key, depth + 1) + Estimate(o, e.value, depth + 1) + EstimateEntries(o, entries[1..], idx + 1, depth)
  }

  function EstimateItems(o: Options, items: seq<Value>, idx: nat, depth: int): nat
    decreases items
  {
    if items == [] then 0
    else if idx >= o.maxItems then Size(TRUNCATION_MARKER)
    else Estimate(o, items[0], depth + 1) + EstimateItems(o, items[1..], idx + 1, depth)
  }

  // ---------- Truncation ----------

  predicate Primitive(v: Value) {
    v.Null? || v.Scalar? || v.NonFinite? || v.Str?
  }

  function OutKey(o: Options, key: Value): (r: Value)
    ensures Primitive(r)
  {
    if Primitive(key) then key else Str(o.stringify(key))
  }

  /** `result[key] = value`: in place for a key that is there, at the end otherwise. */
  function SetKey(entries: seq<Entry>, key: Value, value: Value): seq<Entry> {
    if entries == [] then [Entry(key, value)]
    else if entries[0].key == key then [Entry(key, value)] + entries[1..]
    else [entries[0]] + SetKey(entries[1..], key, value)
  }

  /** What is left, never negative. */
  function Left(budget: int, text: string): int {
    if budget - Size(text) < 0 then 0 else budget - Size(text)
  }

  function Emptied(v: Value): Value {
    match v
    case Bytes(_) => Bytes([])
    case Map(_) => Map([])
    case Seq(isTuple, _) => Seq(isTuple, [])
    case _ => Str("")
  }

  /** The value cut to the budget, and the budget left. */
  function Truncate(o: Options, v: Value, budget: int, depth: int): (Value, int)
    decreases v, 0
  {
    if budget <= 0 then (Emptied(v), 0)
    else
      match v
      case Null => (v, budget)
      case Scalar(repr) =>
        if Size(repr) <= budget then (v, budget - Size(repr)) else (Str(TruncatedStr(o.marker, budget, o.marker)), 0)
      case NonFinite =>
        var replacement := TruncatedStr(NONFINITE_FLOAT_REPLACEMENT, budget, o.marker);
        (Str(replacement), Left(budget, replacement))
      case Str(text) =>
        if Size(text) <= budget then (v, budget - Size(text))
        else
          var truncated := TruncatedStr(text, budget, o.marker);
          (Str(truncated), Left(budget, truncated))
      case Bytes(data) =>
        if |data| <= budget then (v, budget - |data|)
        else
          var truncated := TruncatedBytes(data, budget, Encode(o.marker));
          (Bytes(truncated), budget - |truncated|)
      case Map(entries) =>
        if depth >= o.maxDepth then MarkerFor(o, budget)
        else
          var a := AcceptEntries(o, entries, 0, |entries|, [], budget, depth);
          (Map(a.result), a.remaining)
      case Seq(isTuple, items) =>
        if depth >= o.maxDepth then MarkerFor(o, budget)
        else
          var a := AcceptItems(o, items, 0, |items|, [], budget, depth);
          (Seq(isTuple, a.result), a.remaining)
      case Other(form) =>
        if depth >= o.maxDepth then MarkerFor(o, budget)
        else
          var truncated := TruncatedStr(form, budget, o.marker);
          (Str(truncated), Left(budget, truncated))
  }

  function MarkerFor(o: Options, budget: nat): (Value, int) {
    var truncated := TruncatedStr(o.marker, budget, o.marker);
    (Str(truncated), Left(budget, truncated))
  }

  datatype Outcome<T> = Outcome(result: seq<T>, remaining: int)

  /** All but the last entry keep room for the marker. */
  function ItemBudget(o: Options, idx: int, total: int, remaining: int): int {
    remaining - if idx < total - 1 then Size(o.marker) else 0
  }

  function MarkEntry(o: Options, result: seq<Entry>, remaining: int): seq<Entry> {
    if remaining <= 0 then result
    else
      var key := TruncatedStr(o.marker, remaining, o.marker);
      if key == "" then result else SetKey(result, Str(key), Str(""))
  }

  function FinishEntries(o: Options, total: int, result: seq<Entry>, remaining: int): Outcome<Entry> {
    if |result| < total && remaining > 0 then Outcome(MarkEntry(o, result, remaining), 0)
    else Outcome(result, remaining)
  }

  /** What the loop does with one entry: stop at the item limit, give up, or take it at its size. */
  datatype Fate<T> = Cap | Stop | Take(item: T, size: int)

  function EntryFate(o: Options, e: Entry, idx: nat, total: nat, remaining: int, depth: int): Fate<Entry>
    decreases e, 1
  {
    if idx >= o.maxItems then Cap
    else
      var itemBudget := ItemBudget(o, idx, total, remaining);
      var key := OutKey(o, e.key);
      var keySize := Estimate(o.(maxDepth := 0, maxItems := 0), key, 0);
      if itemBudget <= 0 || keySize > itemBudget then Stop
      else
        var value := Truncate(o, e.value, itemBudget - keySize, depth + 1).0;
        var itemSize := keySize + Estimate(o, value, 0);
        if itemSize > itemBudget then Stop else Take(Entry(key, value), itemSize)
  }

  /** The loop over the entries still to come, with `idx` of `total` behind. */
  function AcceptEntries(
    o: Options, entries: seq<Entry>, idx: nat, total: nat, result: seq<Entry>, remaining: int, depth: int)
    : Outcome<Entry>
    decreases entries, 0
  {
    if entries == [] then FinishEntries(o, total, result, remaining)
    else
      assert entries[0].value < entries[0];
      match EntryFate(o, entries[0], idx, total, remaining, depth)
      case Cap => Outcome(MarkEntry(o, result, remaining), 0)
      case Stop => FinishEntries(o, total, result, remaining)
      case Take(e, size) =>
        AcceptEntries(o, entries[1..], idx + 1, total, SetKey(result, e.key, e.value), remaining - size, depth)
  }

  function MarkItem(o: Options, result: seq<Value>, remaining: int): seq<Value> {
    if remaining <= 0 then result else result + [Str(TruncatedStr(o.marker, remaining, o.marker))]
  }

  function FinishItems(o: Options, total: int, result: seq<Value>, remaining: int): Outcome<Value> {
    if |result| < total && remaining > 0 then Outcome(MarkItem(o, result, remaining), 0) else Outcome(result, remaining)
  }

  function ItemFate(o: Options, item: Value, idx: nat, total: nat, remaining: int, depth: int): Fate<Value>
    decreases item, 1
  {
    if idx >= o.maxItems then Cap
    else
      var itemBudget := ItemBudget(o, idx, total, remaining);
      if itemBudget <= 0 then Stop
      else
        var out := Truncate(o, item, itemBudget, depth + 1).0;
        var itemSize := Estimate(o, out, 0);
        if itemSize > itemBudget then Stop else Take(out, itemSize)
  }

  function AcceptItems(
    o: Options, items: seq<Value>, idx: nat, total: nat, result: seq<Value>, remaining: int, depth: int): Outcome<Value>
    decreases items, 0
  {
    if items == [] then FinishItems(o, total, result, remaining)
    else
      match ItemFate(o, items[0], idx, total, remaining, depth)
      case Cap => Outcome(MarkItem(o, result, remaining), 0)
      case Stop => FinishItems(o, total, result, remaining)
      case Take(item, size) => AcceptItems(o, items[1..], idx + 1, total, result + [item], remaining - size, depth)
  }

  function TruncateCollection(o: Options, v: Value, maxBytes: int): Result<Value, TruncationError> {
    if maxBytes < 0 then Err(NegativeMaxBytes) else Ok(Truncate(o, v, maxBytes, 0).0)
  }

  // ---------- The loops ----------

  method EstimateSizeBytes(o: Options, v: Value, depth: int) returns (total: nat)
    ensures total == Estimate(o, v, depth)
    decreases v
  {
    hide Encode, EstimateEntries, EstimateItems;
    match v
    case Null => return 0;
    case Scalar(repr) => return |Encode(repr)|;
    case NonFinite => return |Encode(NONFINITE_FLOAT_REPLACEMENT)|;
    case Str(text) => return |Encode(text)|;
    case Bytes(data) => return |data|;
    case Map(entries) =>
      if depth >= o.maxDepth {
        return |Encode(TRUNCATION_MARKER)|;
      }
      total := EstimateEntriesBytes(o, entries, depth);
    case Seq(_, items) =>
      if depth >= o.maxDepth {
        return |Encode(TRUNCATION_MARKER)|;
      }
      total := EstimateItemsBytes(o, items, depth);
    case Other(form) =>
      if depth >= o.maxDepth {
        return |Encode(TRUNCATION_MARKER)|;
      }
      return |Encode(form)|;
  }

  method EstimateEntriesBytes(o: Options, entries: seq<Entry>, depth: int) returns (total: nat)
    ensures total == EstimateEntries(o, entries, 0, depth)
    decreases entries
  {
    hide Encode, Estimate;
    total := 0;
    for i := 0 to |entries|
      invariant total + EstimateEntries(o, entries[i..], i, depth) == EstimateEntries(o, entries, 0, depth)
    {
      if i >= o.maxItems {
        return total + |Encode(TRUNCATION_MARKER)|;
      }
      assert entries[i..][0] == entries[i] && entries[i..][1..] == entries[i + 1..];
      assert entries[i].key < entries[i] && entries[i].value < entries[i];
      var keySize := EstimateSizeBytes(o, entries[i].key, depth + 1);
      var valueSize := EstimateSizeBytes(o, entries[i].value, depth + 1);
      total := total + keySize + valueSize;
    }
  }

  method EstimateItemsBytes(o: Options, items: seq<Value>, depth: int) returns (total: nat)
    ensures total == EstimateItems(o, items, 0, depth)
    decreases items
  {
    hide Encode, Estimate;
    total := 0;
    for i := 0 to |items|
      invariant total + EstimateItems(o, items[i..], i, depth) == EstimateItems(o, items, 0, depth)
    {
      if i >= o.maxItems {
        return total + |Encode(TRUNCATION_MARKER)|;
      }
      assert items[i..][0] == items[i] && items[i..][1..] == items[i + 1..];
      var itemSize := EstimateSizeBytes(o, items[i], depth + 1);
      total := total + itemSize;
    }
  }

  method TruncateWithBudget(o: Options, v: Value, budget: int, depth: int) returns (out: Value, remaining: int)
    ensures (out, remaining) == Truncate(o, v, budget, depth)
    decreases v, 0
  {
    hide Encode, TruncatedStr, TruncatedBytes, AcceptEntries, AcceptItems;
    if budget <= 0 {
      return Emptied(v), 0;
    }
    match v
    case Null => return v, budget;
    case Scalar(repr) =>
      if |Encode(repr)| <= budget {
        return v, budget - |Encode(repr)|;
      }
      return Str(TruncatedStr(o.marker, budget, o.marker)), 0;
    case NonFinite =>
      var replacement := TruncatedStr(NONFINITE_FLOAT_REPLACEMENT, budget, o.marker);
      return Str(replacement), Left(budget, replacement);
    case Str(text) =>
      if |Encode(text)| <= budget {
        return v, budget - |Encode(text)|;
      }
      var truncated := TruncatedStr(text, budget, o.marker);
      return Str(truncated), Left(budget, truncated);
    case Bytes(data) =>
      if |data| <= budget {
        return v, budget - |data|;
      }
      var truncated := TruncatedBytes(data, budget, Encode(o.marker));
      return Bytes(truncated), budget - |truncated|;
    case Map(entries) =>
      if depth >= o.maxDepth {
        var truncated := TruncatedStr(o.marker, budget, o.marker);
        return Str(truncated), Left(budget, truncated);
      }
      var r, left := TruncateEntries(o, entries, budget, depth);
      return Map(r), left;
    case Seq(isTuple, items) =>
      if depth >= o.maxDepth {
        var truncated := TruncatedStr(o.marker, budget, o.marker);
        return Str(truncated), Left(budget, truncated);
      }
      var r, left := TruncateItems(o, items, budget, depth);
      return Seq(isTuple, r), left;
    case Other(form) =>
      if depth >= o.maxDepth {
        var truncated := TruncatedStr(o.marker, budget, o.marker);
        return Str(truncated), Left(budget, truncated);
      }
      var truncated := TruncatedStr(form, budget, o.marker);
      return Str(truncated), Left(budget, truncated);
  }

  /** The body of the loop over entries. */
  method TakeEntry(o: Options, e: Entry, idx: nat, total: nat, remaining: int, depth: int) returns (fate: Fate<Entry>)
    ensures fate == EntryFate(o, e, idx, total, remaining, depth)
    decreases e, 1
  {
    hide Truncate, Estimate, OutKey, Encode;
    if idx >= o.maxItems {
      return Cap;
    }
    var itemBudget := remaining - if idx < total - 1 then |Encode(o.marker)| else 0;
    if itemBudget <= 0 {
      return Stop;
    }
    var key := OutKey(o, e.key);
    var keySize := EstimateSizeBytes(o.(maxDepth := 0, maxItems := 0), key, 0);
    if keySize > itemBudget {
      return Stop;
    }
    var value, _ := TruncateWithBudget(o, e.value, itemBudget - keySize, depth + 1);
    var valueSize := EstimateSizeBytes(o, value, 0);
    if keySize + valueSize > itemBudget {
      return Stop;
    }
    return Take(Entry(key, value), keySize + valueSize);
  }

  method TruncateEntries(
    o: Options, entries: seq<Entry>, budget: int, depth: int) returns (result: seq<Entry>, remaining: int)
    ensures Outcome(result, remaining) == AcceptEntries(o, entries, 0, |entries|, [], budget, depth)
    decreases entries, 0
  {
    hide EntryFate;
    var total := |entries|;
    ghost var goal := AcceptEntries(o, entries, 0, total, [], budget, depth);
    result, remaining := [], budget;
    assert entries[0..] == entries;
    for i := 0 to total
      invariant AcceptEntries(o, entries[i..], i, total, result, remaining, depth) == goal
    {
      assert entries[i..][0] == entries[i] && entries[i..][1..] == entries[i + 1..];
      assert entries[i].value < entries[i];
      var fate := TakeEntry(o, entries[i], i, total, remaining, depth);
      match fate {
        case Cap =>
          result := MarkEntry(o, result, remaining);
          return result, 0;
        case Stop => break;
        case Take(e, size) => result, remaining := SetKey(result, e.key, e.value), remaining - size;
      }
    }
    assert FinishEntries(o, total, result, remaining) == goal;
    if |result| < total && remaining > 0 {
      result := MarkEntry(o, result, remaining);
      return result, 0;
    }
  }

  /** The body of the loop over items. */
  method TakeItem(o: Options, item: Value, idx: nat, total: nat, remaining: int, depth: int) returns (fate: Fate<Value>)
    ensures fate == ItemFate(o, item, idx, total, remaining, depth)
    decreases item, 1
  {
    hide Truncate, Estimate, Encode;
    if idx >= o.maxItems {
      return Cap;
    }
    var itemBudget := remaining - if idx < total - 1 then |Encode(o.marker)| else 0;
    if itemBudget <= 0 {
      return Stop;
    }
    var out, _ := TruncateWithBudget(o, item, itemBudget, depth + 1);
    var itemSize := EstimateSizeBytes(o, out, 0);
    if itemSize > itemBudget {
      return Stop;
    }
    return Take(out, itemSize);
  }

  method TruncateItems(
    o: Options, items: seq<Value>, budget: int, depth: int) returns (result: seq<Value>, remaining: int)
    ensures Outcome(result, remaining) == AcceptItems(o, items, 0, |items|, [], budget, depth)
    decreases items, 0
  {
    hide ItemFate;
    var total := |items|;
    ghost var goal := AcceptItems(o, items, 0, total, [], budget, depth);
    result, remaining := [], budget;
    assert items[0..] == items;
    for i := 0 to total
      invariant AcceptItems(o, items[i..], i, total, result, remaining, depth) == goal
    {
      assert items[i..][0] == items[i] && items[i..][1..] == items[i + 1..];
      var fate := TakeItem(o, items[i], i, total, remaining, depth);
      match fate {
        case Cap =>
          result := MarkItem(o, result, remaining);
          return result, 0;
        case Stop => break;
        case Take(item, size) => result, remaining := result + [item], remaining - size;
      }
    }
    assert FinishItems(o, total, result, remaining) == goal;
    if |result| < total && remaining > 0 {
      result := MarkItem(o, result, remaining);
      return result, 0;
    }
  }
}
