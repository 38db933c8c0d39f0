/**
 What the codec of src/encoding/mod.rs promises: a length pre-pass that is exact,
 decoding that inverts encoding, one octet string per value, and a precise account of
 when a readable octet string is refused as non-canonical.
 */
module CborProperties {
  import opened Errors
  import opened Integers
  import opened Octets
  import opened Wire
  import opened Cbor

  /** The strings of a value are Rust strings. */
  predicate WellFormed(v: CborValue) {
    match v
    case TextString(text) => ValidUtf8(text)
    case Array(items) => forall i | 0 <= i < |items| :: WellFormed(items[i])
    case Map(entries) => forall k | k in entries :: WellFormed(entries[k])
    case _ => true
  }

  // ---- The length pre-pass ----

  /** The size bounds every node has to meet, `depth` levels below the root. */
  predicate Fits(w: WireValue, depth: nat) {
    && depth <= 16
    && match w
       case WUnsigned(number) => number <= 9_007_199_254_740_991
       case WBytes(bytes) => |bytes| <= 262_144
       case WText(text) => |text| <= 4_096
       case WArray(items) => |items| <= 64 && ItemsFit(items, depth + 1)
       case WMap(entries) => |entries| <= 64 && EntriesFit(entries, depth + 1)
       case _ => true
  }

  predicate ItemsFit(items: seq<WireValue>, depth: nat) {
    items != [] ==> Fits(items[0], depth) && ItemsFit(items[1..], depth)
  }

  predicate EntriesFit(entries: seq<Entry>, depth: nat) {
    entries != [] ==> EntryFits(entries[0], depth) && EntriesFit(entries[1..], depth)
  }

  predicate EntryFits(entry: Entry, depth: nat) {
    entry.key <= 9_007_199_254_740_991 && Fits(entry.value, depth)
  }

  function Within(length: nat): Option<nat> {
    if length <= 1_048_576 then Some(length) else None
  }

  /** The length of a collection, from its head and its members. */
  function Total(head: nat, members: Option<nat>): Option<nat> {
    if members.Some? then Within(head + members.value) else None
  }

  function Sum(a: Option<nat>, b: Option<nat>): Option<nat> {
    if a.Some? && b.Some? then Some(a.value + b.value) else None
  }

  /** The pre-pass: refuses a node whose bounds or encoded size are exceeded, and adds up lengths. */
  function Measure(w: WireValue, depth: nat): Option<nat> {
    if depth > MAX_DEPTH then None
    else match w
      case WNull => Some(1)
      case WUnsigned(number) => if number <= MAX_SAFE_INTEGER then Some(HeadLength(number)) else None
      case WBytes(bytes) => if |bytes| <= MAX_RAW_BYTES then Within(HeadLength(|bytes|) + |bytes|) else None
      case WText(text) => if |text| <= MAX_TEXT_BYTES then Within(HeadLength(|text|) + |text|) else None
      case WBool(_) => Some(1)
      case WArray(items) =>
        if |items| > MAX_COLLECTION_ITEMS then None
        else Total(HeadLength(|items|), MeasureItems(items, depth + 1))
      case WMap(entries) =>
        if |entries| > MAX_COLLECTION_ITEMS then None
        else Total(HeadLength(|entries|), MeasureEntries(entries, depth + 1))
  }

  function MeasureItems(items: seq<WireValue>, depth: nat): Option<nat> {
    if items == [] then Some(0) else Sum(Measure(items[0], depth), MeasureItems(items[1..], depth))
  }

  function MeasureEntries(entries: seq<Entry>, depth: nat): Option<nat> {
    if entries == [] then Some(0) else Sum(MeasureEntry(entries[0], depth), MeasureEntries(entries[1..], depth))
  }

  function MeasureEntry(entry: Entry, depth: nat): Option<nat> {
    if entry.key > MAX_SAFE_INTEGER then None else Sum(Some(HeadLength(entry.key)), Measure(entry.value, depth))
  }

  /** The pre-pass accepts exactly what fits, and then returns the exact number of octets written. */
  lemma {:induction false} MeasureIsExact(w: WireValue, depth: nat)
    ensures Measure(w, depth) == if Fits(w, depth) then Within(|EncodeWire(w)|) else None
    decreases w, 1
  {
    if depth <= MAX_DEPTH {
      match w
      case WArray(items) => MeasureItemsIsExact(items, depth + 1);
      case WMap(entries) => MeasureEntriesIsExact(entries, depth + 1);
      case _ =>
    }
  }

  /** A list measures to its octets, unless a member does not fit or alone exceeds the bound. */
  lemma {:induction false} MeasureItemsIsExact(items: seq<WireValue>, depth: nat)
    ensures var m := MeasureItems(items, depth);
            && (m.Some? ==> ItemsFit(items, depth) && m.value == |EncodeItems(items)|)
            && (ItemsFit(items, depth) && |EncodeItems(items)| <= MAX_ENCODED_BYTES ==> m.Some?)
    decreases items, 1
  {
    if items != [] {
      MeasureIsExact(items[0], depth);
      MeasureItemsIsExact(items[1..], depth);
    }
  }

  lemma {:induction false} MeasureEntriesIsExact(entries: seq<Entry>, depth: nat)
    ensures var m := MeasureEntries(entries, depth);
            && (m.Some? ==> EntriesFit(entries, depth) && m.value == |EncodeEntries(entries)|)
            && (EntriesFit(entries, depth) && |EncodeEntries(entries)| <= MAX_ENCODED_BYTES ==> m.Some?)
    decreases entries, 1
  {
    if entries != [] {
      MeasureEntryIsExact(entries[0], depth);
      MeasureEntriesIsExact(entries[1..], depth);
    }
  }

  lemma {:induction false} MeasureEntryIsExact(entry: Entry, depth: nat)
    ensures var m := MeasureEntry(entry, depth);
            && (m.Some? ==> EntryFits(entry, depth) && m.value == |EncodeEntry(entry)|)
            && (EntryFits(entry, depth) && |EncodeEntry(entry)| <= MAX_ENCODED_BYTES ==> m.Some?)
    decreases entry, 1
  {
    MeasureIsExact(entry.value, depth);
  }

  // ---- Encoding and decoding of values ----

  function Encode(v: CborValue): Result<Bytes> {
    if Measure(Expand(v), 0).Some? then Ok(EncodeWire(Expand(v)))
    else Err(Terminal(ErrorCode.BoundExceeded, Representation))
  }

  datatype Decoded = Value(value: CborValue) | Failed(failure: DecodeFailure)

  /** The decoder: one pass of the cursor, no trailing octets, and a comparison with the re-encoding. */
  function DecodeDetailed(b: Bytes): Decoded {
    if |b| > MAX_ENCODED_BYTES then Failed(DecodeFailure.BoundExceeded)
    else
      match ParseWire(b, 0, 0)
      case Fail(failure) => Failed(failure)
      case Read(w, next) =>
        if next != |b| then Failed(TrailingBytes)
        else match Encode(Collapse(w))
          case Err(_) => Failed(DecodeFailure.BoundExceeded)
          case Ok(again) => if again != b then Failed(NonCanonical) else Value(Collapse(w))
  }

  function IntoError(failure: DecodeFailure): Error {
    match failure
    case BoundExceeded => Terminal(ErrorCode.BoundExceeded, Representation)
    case NonCanonical => Terminal(NonCanonicalRepresentation, Representation)
    case _ => Terminal(InvalidRepresentation, Representation)
  }

  function Decode(b: Bytes): Result<CborValue> {
    match DecodeDetailed(b)
    case Value(v) => Ok(v)
    case Failed(failure) => Err(IntoError(failure))
  }

  // ---- Expanded values are readable ----

  lemma {:induction false} ExpandedIsBounded(v: CborValue, depth: nat)
    requires WellFormed(v) && Fits(Expand(v), depth)
    ensures Bounded(Expand(v), depth)
    decreases v, 1, 0
  {
    match v
    case Array(items) => ExpandedItemsAreBounded(items, depth + 1);
    case Map(entries) =>
      SortedKeysIncrease(entries.Keys, -1);
      ExpandedEntriesAreBounded(v, SortedKeys(entries.Keys), -1, depth + 1, {});
    case _ =>
  }

  lemma {:induction false} ExpandedItemsAreBounded(items: seq<CborValue>, depth: nat)
    requires (forall i | 0 <= i < |items| :: WellFormed(items[i])) && ItemsFit(ExpandItems(items), depth)
    ensures ItemsBounded(ExpandItems(items), depth)
    decreases items, 0, 0
  {
    if items != [] {
      assert ExpandItems(items)[1..] == ExpandItems(items[1..]);
      ExpandedIsBounded(items[0], depth);
      ExpandedItemsAreBounded(items[1..], depth);
    }
  }

  lemma {:induction false} ExpandedEntriesAreBounded(
    v: CborValue, keys: seq<nat>, above: int, depth: nat, seen: set<nat>)
    requires v.Map? && (forall k | k in keys :: k in v.entries && WellFormed(v.entries[k]))
    requires Increasing(keys, above) && (forall k | k in seen :: k <= above)
    requires EntriesFit(ExpandEntries(v, keys), depth)
    ensures EntriesBounded(ExpandEntries(v, keys), depth, seen)
    decreases v, 0, |keys|
  {
    if keys != [] {
      assert ExpandEntries(v, keys)[1..] == ExpandEntries(v, keys[1..]);
      ExpandedIsBounded(v.entries[keys[0]], depth);
      ExpandedEntriesAreBounded(v, keys[1..], keys[0], depth, seen + {keys[0]});
    }
  }

  // ---- Reordering the entries of a map keeps sizes and bounds ----

  /** The octets one entry takes once its value is written canonically. */
  function Weight(v: CborValue, key: nat): nat
    requires v.Map? && key in v.entries
  {
    HeadLength(key) + |EncodeWire(Expand(v.entries[key]))|
  }

  function TotalWeight(v: CborValue, keys: seq<nat>): nat
    requires v.Map? && forall k | k in keys :: k in v.entries
  {
    if keys == [] then 0 else Weight(v, keys[0]) + TotalWeight(v, keys[1..])
  }

  function Without(keys: seq<nat>, key: nat): (r: seq<nat>)
    ensures forall k | k in r :: k in keys
  {
    if keys == [] then [] else if keys[0] == key then keys[1..] else [keys[0]] + Without(keys[1..], key)
  }

  lemma {:induction false} WithoutTakesOne(v: CborValue, keys: seq<nat>, key: nat)
    requires v.Map? && (forall k | k in keys :: k in v.entries) && NoRepeats(keys) && key in keys
    ensures TotalWeight(v, keys) == Weight(v, key) + TotalWeight(v, Without(keys, key))
    ensures NoRepeats(Without(keys, key)) && forall k :: k in Without(keys, key) <==> k in keys && k != key
  {
    if keys[0] != key {
      WithoutTakesOne(v, keys[1..], key);
      assert Without(keys, key)[1..] == Without(keys[1..], key);
    }
    assert keys == [keys[0]] + keys[1..];
  }

  /** The total does not depend on the order in which the labels are listed. */
  lemma {:induction false} TotalWeightIgnoresOrder(v: CborValue, x: seq<nat>, y: seq<nat>)
    requires v.Map? && (forall k | k in x :: k in v.entries) && NoRepeats(x) && NoRepeats(y)
    requires forall k :: k in x <==> k in y
    ensures |x| == |y| && TotalWeight(v, x) == TotalWeight(v, y)
  {
    if x == [] {
      assert forall k :: k !in y;
      assert y == [];
    } else {
      assert x == [x[0]] + x[1..];
      assert x[0] in y;
      WithoutTakesOne(v, y, x[0]);
      TotalWeightIgnoresOrder(v, x[1..], Without(y, x[0]));
      WithoutLength(y, x[0]);
    }
  }

  lemma {:induction false} WithoutLength(keys: seq<nat>, key: nat)
    requires key in keys
    ensures |Without(keys, key)| == |keys| - 1
  {
    if keys[0] != key {
      WithoutLength(keys[1..], key);
    }
  }

  lemma {:induction false} BoundedLabelsDoNotRepeat(entries: seq<Entry>, depth: nat, seen: set<nat>)
    requires EntriesBounded(entries, depth, seen)
    ensures NoRepeats(Labels(entries)) && forall k | k in Labels(entries) :: k !in seen
  {
    if entries != [] {
      BoundedLabelsDoNotRepeat(entries[1..], depth, seen + {entries[0].key});
      assert Labels(entries)[1..] == Labels(entries[1..]);
    }
  }

  /** Putting every map of a readable tree in order changes neither its size nor whether it fits. */
  lemma {:induction false} SortingKeepsSize(w: WireValue, depth: nat)
    requires Bounded(w, depth)
    ensures Fits(Expand(Collapse(w)), depth) && |EncodeWire(Expand(Collapse(w)))| == |EncodeWire(w)|
    decreases w, 1
  {
    match w
    case WArray(items) => SortingKeepsItemSizes(items, depth + 1);
    case WMap(entries) => SortingKeepsMapSize(entries, depth + 1);
    case _ =>
  }

  lemma {:induction false} SortingKeepsItemSizes(items: seq<WireValue>, depth: nat)
    requires ItemsBounded(items, depth)
    ensures ItemsFit(ExpandItems(CollapseItems(items)), depth)
    ensures |EncodeItems(ExpandItems(CollapseItems(items)))| == |EncodeItems(items)|
    decreases items, 1
  {
    if items != [] {
      SortingKeepsSize(items[0], depth);
      SortingKeepsItemSizes(items[1..], depth);
      assert CollapseItems(items)[1..] == CollapseItems(items[1..]);
      var sorted := ExpandItems(CollapseItems(items));
      assert sorted[1..] == ExpandItems(CollapseItems(items[1..]));
    }
  }

  lemma {:induction false} SortingKeepsMapSize(entries: seq<Entry>, depth: nat)
    requires EntriesBounded(entries, depth, {})
    ensures var v := Map(CollapseEntries(entries));
            var sorted := ExpandEntries(v, SortedKeys(v.entries.Keys));
            |sorted| == |entries| && EntriesFit(sorted, depth) && |EncodeEntries(sorted)| == |EncodeEntries(entries)|
    decreases entries, 2
  {
    var v := Map(CollapseEntries(entries));
    var keys := SortedKeys(v.entries.Keys);
    CollapsedLabels(entries);
    BoundedLabelsDoNotRepeat(entries, depth, {});
    SortedKeysDoNotRepeat(v.entries.Keys);
    TotalWeightIgnoresOrder(v, Labels(entries), keys);
    EntriesWeigh(entries, depth, {}, v);
    ExpandedEntriesWeigh(v, keys, depth);
  }

  /** The size of a list of entries is the total weight of its labels in the collapsed map. */
  lemma {:induction false} EntriesWeigh(entries: seq<Entry>, depth: nat, seen: set<nat>, v: CborValue)
    requires EntriesBounded(entries, depth, seen) && v.Map?
    requires forall k | k in CollapseEntries(entries) :: k in v.entries && v.entries[k] == CollapseEntries(entries)[k]
    ensures forall k | k in Labels(entries) :: k in v.entries && k <= MAX_SAFE_INTEGER && Fits(Expand(v.entries[k]), depth)
    ensures TotalWeight(v, Labels(entries)) == |EncodeEntries(entries)|
    decreases entries, 1
  {
    if entries != [] {
      var rest := entries[1..];
      SortingKeepsEntrySize(entries[0], depth);
      BoundedLabelsDoNotRepeat(rest, depth, seen + {entries[0].key});
      CollapsedLabels(rest);
      EntriesWeigh(rest, depth, seen + {entries[0].key}, v);
      assert v.entries[entries[0].key] == CollapseEntry(entries[0]);
      assert Labels(entries)[1..] == Labels(rest);
    }
  }

  lemma {:induction false} SortingKeepsEntrySize(entry: Entry, depth: nat)
    requires EntryBounded(entry, depth)
    ensures Fits(Expand(CollapseEntry(entry)), depth)
    ensures HeadLength(entry.key) + |EncodeWire(Expand(CollapseEntry(entry)))| == |EncodeEntry(entry)|
    decreases entry, 1
  {
    SortingKeepsSize(entry.value, depth);
  }

  lemma {:induction false} ExpandedEntriesWeigh(v: CborValue, keys: seq<nat>, depth: nat)
    requires v.Map?
    requires forall k | k in keys :: k in v.entries && k <= MAX_SAFE_INTEGER && Fits(Expand(v.entries[k]), depth)
    ensures EntriesFit(ExpandEntries(v, keys), depth)
    ensures |EncodeEntries(ExpandEntries(v, keys))| == TotalWeight(v, keys)
  {
    if keys != [] {
      ExpandedEntriesWeigh(v, keys[1..], depth);
      assert ExpandEntries(v, keys)[1..] == ExpandEntries(v, keys[1..]);
    }
  }

  // ---- Main results ----

  /** Whatever encodes decodes to itself, even in front of other octets. */
  lemma EncodedIsReadBack(v: CborValue, rest: Bytes)
    requires WellFormed(v) && Encode(v).Ok?
    ensures var e := Encode(v).value;
            |e| <= MAX_ENCODED_BYTES && ParseWire(e + rest, 0, 0) == Read(Expand(v), |e|)
  {
    var w := Expand(v);
    MeasureIsExact(w, 0);
    ExpandedIsBounded(v, 0);
    assert Holds(EncodeWire(w) + rest, 0, EncodeWire(w));
    ReadsWhatIsWritten(w, EncodeWire(w) + rest, 0, 0);
  }

  lemma DecodeInvertsEncode(v: CborValue)
    requires WellFormed(v) && Encode(v).Ok?
    ensures DecodeDetailed(Encode(v).value) == Value(v)
    ensures Decode(Encode(v).value) == Ok(v)
  {
    var e := Encode(v).value;
    EncodedIsReadBack(v, []);
    assert e + [] == e;
    CollapseInvertsExpand(v);
  }

  /** A value has one accepted octet string: decoding succeeds on exactly the encodings. */
  lemma DecodeAcceptsExactlyEncodings(b: Bytes, v: CborValue)
    requires WellFormed(v)
    ensures Decode(b) == Ok(v) <==> Encode(v) == Ok(b)
  {
    if Encode(v) == Ok(b) {
      DecodeInvertsEncode(v);
    }
  }

  /** Distinct values have distinct encodings, and neither is a prefix of the other. */
  lemma EncodingsArePrefixFree(v: CborValue, u: CborValue, rest: Bytes)
    requires WellFormed(v) && WellFormed(u) && Encode(v).Ok? && Encode(u).Ok?
    requires Encode(u).value == Encode(v).value + rest
    ensures u == v && rest == []
  {
    EncodedIsReadBack(v, rest);
    EncodedIsReadBack(u, []);
    assert Encode(u).value + [] == Encode(u).value;
    CollapseInvertsExpand(v);
    CollapseInvertsExpand(u);
  }

  /** Decoded values are well formed, so they can be encoded again. */
  lemma {:induction false} CollapsedIsWellFormed(w: WireValue, depth: nat)
    requires Bounded(w, depth)
    ensures WellFormed(Collapse(w))
    decreases w, 1
  {
    match w
    case WArray(items) => CollapsedItemsAreWellFormed(items, depth + 1);
    case WMap(entries) => CollapsedEntriesAreWellFormed(entries, depth + 1, {});
    case _ =>
  }

  lemma {:induction false} CollapsedItemsAreWellFormed(items: seq<WireValue>, depth: nat)
    requires ItemsBounded(items, depth)
    ensures forall i | 0 <= i < |items| :: WellFormed(CollapseItems(items)[i])
    decreases items, 1
  {
    if items != [] {
      CollapsedIsWellFormed(items[0], depth);
      CollapsedItemsAreWellFormed(items[1..], depth);
    }
  }

  lemma {:induction false} CollapsedEntriesAreWellFormed(entries: seq<Entry>, depth: nat, seen: set<nat>)
    requires EntriesBounded(entries, depth, seen)
    ensures forall k | k in CollapseEntries(entries) :: WellFormed(CollapseEntries(entries)[k])
    decreases entries, 1
  {
    if entries != [] {
      CollapsedEntryIsWellFormed(entries[0], depth);
      CollapsedEntriesAreWellFormed(entries[1..], depth, seen + {entries[0].key});
    }
  }

  lemma {:induction false} CollapsedEntryIsWellFormed(entry: Entry, depth: nat)
    requires EntryBounded(entry, depth)
    ensures WellFormed(CollapseEntry(entry))
    decreases entry, 1
  {
    CollapsedIsWellFormed(entry.value, depth);
  }

  /**
   When the cursor reads the whole input, re-encoding succeeds with the same length, and
   the comparison refuses the input exactly when some map is out of ascending order.
   */
  lemma WholeReadsAreCanonicalWhenAscending(b: Bytes)
    requires |b| <= MAX_ENCODED_BYTES
    requires ParseWire(b, 0, 0).Read? && ParseWire(b, 0, 0).next == |b|
    ensures var w := ParseWire(b, 0, 0).value;
            && WellFormed(Collapse(w))
            && Encode(Collapse(w)).Ok? && |Encode(Collapse(w)).value| == |b|
            && DecodeDetailed(b) == if Ascending(w) then Value(Collapse(w)) else Failed(NonCanonical)
  {
    var w := ParseWire(b, 0, 0).value;
    var sorted := Expand(Collapse(w));
    WritesWhatIsRead(b, 0, 0);
    assert b == b[0..|b|] == EncodeWire(w);
    CollapsedIsWellFormed(w, 0);
    SortingKeepsSize(w, 0);
    MeasureIsExact(sorted, 0);
    if Ascending(w) {
      ExpandInvertsCollapse(w);
    } else {
      ExpandAscends(Collapse(w));
      EncodedIsReadBack(Collapse(w), []);
      assert EncodeWire(sorted) + [] == EncodeWire(sorted);
    }
  }

  /** The failure `BoundExceeded` never comes from the re-encoding. */
  lemma ReencodingNeverExceedsBounds(b: Bytes)
    ensures DecodeDetailed(b) == Failed(DecodeFailure.BoundExceeded) <==>
            |b| > MAX_ENCODED_BYTES || ParseWire(b, 0, 0) == Fail(DecodeFailure.BoundExceeded)
  {
    if |b| <= MAX_ENCODED_BYTES && ParseWire(b, 0, 0).Read? && ParseWire(b, 0, 0).next == |b| {
      WholeReadsAreCanonicalWhenAscending(b);
    }
  }
}
