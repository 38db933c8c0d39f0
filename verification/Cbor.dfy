/**
 The closed deterministic CBOR value set (src/encoding/mod.rs): what encoding and
 decoding of values mean, in terms of wire trees, and why they are inverse.
 */
module Cbor {
  import opened Octets
  import opened Wire

  datatype CborValue =
    | Null
    | Unsigned(number: nat)
    | ByteString(bytes: Bytes)
    | TextString(text: Bytes)
    | Boolean(flag: bool)
    | Array(items: seq<CborValue>)
    | Map(entries: map<nat, CborValue>)

  // ---- Ascending iteration over the labels of a map ----

  function Least(s: set<nat>): (k: nat)
    requires s != {}
    ensures k in s && forall other | other in s :: k <= other
  {
    var some :| some in s;
    HasLeast(s, some);
    var k :| k in s && forall other | other in s :: k <= other;
    k
  }

  lemma {:induction false} HasLeast(s: set<nat>, some: nat)
    requires some in s
    ensures exists k :: k in s && forall other | other in s :: k <= other
  {
    if smaller :| smaller in s && smaller < some {
      HasLeast(s, smaller);
    }
  }

  function SortedKeys(s: set<nat>): (keys: seq<nat>)
    ensures |keys| == |s|
    ensures forall k :: k in keys <==> k in s
  {
    if s == {} then [] else [Least(s)] + SortedKeys(s - {Least(s)})
  }

  ghost predicate Increasing(keys: seq<nat>, above: int) {
    keys != [] ==> keys[0] > above && Increasing(keys[1..], keys[0])
  }

  lemma {:induction false} SortedKeysIncrease(s: set<nat>, above: int)
    requires forall k | k in s :: k > above
    ensures Increasing(SortedKeys(s), above)
  {
    if s != {} {
      var rest := s - {Least(s)};
      SortedKeysIncrease(rest, Least(s));
      assert SortedKeys(s)[1..] == SortedKeys(rest);
    }
  }

  lemma {:induction false} IncreasingBounds(keys: seq<nat>, above: int)
    requires Increasing(keys, above)
    ensures forall k | k in keys :: k > above
  {
    if keys != [] {
      IncreasingBounds(keys[1..], keys[0]);
      assert keys == [keys[0]] + keys[1..];
    }
  }

  predicate NoRepeats(keys: seq<nat>) {
    keys != [] ==> keys[0] !in keys[1..] && NoRepeats(keys[1..])
  }

  lemma {:induction false} IncreasingHasNoRepeats(keys: seq<nat>, above: int)
    requires Increasing(keys, above)
    ensures NoRepeats(keys)
  {
    if keys != [] {
      IncreasingHasNoRepeats(keys[1..], keys[0]);
      IncreasingBounds(keys[1..], keys[0]);
    }
  }

  lemma SortedKeysDoNotRepeat(s: set<nat>)
    ensures NoRepeats(SortedKeys(s))
  {
    SortedKeysIncrease(s, -1);
    IncreasingHasNoRepeats(SortedKeys(s), -1);
  }

  /** There is only one ascending listing of a set. */
  lemma {:induction false} IncreasingIsSortedKeys(keys: seq<nat>, above: int, s: set<nat>)
    requires Increasing(keys, above) && forall k :: k in keys <==> k in s
    ensures keys == SortedKeys(s)
  {
    if keys == [] {
      assert s == {};
    } else {
      IncreasingBounds(keys[1..], keys[0]);
      assert keys == [keys[0]] + keys[1..];
      assert keys[0] in s && Least(s) in keys;
      IncreasingIsSortedKeys(keys[1..], keys[0], s - {keys[0]});
    }
  }

  // ---- Values and wire trees ----

  /** The wire tree the encoder writes for a value: map entries in ascending label order. */
  function Expand(v: CborValue): WireValue
    decreases v, 1, 0
  {
    match v
    case Null => WNull
    case Unsigned(number) => WUnsigned(number)
    case ByteString(bytes) => WBytes(bytes)
    case TextString(text) => WText(text)
    case Boolean(flag) => WBool(flag)
    case Array(items) => WArray(ExpandItems(items))
    case Map(entries) => WMap(ExpandEntries(v, SortedKeys(entries.Keys)))
  }

  function ExpandItems(items: seq<CborValue>): (r: seq<WireValue>)
    ensures |r| == |items|
    decreases items, 0, 0
  {
    if items == [] then [] else [Expand(items[0])] + ExpandItems(items[1..])
  }

  function ExpandEntries(v: CborValue, keys: seq<nat>): (r: seq<Entry>)
    requires v.Map? && forall k | k in keys :: k in v.entries
    ensures |r| == |keys|
    decreases v, 0, |keys|
  {
    if keys == [] then []
    else [Entry(keys[0], Expand(v.entries[keys[0]]))] + ExpandEntries(v, keys[1..])
  }

  /** The value a wire tree denotes, whatever the order of its map entries. */
  function Collapse(w: WireValue): CborValue {
    match w
    case WNull => Null
    case WUnsigned(number) => Unsigned(number)
    case WBytes(bytes) => ByteString(bytes)
    case WText(text) => TextString(text)
    case WBool(flag) => Boolean(flag)
    case WArray(items) => Array(CollapseItems(items))
    case WMap(entries) => Map(CollapseEntries(entries))
  }

  function CollapseItems(items: seq<WireValue>): (r: seq<CborValue>)
    ensures |r| == |items|
  {
    if items == [] then [] else [Collapse(items[0])] + CollapseItems(items[1..])
  }

  function CollapseEntries(entries: seq<Entry>): map<nat, CborValue> {
    if entries == [] then map[]
    else CollapseEntries(entries[1..])[entries[0].key := CollapseEntry(entries[0])]
  }

  function CollapseEntry(entry: Entry): CborValue {
    Collapse(entry.value)
  }

  /** Every map in the tree lists its labels in strictly ascending order. */
  predicate Ascending(w: WireValue) {
    match w
    case WArray(items) => ItemsAscending(items)
    case WMap(entries) => EntriesAscending(entries, -1)
    case _ => true
  }

  predicate ItemsAscending(items: seq<WireValue>) {
    items != [] ==> Ascending(items[0]) && ItemsAscending(items[1..])
  }

  predicate EntriesAscending(entries: seq<Entry>, above: int) {
    entries != [] ==>
      entries[0].key > above && EntryAscending(entries[0]) && EntriesAscending(entries[1..], entries[0].key)
  }

  predicate EntryAscending(entry: Entry) {
    Ascending(entry.value)
  }

  lemma {:induction false} ExpandAscends(v: CborValue)
    ensures Ascending(Expand(v))
    decreases v, 1, 0
  {
    match v
    case Array(items) => ExpandItemsAscend(items);
    case Map(entries) =>
      SortedKeysIncrease(entries.Keys, -1);
      ExpandEntriesAscend(v, SortedKeys(entries.Keys), -1);
    case _ =>
  }

  lemma {:induction false} ExpandItemsAscend(items: seq<CborValue>)
    ensures ItemsAscending(ExpandItems(items))
    decreases items, 0, 0
  {
    if items != [] {
      ExpandAscends(items[0]);
      ExpandItemsAscend(items[1..]);
      assert ExpandItems(items)[1..] == ExpandItems(items[1..]);
    }
  }

  lemma {:induction false} ExpandEntriesAscend(v: CborValue, keys: seq<nat>, above: int)
    requires v.Map? && (forall k | k in keys :: k in v.entries) && Increasing(keys, above)
    ensures EntriesAscending(ExpandEntries(v, keys), above)
    decreases v, 0, |keys|
  {
    if keys != [] {
      ExpandAscends(v.entries[keys[0]]);
      ExpandEntriesAscend(v, keys[1..], keys[0]);
      assert ExpandEntries(v, keys)[1..] == ExpandEntries(v, keys[1..]);
    }
  }

  /** Expanding loses nothing. */
  lemma {:induction false} CollapseInvertsExpand(v: CborValue)
    ensures Collapse(Expand(v)) == v
    decreases v, 1, 0
  {
    match v
    case Array(items) => CollapseInvertsExpandItems(items);
    case Map(entries) =>
      SortedKeysIncrease(entries.Keys, -1);
      CollapseInvertsExpandEntries(v, SortedKeys(entries.Keys), -1);
    case _ =>
  }

  lemma {:induction false} CollapseInvertsExpandItems(items: seq<CborValue>)
    ensures CollapseItems(ExpandItems(items)) == items
    decreases items, 0, 0
  {
    if items != [] {
      CollapseInvertsExpand(items[0]);
      CollapseInvertsExpandItems(items[1..]);
      assert ExpandItems(items)[1..] == ExpandItems(items[1..]);
    }
  }

  lemma {:induction false} CollapseInvertsExpandEntries(v: CborValue, keys: seq<nat>, above: int)
    requires v.Map? && (forall k | k in keys :: k in v.entries) && Increasing(keys, above)
    ensures CollapseEntries(ExpandEntries(v, keys)) == map k | k in keys :: v.entries[k]
    decreases v, 0, |keys|
  {
    if keys != [] {
      CollapseInvertsExpand(v.entries[keys[0]]);
      CollapseInvertsExpandEntries(v, keys[1..], keys[0]);
      IncreasingBounds(keys[1..], keys[0]);
      assert ExpandEntries(v, keys)[1..] == ExpandEntries(v, keys[1..]);
    }
  }

  function Labels(entries: seq<Entry>): (keys: seq<nat>)
    ensures |keys| == |entries|
  {
    if entries == [] then [] else [entries[0].key] + Labels(entries[1..])
  }

  lemma {:induction false} CollapsedLabels(entries: seq<Entry>)
    ensures forall k :: k in Labels(entries) <==> k in CollapseEntries(entries)
  {
    if entries != [] {
      CollapsedLabels(entries[1..]);
    }
  }

  /** A tree in canonical order is the one the encoder writes for its value. */
  lemma {:induction false} ExpandInvertsCollapse(w: WireValue)
    requires Ascending(w)
    ensures Expand(Collapse(w)) == w
    decreases w, 1
  {
    match w
    case WArray(items) => ExpandInvertsCollapseItems(items);
    case WMap(entries) =>
      AscendingLabels(entries, -1);
      CollapsedLabels(entries);
      var m := CollapseEntries(entries);
      IncreasingIsSortedKeys(Labels(entries), -1, m.Keys);
      ExpandInvertsCollapseEntries(entries, -1, Map(m));
    case _ =>
  }

  lemma {:induction false} ExpandInvertsCollapseItems(items: seq<WireValue>)
    requires ItemsAscending(items)
    ensures ExpandItems(CollapseItems(items)) == items
    decreases items, 1
  {
    if items != [] {
      ExpandInvertsCollapse(items[0]);
      ExpandInvertsCollapseItems(items[1..]);
      assert CollapseItems(items)[1..] == CollapseItems(items[1..]);
    }
  }

  lemma {:induction false} AscendingLabels(entries: seq<Entry>, above: int)
    requires EntriesAscending(entries, above)
    ensures Increasing(Labels(entries), above)
  {
    if entries != [] {
      AscendingLabels(entries[1..], entries[0].key);
      assert Labels(entries)[1..] == Labels(entries[1..]);
    }
  }

  lemma {:induction false} ExpandInvertsCollapseEntries(entries: seq<Entry>, above: int, v: CborValue)
    requires EntriesAscending(entries, above) && v.Map?
    requires forall k | k in CollapseEntries(entries) :: k in v.entries && v.entries[k] == CollapseEntries(entries)[k]
    requires forall k | k in Labels(entries) :: k in v.entries
    ensures ExpandEntries(v, Labels(entries)) == entries
    decreases entries, 1
  {
    if entries != [] {
      var rest := entries[1..];
      AscendingLabels(rest, entries[0].key);
      IncreasingBounds(Labels(rest), entries[0].key);
      CollapsedLabels(rest);
      ExpandInvertsCollapseEntry(entries[0]);
      ExpandInvertsCollapseEntries(rest, entries[0].key, v);
      assert Labels(entries)[1..] == Labels(rest);
      assert v.entries[entries[0].key] == CollapseEntry(entries[0]);
      assert entries == [entries[0]] + rest;
    }
  }

  lemma {:induction false} ExpandInvertsCollapseEntry(entry: Entry)
    requires EntryAscending(entry)
    ensures Entry(entry.key, Expand(CollapseEntry(entry))) == entry
    decreases entry, 1
  {
    ExpandInvertsCollapse(entry.value);
  }
}
