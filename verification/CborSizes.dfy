/** Sizes of encoded maps and arrays, read off their members: what record codecs need to know. */
module CborSizes {
  import opened Integers
  import opened Wire
  import opened Cbor
  import opened CborProperties

  /** A map fits when its entries do, and takes its head and the weights of its entries. */
  lemma MapSize(v: CborValue, depth: nat)
    requires v.Map? && depth <= MAX_DEPTH && |v.entries| <= MAX_COLLECTION_ITEMS
    requires forall k | k in v.entries :: k <= MAX_SAFE_INTEGER && Fits(Expand(v.entries[k]), depth + 1)
    ensures Fits(Expand(v), depth)
    ensures |EncodeWire(Expand(v))| == HeadLength(|v.entries|) + TotalWeight(v, SortedKeys(v.entries.Keys))
  {
    var keys := SortedKeys(v.entries.Keys);
    ExpandedEntriesWeigh(v, keys, depth + 1);
    assert Expand(v) == WMap(ExpandEntries(v, keys));
  }

  /** The weight of those of the listed labels that the map has. */
  function PresentWeight(v: CborValue, keys: seq<nat>): nat
    requires v.Map?
  {
    if keys == [] then 0
    else (if keys[0] in v.entries then Weight(v, keys[0]) else 0) + PresentWeight(v, keys[1..])
  }

  function Present(v: CborValue, keys: seq<nat>): (r: seq<nat>)
    requires v.Map?
    ensures forall k :: k in r <==> k in keys && k in v.entries
  {
    if keys == [] then []
    else if keys[0] in v.entries then [keys[0]] + Present(v, keys[1..])
    else Present(v, keys[1..])
  }

  lemma {:induction false} PresentKeepsWeight(v: CborValue, keys: seq<nat>)
    requires v.Map? && NoRepeats(keys)
    ensures NoRepeats(Present(v, keys)) && TotalWeight(v, Present(v, keys)) == PresentWeight(v, keys)
  {
    if keys != [] {
      PresentKeepsWeight(v, keys[1..]);
      if keys[0] in v.entries {
        assert Present(v, keys)[1..] == Present(v, keys[1..]);
      }
    }
  }

  /** A record's weight can be counted over any listing of the labels it may have. */
  lemma RecordWeight(v: CborValue, keys: seq<nat>)
    requires v.Map? && NoRepeats(keys) && forall k | k in v.entries :: k in keys
    ensures TotalWeight(v, SortedKeys(v.entries.Keys)) == PresentWeight(v, keys)
  {
    PresentKeepsWeight(v, keys);
    SortedKeysDoNotRepeat(v.entries.Keys);
    TotalWeightIgnoresOrder(v, SortedKeys(v.entries.Keys), Present(v, keys));
  }

  lemma OneMore(n: nat, most: nat)
    requires n > 0
    ensures n * most == (n - 1) * most + most
  {
  }

  lemma {:induction false} WeightAtMost(v: CborValue, keys: seq<nat>, most: nat)
    requires v.Map? && forall k | k in keys :: k in v.entries && Weight(v, k) <= most
    ensures TotalWeight(v, keys) <= |keys| * most
  {
    hide Weight;
    if keys != [] {
      OneMore(|keys|, most);
      WeightAtMost(v, keys[1..], most);
    }
  }

  lemma {:induction false} ItemsSizeAtMost(items: seq<CborValue>, depth: nat, most: nat)
    requires forall i | i in items :: Fits(Expand(i), depth) && |EncodeWire(Expand(i))| <= most
    ensures ItemsFit(ExpandItems(items), depth)
    ensures |EncodeItems(ExpandItems(items))| <= |items| * most
  {
    hide Fits, Expand, EncodeWire;
    if items != [] {
      OneMore(|items|, most);
      ItemsSizeAtMost(items[1..], depth, most);
      assert ExpandItems(items)[1..] == ExpandItems(items[1..]);
      assert items[0] in items;
    }
  }
}
