/** The codec of src/encoding/mod.rs as it runs: an output buffer and a cursor, both advanced in place. */
module CborCodec {
  import opened Errors
  import opened Integers
  import opened Octets
  import opened Wire
  import opened Cbor
  import opened CborProperties

  // ---- Encoder ----

  class Buffer {
    var octets: Bytes

    constructor ()
      ensures octets == []
    {
      octets := [];
    }

    method Push(octet: byte)
      modifies this
      ensures octets == old(octets) + [octet]
    {
      octets := octets + [octet];
    }

    method ExtendFromSlice(slice: Bytes)
      modifies this
      ensures octets == old(octets) + slice
    {
      octets := octets + slice;
    }
  }

  method EncodeValue(value: CborValue) returns (r: Result<Bytes>)
    ensures r == Encode(value)
  {
    var length := EncodedLength(value, 0);
    if length.None? {
      return Err(Terminal(ErrorCode.BoundExceeded, Representation));
    }
    var output := new Buffer();
    EncodeInto(value, output);
    assert output.octets == EncodeWire(Expand(value));
    return Ok(output.octets);
  }

  method EncodedLength(value: CborValue, depth: nat) returns (r: Option<nat>)
    ensures r == Measure(Expand(value), depth)
    decreases value, 1
  {
    if depth > MAX_DEPTH {
      return None;
    }
    hide HeadLength, MeasureItems, MeasureEntries, ExpandItems, ExpandEntries, SortedKeys, Total, Within;
    match value
    case Null => r := Some(1);
    case Unsigned(number) => r := if number <= MAX_SAFE_INTEGER then Some(HeadLength(number)) else None;
    case ByteString(bytes) =>
      r := if |bytes| <= MAX_RAW_BYTES then Within(HeadLength(|bytes|) + |bytes|) else None;
    case TextString(text) =>
      r := if |text| <= MAX_TEXT_BYTES then Within(HeadLength(|text|) + |text|) else None;
    case Boolean(_) => r := Some(1);
    case Array(items) =>
      if |items| > MAX_COLLECTION_ITEMS {
        return None;
      }
      var length := ItemsLength(items, depth + 1);
      r := Total(HeadLength(|items|), length);
    case Map(entries) =>
      if |entries| > MAX_COLLECTION_ITEMS {
        return None;
      }
      var length := EntriesLength(value, SortedKeys(entries.Keys), depth + 1);
      r := Total(HeadLength(|entries|), length);
  }

  method ItemsLength(items: seq<CborValue>, depth: nat) returns (r: Option<nat>)
    ensures r == MeasureItems(ExpandItems(items), depth)
    decreases items
  {
    ghost var whole := MeasureItems(ExpandItems(items), depth);
    var length: nat := 0;
    for i := 0 to |items|
      invariant whole == Sum(Some(length), MeasureItems(ExpandItems(items[i..]), depth))
    {
      ItemsStep(items, i);
      var itemLength := EncodedLength(items[i], depth);
      if itemLength.None? {
        return None;
      }
      length := length + itemLength.value;
    }
    r := Some(length);
  }

  method EntriesLength(value: CborValue, keys: seq<nat>, depth: nat) returns (r: Option<nat>)
    requires value.Map? && forall k | k in keys :: k in value.entries
    ensures r == MeasureEntries(ExpandEntries(value, keys), depth)
    decreases value, 0
  {
    ghost var whole := MeasureEntries(ExpandEntries(value, keys), depth);
    var length: nat := 0;
    for i := 0 to |keys|
      invariant whole == Sum(Some(length), MeasureEntries(ExpandEntries(value, keys[i..]), depth))
    {
      EntriesStep(value, keys, i);
      hide HeadLength, Expand;
      if keys[i] > MAX_SAFE_INTEGER {
        return None;
      }
      var valueLength := EncodedLength(value.entries[keys[i]], depth);
      if valueLength.None? {
        return None;
      }
      length := length + HeadLength(keys[i]) + valueLength.value;
    }
    r := Some(length);
  }

  lemma ItemsStep(items: seq<CborValue>, i: nat)
    requires i < |items|
    ensures ExpandItems(items[i..]) == [Expand(items[i])] + ExpandItems(items[i + 1..])
    ensures ExpandItems(items[i..])[1..] == ExpandItems(items[i + 1..])
  {
    assert items[i..][0] == items[i] && items[i..][1..] == items[i + 1..];
  }

  lemma EntriesStep(v: CborValue, keys: seq<nat>, i: nat)
    requires v.Map? && (forall k | k in keys :: k in v.entries) && i < |keys|
    ensures var e := Entry(keys[i], Expand(v.entries[keys[i]]));
            && ExpandEntries(v, keys[i..]) == [e] + ExpandEntries(v, keys[i + 1..])
            && ExpandEntries(v, keys[i..])[1..] == ExpandEntries(v, keys[i + 1..])
  {
    assert keys[i..][0] == keys[i] && keys[i..][1..] == keys[i + 1..];
  }

  method EncodeInto(value: CborValue, output: Buffer)
    modifies output
    ensures output.octets == old(output.octets) + EncodeWire(Expand(value))
    decreases value, 1
  {
    hide EncodeItems, EncodeEntries, ExpandItems, ExpandEntries, SortedKeys;
    match value
    case Null => output.Push(0xf6);
    case Unsigned(number) => WriteHead(0, number, output);
    case ByteString(bytes) =>
      WriteHead(2, |bytes|, output);
      output.ExtendFromSlice(bytes);
    case TextString(text) =>
      WriteHead(3, |text|, output);
      output.ExtendFromSlice(text);
    case Boolean(flag) => output.Push(if flag then 0xf5 else 0xf4);
    case Array(items) =>
      WriteHead(4, |items|, output);
      EncodeItemsInto(items, output);
    case Map(entries) =>
      WriteHead(5, |entries|, output);
      EncodeEntriesInto(value, SortedKeys(entries.Keys), output);
  }

  method EncodeItemsInto(items: seq<CborValue>, output: Buffer)
    modifies output
    ensures output.octets == old(output.octets) + EncodeItems(ExpandItems(items))
    decreases items
  {
    hide Expand, EncodeWire;
    ghost var target := output.octets + EncodeItems(ExpandItems(items));
    assert items[0..] == items;
    for i := 0 to |items|
      invariant target == output.octets + EncodeItems(ExpandItems(items[i..]))
    {
      ItemsStep(items, i);
      ghost var before := output.octets;
      EncodeInto(items[i], output);
      assert target == before + (EncodeWire(Expand(items[i])) + EncodeItems(ExpandItems(items[i + 1..])));
    }
  }

  method EncodeEntriesInto(value: CborValue, keys: seq<nat>, output: Buffer)
    requires value.Map? && forall k | k in keys :: k in value.entries
    modifies output
    ensures output.octets == old(output.octets) + EncodeEntries(ExpandEntries(value, keys))
    decreases value, 0
  {
    hide Expand, EncodeWire, Head;
    ghost var target := output.octets + EncodeEntries(ExpandEntries(value, keys));
    assert keys[0..] == keys;
    for i := 0 to |keys|
      invariant target == output.octets + EncodeEntries(ExpandEntries(value, keys[i..]))
    {
      EntriesStep(value, keys, i);
      ghost var before := output.octets;
      ghost var entry := Entry(keys[i], Expand(value.entries[keys[i]]));
      ghost var rest := EncodeEntries(ExpandEntries(value, keys[i + 1..]));
      WriteHead(0, keys[i], output);
      EncodeInto(value.entries[keys[i]], output);
      assert output.octets == before + EncodeEntry(entry);
      assert target == before + (EncodeEntry(entry) + rest);
    }
  }

  method WriteHead(major: nat, value: nat, output: Buffer)
    requires major < 8
    modifies output
    ensures output.octets == old(output.octets) + Head(major, value)
  {
    var prefix := major * 32;
    if value <= 23 {
      output.Push(prefix + value);
    } else if value <= 0xff {
      output.Push(prefix + 24);
      output.ExtendFromSlice(BigEndian(value, 1));
    } else if value <= 0xffff {
      output.Push(prefix + 25);
      output.ExtendFromSlice(BigEndian(value, 2));
    } else if value <= 0xffff_ffff {
      output.Push(prefix + 26);
      output.ExtendFromSlice(BigEndian(value, 4));
    } else {
      output.Push(prefix + 27);
      output.ExtendFromSlice(BigEndian(value, 8));
    }
  }

  // ---- Decoder ----

  datatype Step<+T> = Done(value: T) | Stopped(failure: DecodeFailure) {
    predicate IsFailure() { Stopped? }

    function PropagateFailure<U>(): Step<U>
      requires Stopped?
    {
      Stopped(failure)
    }

    function Extract(): T
      requires Done?
    {
      value
    }
  }

  class Decoder {
    const bytes: Bytes
    var offset: nat

    constructor (bytes: Bytes)
      ensures this.bytes == bytes && offset == 0
    {
      this.bytes := bytes;
      offset := 0;
    }

    method Byte() returns (r: Step<byte>)
      modifies this
      ensures match ParseByte(bytes, old(offset))
              case Read(value, next) => r == Done(value) && offset == next
              case Fail(failure) => r == Stopped(failure)
    {
      if offset >= |bytes| {
        return Stopped(Invalid);
      }
      r := Done(bytes[offset]);
      offset := offset + 1;
    }

    /** A big-endian integer of fixed width. */
    method FixedWidth(width: nat) returns (r: Step<nat>)
      modifies this
      ensures match ParseFixed(bytes, old(offset), width)
              case Read(value, next) => r == Done(value) && offset == next
              case Fail(failure) => r == Stopped(failure)
    {
      var end := offset + width;
      if end > |bytes| {
        return Stopped(Invalid);
      }
      r := Done(FromBigEndian(bytes[offset..end]));
      offset := end;
    }

    method Argument(additional: nat) returns (r: Step<nat>)
      modifies this
      ensures match ParseArgument(bytes, old(offset), additional)
              case Read(value, next) => r == Done(value) && offset == next
              case Fail(failure) => r == Stopped(failure)
    {
      if additional <= 23 {
        return Done(additional);
      } else if additional == 24 {
        var value :- FixedWidth(1);
        r := if value >= 24 then Done(value) else Stopped(NonCanonical);
      } else if additional == 25 {
        var value :- FixedWidth(2);
        r := if value > 0xff then Done(value) else Stopped(NonCanonical);
      } else if additional == 26 {
        var value :- FixedWidth(4);
        r := if value > 0xffff then Done(value) else Stopped(NonCanonical);
      } else if additional == 27 {
        var value :- FixedWidth(8);
        r := if value > 0xffff_ffff then Done(value) else Stopped(NonCanonical);
      } else if additional == 31 {
        r := Stopped(IndefiniteLength);
      } else {
        r := Stopped(Invalid);
      }
    }

    method Slice(additional: nat, bound: nat) returns (r: Step<Bytes>)
      modifies this
      ensures match ParseSlice(bytes, old(offset), additional, bound)
              case Read(value, next) => r == Done(value) && offset == next
              case Fail(failure) => r == Stopped(failure)
    {
      var length :- Argument(additional);
      if length > bound {
        return Stopped(DecodeFailure.BoundExceeded);
      }
      var end := offset + length;
      if end > |bytes| {
        return Stopped(Invalid);
      }
      r := Done(bytes[offset..end]);
      offset := end;
    }

    method CollectionLength(additional: nat) returns (r: Step<nat>)
      modifies this
      ensures match ParseCollectionLength(bytes, old(offset), additional)
              case Read(value, next) => r == Done(value) && offset == next
              case Fail(failure) => r == Stopped(failure)
    {
      var length :- Argument(additional);
      r := if length > MAX_COLLECTION_ITEMS then Stopped(DecodeFailure.BoundExceeded) else Done(length);
    }

    method MapLabel() returns (r: Step<nat>)
      modifies this
      ensures match ParseLabel(bytes, old(offset))
              case Read(value, next) => r == Done(value) && offset == next
              case Fail(failure) => r == Stopped(failure)
    {
      var initial :- Byte();
      if initial / 32 == 1 {
        var _ :- Argument(initial % 32);
        return Stopped(NegativeLabel);
      }
      if initial / 32 != 0 {
        return Stopped(Invalid);
      }
      var key :- Argument(initial % 32);
      r := if key > MAX_SAFE_INTEGER then Stopped(DecodeFailure.BoundExceeded) else Done(key);
    }

    method ReadValue(depth: nat) returns (r: Step<CborValue>)
      modifies this
      ensures match ParseWire(bytes, old(offset), depth)
              case Read(w, next) => r == Done(Collapse(w)) && offset == next
              case Fail(failure) => r == Stopped(failure)
      decreases MAX_DEPTH + 1 - depth, 1
    {
      hide ParseItems, ParseEntries, ParseSlice, ParseArgument, CollapseItems, CollapseEntries, ValidUtf8;
      if depth > MAX_DEPTH {
        return Stopped(DecodeFailure.BoundExceeded);
      }
      var initial :- Byte();
      var additional := initial % 32;
      match initial / 32
      case 0 =>
        var number :- Argument(additional);
        r := if number > MAX_SAFE_INTEGER then Stopped(DecodeFailure.BoundExceeded) else Done(Unsigned(number));
      case 2 =>
        var slice :- Slice(additional, MAX_RAW_BYTES);
        r := Done(ByteString(slice));
      case 3 =>
        var text :- Slice(additional, MAX_TEXT_BYTES);
        r := if ValidUtf8(text) then Done(TextString(text)) else Stopped(Invalid);
      case 4 =>
        var length :- CollectionLength(additional);
        var items :- ReadItems(depth + 1, length);
        r := Done(Array(items));
      case 5 =>
        var length :- CollectionLength(additional);
        var entries :- ReadEntries(depth + 1, length);
        r := Done(Map(entries));
      case 7 =>
        r := if initial == 0xf4 then Done(Boolean(false))
             else if initial == 0xf5 then Done(Boolean(true))
             else if initial == 0xf6 then Done(Null)
             else Stopped(Invalid);
      case _ =>
        var _ :- Argument(additional);
        r := Stopped(Invalid);
    }

    method ReadItems(depth: nat, length: nat) returns (r: Step<seq<CborValue>>)
      modifies this
      ensures match ParseItems(bytes, old(offset), depth, length)
              case Read(items, next) => r == Done(CollapseItems(items)) && offset == next
              case Fail(failure) => r == Stopped(failure)
      decreases MAX_DEPTH + 1 - depth, 2
    {
      hide ParseWire, Collapse;
      ghost var whole := ParseItems(bytes, offset, depth, length);
      var values := [];
      for i := 0 to length
        invariant match ParseItems(bytes, offset, depth, length - i)
                  case Read(rest, next) =>
                    whole.Read? && whole.next == next && CollapseItems(whole.value) == values + CollapseItems(rest)
                  case Fail(failure) => whole == Fail(failure)
      {
        var value :- ReadValue(depth);
        values := values + [value];
      }
      assert values + [] == values;
      r := Done(values);
    }

    method ReadEntries(depth: nat, length: nat) returns (r: Step<map<nat, CborValue>>)
      modifies this
      ensures match ParseEntries(bytes, old(offset), depth, length, {})
              case Read(entries, next) => r == Done(CollapseEntries(entries)) && offset == next
              case Fail(failure) => r == Stopped(failure)
      decreases MAX_DEPTH + 1 - depth, 2
    {
      hide ParseWire, ParseLabel, Collapse;
      ghost var whole := ParseEntries(bytes, offset, depth, length, {});
      var values: map<nat, CborValue> := map[];
      assert values.Keys == {};
      for i := 0 to length
        invariant EntriesInProgress(whole, ParseEntries(bytes, offset, depth, length - i, values.Keys), values)
      {
        ghost var at := offset;
        var key :- MapLabel();
        var value :- ReadValue(depth);
        if key in values {
          return Stopped(DuplicateLabel);
        }
        EntriesAdvance(whole, bytes, at, depth, length - i, values);
        values := values[key := value];
      }
      assert map[] + values == values;
      r := Done(values);
    }
  }

  lemma EntriesAdvance(
    whole: Parsed<seq<Entry>>, b: Bytes, at: nat, depth: nat, count: nat, values: map<nat, CborValue>)
    requires count > 0 && ParseLabel(b, at).Read? && ParseLabel(b, at).value !in values
    requires ParseWire(b, ParseLabel(b, at).next, depth).Read?
    requires EntriesInProgress(whole, ParseEntries(b, at, depth, count, values.Keys), values)
    ensures var key := ParseLabel(b, at).value;
            var read := ParseWire(b, ParseLabel(b, at).next, depth);
            var more := values[key := Collapse(read.value)];
            EntriesInProgress(whole, ParseEntries(b, read.next, depth, count - 1, more.Keys), more)
  {
    hide ParseLabel, ParseWire, Collapse;
    var key := ParseLabel(b, at).value;
    var read := ParseWire(b, ParseLabel(b, at).next, depth);
    var more := values[key := Collapse(read.value)];
    assert more.Keys == values.Keys + {key};
    var pending := ParseEntries(b, at, depth, count, values.Keys);
    var rest := ParseEntries(b, read.next, depth, count - 1, more.Keys);
    if rest.Read? {
      assert pending.value[1..] == rest.value && pending.value[0] == Entry(key, read.value);
      assert CollapseEntries(pending.value) + values == CollapseEntries(rest.value) + more;
    }
  }

  /** The entries read so far and those still to read make up the whole map. */
  ghost predicate EntriesInProgress(
    whole: Parsed<seq<Entry>>, pending: Parsed<seq<Entry>>, values: map<nat, CborValue>)
  {
    match pending
    case Read(rest, next) =>
      whole.Read? && whole.next == next && CollapseEntries(whole.value) == CollapseEntries(rest) + values
    case Fail(failure) => whole == Fail(failure)
  }

  method DecodeValue(bytes: Bytes) returns (r: Decoded)
    ensures r == DecodeDetailed(bytes)
  {
    if |bytes| > MAX_ENCODED_BYTES {
      return Failed(DecodeFailure.BoundExceeded);
    }
    var decoder := new Decoder(bytes);
    var step := decoder.ReadValue(0);
    if step.Stopped? {
      return Failed(step.failure);
    }
    if decoder.offset != |bytes| {
      return Failed(TrailingBytes);
    }
    var again := EncodeValue(step.value);
    if again.Err? {
      return Failed(DecodeFailure.BoundExceeded);
    }
    if again.value != bytes {
      return Failed(NonCanonical);
    }
    return Value(step.value);
  }
}
