/**
 The octet grammar of the closed CBOR subset (src/encoding/mod.rs), over wire trees
 that keep map entries in the order in which they stand on the wire.
 `EncodeWire` writes a tree; `ParseWire` is what the cursor decoder reads at an offset.
 */
module Wire {
  import opened Integers
  import opened Octets

  const MAX_DEPTH := 16
  const MAX_COLLECTION_ITEMS := 64
  const MAX_ENCODED_BYTES := 1_048_576
  const MAX_RAW_BYTES := 262_144
  const MAX_TEXT_BYTES := 4_096
  const TWO64 := 0x1_0000_0000_0000_0000

  datatype DecodeFailure =
    | BoundExceeded
    | IndefiniteLength
    | NegativeLabel
    | DuplicateLabel
    | TrailingBytes
    | NonCanonical
    | Invalid

  /** What a cursor step yields: a value and the offset behind it, or the failure. */
  datatype Parsed<+T> = Read(value: T, next: nat) | Fail(failure: DecodeFailure) {
    predicate IsFailure() { Fail? }

    function PropagateFailure<U>(): Parsed<U>
      requires Fail?
    {
      Fail(failure)
    }

    function Extract(): (T, nat)
      requires Read?
    {
      (value, next)
    }
  }

  datatype WireValue =
    | WNull
    | WUnsigned(number: nat)
    | WBytes(bytes: Bytes)
    | WText(text: Bytes)
    | WBool(flag: bool)
    | WArray(items: seq<WireValue>)
    | WMap(entries: seq<Entry>)

  datatype Entry = Entry(key: nat, value: WireValue)

  // ---- Writing ----

  function HeadLength(value: nat): nat {
    if value <= 23 then 1
    else if value <= 0xff then 2
    else if value <= 0xffff then 3
    else if value <= 0xffff_ffff then 5
    else 9
  }

  /** The shortest head for `value`; `major` fills the top three bits. */
  function Head(major: nat, value: nat): (b: Bytes)
    requires major < 8
    ensures |b| == HeadLength(value)
  {
    if value <= 23 then [major * 32 + value]
    else if value <= 0xff then [major * 32 + 24] + BigEndian(value, 1)
    else if value <= 0xffff then [major * 32 + 25] + BigEndian(value, 2)
    else if value <= 0xffff_ffff then [major * 32 + 26] + BigEndian(value, 4)
    else [major * 32 + 27] + BigEndian(value, 8)
  }

  function EncodeWire(w: WireValue): (b: Bytes)
  {
    match w
    case WNull => [0xf6]
    case WUnsigned(number) => Head(0, number)
    case WBytes(bytes) => Head(2, |bytes|) + bytes
    case WText(text) => Head(3, |text|) + text
    case WBool(flag) => if flag then [0xf5] else [0xf4]
    case WArray(items) => Head(4, |items|) + EncodeItems(items)
    case WMap(entries) => Head(5, |entries|) + EncodeEntries(entries)
  }

  function EncodeItems(items: seq<WireValue>): (b: Bytes)
  {
    if items == [] then [] else EncodeWire(items[0]) + EncodeItems(items[1..])
  }

  function EncodeEntries(entries: seq<Entry>): (b: Bytes)
  {
    if entries == [] then []
    else EncodeEntry(entries[0]) + EncodeEntries(entries[1..])
  }

  function EncodeEntry(entry: Entry): (b: Bytes)
  {
    Head(0, entry.key) + EncodeWire(entry.value)
  }

  // ---- Reading ----

  function ParseByte(b: Bytes, at: nat): Parsed<byte> {
    if at < |b| then Read(b[at], at + 1) else Fail(Invalid)
  }

  function ParseFixed(b: Bytes, at: nat, width: nat): Parsed<nat> {
    if at + width <= |b| then Read(FromBigEndian(b[at..at + width]), at + width) else Fail(Invalid)
  }

  /** The argument of a head whose initial byte ends in the five bits `additional`. */
  function ParseArgument(b: Bytes, at: nat, additional: nat): (r: Parsed<nat>)
  {
    if additional <= 23 then Read(additional, at)
    else if additional == 24 then
      var (value, next) :- ParseFixed(b, at, 1);
      if value >= 24 then Read(value, next) else Fail(NonCanonical)
    else if additional == 25 then
      var (value, next) :- ParseFixed(b, at, 2);
      if value > 0xff then Read(value, next) else Fail(NonCanonical)
    else if additional == 26 then
      var (value, next) :- ParseFixed(b, at, 4);
      if value > 0xffff then Read(value, next) else Fail(NonCanonical)
    else if additional == 27 then
      var (value, next) :- ParseFixed(b, at, 8);
      if value > 0xffff_ffff then Read(value, next) else Fail(NonCanonical)
    else if additional == 31 then Fail(IndefiniteLength)
    else Fail(Invalid)
  }

  function ParseSlice(b: Bytes, at: nat, additional: nat, bound: nat): (r: Parsed<Bytes>)
  {
    var (length, next) :- ParseArgument(b, at, additional);
    if length > bound then Fail(BoundExceeded)
    else if next + length > |b| then Fail(Invalid)
    else Read(b[next..next + length], next + length)
  }

  function ParseCollectionLength(b: Bytes, at: nat, additional: nat): (r: Parsed<nat>)
  {
    var (length, next) :- ParseArgument(b, at, additional);
    if length > MAX_COLLECTION_ITEMS then Fail(BoundExceeded) else Read(length, next)
  }

  function ParseWire(b: Bytes, at: nat, depth: nat): (r: Parsed<WireValue>)
    decreases MAX_DEPTH + 1 - depth, 0, 0
  {
    if depth > MAX_DEPTH then Fail(BoundExceeded)
    else
      var (initial, next) :- ParseByte(b, at);
      var major, additional := initial / 32, initial % 32;
      match major
      case 0 =>
        var (value, next) :- ParseArgument(b, next, additional);
        if value > MAX_SAFE_INTEGER then Fail(BoundExceeded) else Read(WUnsigned(value), next)
      case 2 =>
        var (bytes, next) :- ParseSlice(b, next, additional, MAX_RAW_BYTES);
        Read(WBytes(bytes), next)
      case 3 =>
        var (text, next) :- ParseSlice(b, next, additional, MAX_TEXT_BYTES);
        if ValidUtf8(text) then Read(WText(text), next) else Fail(Invalid)
      case 4 =>
        var (length, next) :- ParseCollectionLength(b, next, additional);
        var (items, next) :- ParseItems(b, next, depth + 1, length);
        Read(WArray(items), next)
      case 5 =>
        var (length, next) :- ParseCollectionLength(b, next, additional);
        var (entries, next) :- ParseEntries(b, next, depth + 1, length, {});
        Read(WMap(entries), next)
      case _ =>
        if initial == 0xf4 then Read(WBool(false), next)
        else if initial == 0xf5 then Read(WBool(true), next)
        else if initial == 0xf6 then Read(WNull, next)
        else if major == 7 then Fail(Invalid)
        else
          var _ :- ParseArgument(b, next, additional);
          Fail(Invalid)
  }

  function ParseItems(b: Bytes, at: nat, depth: nat, count: nat): (r: Parsed<seq<WireValue>>)
    ensures r.Read? ==> |r.value| == count
    decreases MAX_DEPTH + 1 - depth, 1, count
  {
    if count == 0 then Read([], at)
    else
      var (item, next) :- ParseWire(b, at, depth);
      var (rest, next) :- ParseItems(b, next, depth, count - 1);
      Read([item] + rest, next)
  }

  /** One map label: only unsigned integers are accepted, and negative ones have their own failure. */
  function ParseLabel(b: Bytes, at: nat): (r: Parsed<nat>)
  {
    var (initial, next) :- ParseByte(b, at);
    if initial / 32 == 1 then
      var _ :- ParseArgument(b, next, initial % 32);
      Fail(NegativeLabel)
    else if initial / 32 != 0 then Fail(Invalid)
    else
      var (key, next) :- ParseArgument(b, next, initial % 32);
      if key > MAX_SAFE_INTEGER then Fail(BoundExceeded) else Read(key, next)
  }

  function ParseEntries(b: Bytes, at: nat, depth: nat, count: nat, seen: set<nat>): (r: Parsed<seq<Entry>>)
    ensures r.Read? ==> |r.value| == count
    decreases MAX_DEPTH + 1 - depth, 1, count
  {
    if count == 0 then Read([], at)
    else
      var (key, next) :- ParseLabel(b, at);
      var (value, next) :- ParseWire(b, next, depth);
      if key in seen then Fail(DuplicateLabel)
      else
        var (rest, next) :- ParseEntries(b, next, depth, count - 1, seen + {key});
        Read([Entry(key, value)] + rest, next)
  }

  // ---- Which trees the decoder can produce ----

  predicate Bounded(w: WireValue, depth: nat) {
    && depth <= MAX_DEPTH
    && match w
       case WNull => true
       case WUnsigned(number) => number <= MAX_SAFE_INTEGER
       case WBytes(bytes) => |bytes| <= MAX_RAW_BYTES
       case WText(text) => |text| <= MAX_TEXT_BYTES && ValidUtf8(text)
       case WBool(_) => true
       case WArray(items) => |items| <= MAX_COLLECTION_ITEMS && ItemsBounded(items, depth + 1)
       case WMap(entries) => |entries| <= MAX_COLLECTION_ITEMS && EntriesBounded(entries, depth + 1, {})
  }

  predicate ItemsBounded(items: seq<WireValue>, depth: nat) {
    items != [] ==> Bounded(items[0], depth) && ItemsBounded(items[1..], depth)
  }

  /** Every entry is bounded and no label repeats an earlier one or one in `seen`. */
  predicate EntriesBounded(entries: seq<Entry>, depth: nat, seen: set<nat>) {
    entries != [] ==>
      && EntryBounded(entries[0], depth)
      && entries[0].key !in seen
      && EntriesBounded(entries[1..], depth, seen + {entries[0].key})
  }

  predicate EntryBounded(entry: Entry, depth: nat) {
    entry.key <= MAX_SAFE_INTEGER && Bounded(entry.value, depth)
  }

  /** `b` holds the octets `e` at offset `at`. */
  predicate Holds(b: Bytes, at: nat, e: Bytes) {
    at + |e| <= |b| && b[at..at + |e|] == e
  }

  lemma HoldsSplit(b: Bytes, at: nat, x: Bytes, y: Bytes)
    ensures Holds(b, at, x + y) <==> Holds(b, at, x) && Holds(b, at + |x|, y)
  {
    if at + |x| + |y| <= |b| {
      assert b[at..at + |x + y|] == b[at..at + |x|] + b[at + |x|..at + |x| + |y|];
      assert (x + y)[..|x|] == x && (x + y)[|x|..] == y;
    }
  }

  lemma ItemsComeFirst(items: seq<WireValue>)
    requires items != []
    ensures EncodeItems(items) == EncodeWire(items[0]) + EncodeItems(items[1..])
  {
    hide EncodeWire;
  }

  lemma HoldsItems(b: Bytes, at: nat, items: seq<WireValue>)
    requires items != []
    ensures |EncodeItems(items)| == |EncodeWire(items[0])| + |EncodeItems(items[1..])|
    ensures Holds(b, at, EncodeItems(items)) <==>
            Holds(b, at, EncodeWire(items[0])) && Holds(b, at + |EncodeWire(items[0])|, EncodeItems(items[1..]))
  {
    hide Holds, EncodeWire, EncodeItems;
    ItemsComeFirst(items);
    HoldsSplit(b, at, EncodeWire(items[0]), EncodeItems(items[1..]));
  }

  lemma HoldsEntries(b: Bytes, at: nat, entries: seq<Entry>)
    requires entries != []
    ensures |EncodeEntries(entries)| == |EncodeEntry(entries[0])| + |EncodeEntries(entries[1..])|
    ensures Holds(b, at, EncodeEntries(entries)) <==>
            Holds(b, at, EncodeEntry(entries[0])) && Holds(b, at + |EncodeEntry(entries[0])|, EncodeEntries(entries[1..]))
  {
    hide Holds, EncodeEntry;
    HoldsSplit(b, at, EncodeEntry(entries[0]), EncodeEntries(entries[1..]));
  }

  lemma HoldsEntry(b: Bytes, at: nat, entry: Entry)
    ensures |EncodeEntry(entry)| == HeadLength(entry.key) + |EncodeWire(entry.value)|
    ensures Holds(b, at, EncodeEntry(entry)) <==>
            Holds(b, at, Head(0, entry.key)) && Holds(b, at + HeadLength(entry.key), EncodeWire(entry.value))
  {
    hide Holds, EncodeWire, Head;
    HoldsSplit(b, at, Head(0, entry.key), EncodeWire(entry.value));
  }

  // ---- Heads ----

  /** A head is read back, whatever follows it. */
  lemma ReadsHead(b: Bytes, at: nat, major: nat, value: nat)
    requires major < 8 && value < TWO64 && Holds(b, at, Head(major, value))
    ensures at < |b| && b[at] / 32 == major
    ensures ParseArgument(b, at + 1, b[at] % 32) == Read(value, at + HeadLength(value))
  {
    Widths();
    var h := Head(major, value);
    assert b[at] == b[at..at + |h|][0] == h[0];
    if value > 23 {
      var width := HeadLength(value) - 1;
      assert h == [h[0]] + BigEndian(value, width);
      HoldsSplit(b, at, [h[0]], BigEndian(value, width));
      DecodesBigEndian(value, width);
      assert ParseFixed(b, at + 1, width) == Read(value, at + 1 + width);
    }
  }

  /** Whatever the argument reader accepts is the shortest head of what it returns. */
  lemma HeadsAreShortest(b: Bytes, at: nat)
    requires at < |b| && ParseArgument(b, at + 1, b[at] % 32).Read?
    ensures var r := ParseArgument(b, at + 1, b[at] % 32);
            && r.value < TWO64 && Holds(b, at, Head(b[at] / 32, r.value))
            && r.next == at + HeadLength(r.value) <= |b|
  {
    Widths();
    var additional := b[at] % 32;
    if additional <= 23 {
      assert b[at..at + 1] == [b[at]];
    } else {
      var width := if additional == 24 then 1 else if additional == 25 then 2 else if additional == 26 then 4 else 8;
      hide Holds, BigEndian, FromBigEndian;
      ArgumentIsBigEndian(b, at, width);
    }
  }

  lemma ArgumentIsBigEndian(b: Bytes, at: nat, width: nat)
    requires at + 1 + width <= |b|
    ensures Holds(b, at, [b[at]] + BigEndian(FromBigEndian(b[at + 1..at + 1 + width]), width))
  {
    EncodesBigEndian(b[at + 1..at + 1 + width]);
    assert b[at..at + 1 + width] == [b[at]] + b[at + 1..at + 1 + width];
  }

  /** Numeric order of labels is bytewise order of their encodings (RFC 8949, section 4.2.1). */
  lemma LabelOrderIsBytewise(major: nat, x: nat, y: nat)
    requires major < 8 && x < TWO64 && y < TWO64
    ensures x < y <==> LexLess(Head(major, x), Head(major, y))
  {
    if x < y {
      SmallerHeadSortsFirst(major, x, y);
    } else if y < x {
      SmallerHeadSortsFirst(major, y, x);
      LexLessAsymmetric(Head(major, y), Head(major, x));
    } else if LexLess(Head(major, x), Head(major, y)) {
      LexLessAsymmetric(Head(major, x), Head(major, y));
    }
  }

  lemma SmallerHeadSortsFirst(major: nat, x: nat, y: nat)
    requires major < 8 && x < y < TWO64
    ensures LexLess(Head(major, x), Head(major, y))
  {
    Widths();
    var hx, hy := Head(major, x), Head(major, y);
    if HeadLength(x) == HeadLength(y) && x > 23 {
      var width := HeadLength(x) - 1;
      BigEndianKeepsOrder(x, y, width);
      LexLessCommonPrefix([hx[0]], BigEndian(x, width), BigEndian(y, width));
    }
  }

  // ---- Written trees are read back ----

  lemma {:induction false} ReadsWhatIsWritten(w: WireValue, b: Bytes, at: nat, depth: nat)
    requires Bounded(w, depth) && Holds(b, at, EncodeWire(w))
    ensures ParseWire(b, at, depth) == Read(w, at + |EncodeWire(w)|)
    decreases w, 1
  {
    match w
    case WArray(items) => ReadsWrittenArray(w, b, at, depth);
    case WMap(entries) => ReadsWrittenMap(w, b, at, depth);
    case WUnsigned(number) => ReadsHead(b, at, 0, number);
    case WBytes(bytes) => ReadsSlice(b, at, 2, bytes, MAX_RAW_BYTES);
    case WText(text) => ReadsSlice(b, at, 3, text, MAX_TEXT_BYTES);
    case _ => HoldsOctet(b, at);
  }

  lemma {:induction false} ReadsWrittenArray(w: WireValue, b: Bytes, at: nat, depth: nat)
    requires w.WArray? && Bounded(w, depth) && Holds(b, at, EncodeWire(w))
    ensures ParseWire(b, at, depth) == Read(w, at + |EncodeWire(w)|)
    decreases w, 0
  {
    hide Holds, Head, ParseArgument;
    HoldsSplit(b, at, Head(4, |w.items|), EncodeItems(w.items));
    ReadsHead(b, at, 4, |w.items|);
    ReadsWrittenItems(w.items, b, at + HeadLength(|w.items|), depth + 1);
  }

  lemma {:induction false} ReadsWrittenMap(w: WireValue, b: Bytes, at: nat, depth: nat)
    requires w.WMap? && Bounded(w, depth) && Holds(b, at, EncodeWire(w))
    ensures ParseWire(b, at, depth) == Read(w, at + |EncodeWire(w)|)
    decreases w, 0
  {
    hide Holds, Head, ParseArgument;
    HoldsSplit(b, at, Head(5, |w.entries|), EncodeEntries(w.entries));
    ReadsHead(b, at, 5, |w.entries|);
    ReadsWrittenEntries(w.entries, b, at + HeadLength(|w.entries|), depth + 1, {});
  }

  lemma ReadsSlice(b: Bytes, at: nat, major: nat, slice: Bytes, bound: nat)
    requires major < 8 && |slice| <= bound <= MAX_RAW_BYTES
    requires Holds(b, at, Head(major, |slice|) + slice)
    ensures at < |b| && b[at] / 32 == major
    ensures ParseSlice(b, at + 1, b[at] % 32, bound) == Read(slice, at + HeadLength(|slice|) + |slice|)
  {
    HoldsSplit(b, at, Head(major, |slice|), slice);
    ReadsHead(b, at, major, |slice|);
  }

  lemma {:induction false} ReadsWrittenItems(items: seq<WireValue>, b: Bytes, at: nat, depth: nat)
    requires ItemsBounded(items, depth)
    requires Holds(b, at, EncodeItems(items))
    ensures ParseItems(b, at, depth, |items|) == Read(items, at + |EncodeItems(items)|)
    decreases items, 1
  {
    hide ParseWire, EncodeWire, Holds, Bounded, ParseEntries, EncodeEntries, EntriesBounded;
    if items != [] {
      hide ParseItems, EncodeItems;
      HoldsItems(b, at, items);
      ReadsWhatIsWritten(items[0], b, at, depth);
      ReadsWrittenItems(items[1..], b, at + |EncodeWire(items[0])|, depth);
      ParseItemsCons(b, at, depth, items);
    }
  }

  lemma ParseItemsCons(b: Bytes, at: nat, depth: nat, items: seq<WireValue>)
    requires items != []
    requires ParseWire(b, at, depth) == Read(items[0], at + |EncodeWire(items[0])|)
    requires ParseItems(b, at + |EncodeWire(items[0])|, depth, |items[1..]|)
          == Read(items[1..], at + |EncodeWire(items[0])| + |EncodeItems(items[1..])|)
    ensures ParseItems(b, at, depth, |items|) == Read(items, at + |EncodeItems(items)|)
  {
    hide ParseWire, EncodeWire;
    assert items == [items[0]] + items[1..];
  }

  lemma BoundedHead(entries: seq<Entry>, depth: nat, seen: set<nat>)
    requires entries != [] && EntriesBounded(entries, depth, seen)
    ensures EntryBounded(entries[0], depth) && entries[0].key !in seen
    ensures EntriesBounded(entries[1..], depth, seen + {entries[0].key})
  {
  }

  lemma {:induction false} ReadsWrittenEntries(entries: seq<Entry>, b: Bytes, at: nat, depth: nat, seen: set<nat>)
    requires EntriesBounded(entries, depth, seen)
    requires Holds(b, at, EncodeEntries(entries))
    ensures ParseEntries(b, at, depth, |entries|, seen) == Read(entries, at + |EncodeEntries(entries)|)
    decreases entries, 1
  {
    hide ParseWire, ParseLabel, ReadsEntry, EncodeEntry, Holds, EntryBounded, ParseItems, EncodeItems, EncodeWire;
    if entries != [] {
      BoundedHead(entries, depth, seen);
      hide ParseEntries, EncodeEntries, EntriesBounded;
      HoldsEntries(b, at, entries);
      ReadsWrittenEntry(entries[0], b, at, depth);
      ReadsWrittenEntries(entries[1..], b, at + |EncodeEntry(entries[0])|, depth, seen + {entries[0].key});
      ParseEntriesCons(b, at, depth, entries, seen);
    }
  }

  predicate ReadsEntry(b: Bytes, at: nat, depth: nat, entry: Entry) {
    && ParseLabel(b, at) == Read(entry.key, at + HeadLength(entry.key))
    && ParseWire(b, at + HeadLength(entry.key), depth) == Read(entry.value, at + |EncodeEntry(entry)|)
  }

  lemma ParseEntriesCons(b: Bytes, at: nat, depth: nat, entries: seq<Entry>, seen: set<nat>)
    requires entries != [] && ReadsEntry(b, at, depth, entries[0]) && entries[0].key !in seen
    requires ParseEntries(b, at + |EncodeEntry(entries[0])|, depth, |entries[1..]|, seen + {entries[0].key})
          == Read(entries[1..], at + |EncodeEntry(entries[0])| + |EncodeEntries(entries[1..])|)
    ensures ParseEntries(b, at, depth, |entries|, seen) == Read(entries, at + |EncodeEntries(entries)|)
  {
    hide ParseWire, ParseLabel, EncodeEntry;
    assert entries == [entries[0]] + entries[1..];
  }

  lemma {:induction false} ReadsWrittenEntry(entry: Entry, b: Bytes, at: nat, depth: nat)
    requires EntryBounded(entry, depth) && Holds(b, at, EncodeEntry(entry))
    ensures ReadsEntry(b, at, depth, entry)
    decreases entry, 1
  {
    hide ParseWire, EncodeWire, EncodeEntry, Holds, Head, Bounded;
    HoldsEntry(b, at, entry);
    ReadsHead(b, at, 0, entry.key);
    ReadsWhatIsWritten(entry.value, b, at + HeadLength(entry.key), depth);
  }

  // ---- Read trees are exactly what was written ----

  lemma {:induction false} WritesWhatIsRead(b: Bytes, at: nat, depth: nat)
    requires ParseWire(b, at, depth).Read?
    ensures var r := ParseWire(b, at, depth);
            && Bounded(r.value, depth) && Holds(b, at, EncodeWire(r.value))
            && r.next == at + |EncodeWire(r.value)| <= |b|
    decreases MAX_DEPTH + 1 - depth, 1, 0
  {
    hide Holds, Head, ParseArgument;
    match b[at] / 32
    case 0 => HeadsAreShortest(b, at);
    case 2 => WritesSlice(b, at, MAX_RAW_BYTES);
    case 3 => WritesSlice(b, at, MAX_TEXT_BYTES);
    case 4 => WritesReadArray(b, at, depth);
    case 5 => WritesReadMap(b, at, depth);
    case _ => HoldsOctet(b, at);
  }

  lemma HoldsOctet(b: Bytes, at: nat)
    requires at < |b|
    ensures forall x: byte :: Holds(b, at, [x]) <==> b[at] == x
  {
    assert b[at..at + 1] == [b[at]];
  }

  lemma {:induction false} WritesReadArray(b: Bytes, at: nat, depth: nat)
    requires ParseWire(b, at, depth).Read? && b[at] / 32 == 4
    ensures var r := ParseWire(b, at, depth);
            && Bounded(r.value, depth) && Holds(b, at, EncodeWire(r.value))
            && r.next == at + |EncodeWire(r.value)| <= |b|
    decreases MAX_DEPTH + 1 - depth, 0, 0
  {
    hide Holds, Head, ParseEntries, ParseItems, ParseSlice, EncodeEntries, EncodeItems;
    HeadsAreShortest(b, at);
    var items := ParseWire(b, at, depth).value.items;
    WritesReadItems(b, at + HeadLength(|items|), depth + 1, |items|);
    HoldsSplit(b, at, Head(4, |items|), EncodeItems(items));
  }

  lemma {:induction false} WritesReadMap(b: Bytes, at: nat, depth: nat)
    requires ParseWire(b, at, depth).Read? && b[at] / 32 == 5
    ensures var r := ParseWire(b, at, depth);
            && Bounded(r.value, depth) && Holds(b, at, EncodeWire(r.value))
            && r.next == at + |EncodeWire(r.value)| <= |b|
    decreases MAX_DEPTH + 1 - depth, 0, 0
  {
    hide Holds, Head, ParseEntries, ParseItems, ParseSlice, EncodeEntries, EncodeItems;
    HeadsAreShortest(b, at);
    var entries := ParseWire(b, at, depth).value.entries;
    WritesReadEntries(b, at + HeadLength(|entries|), depth + 1, |entries|, {});
    HoldsSplit(b, at, Head(5, |entries|), EncodeEntries(entries));
  }

  lemma WritesSlice(b: Bytes, at: nat, bound: nat)
    requires at < |b| && ParseSlice(b, at + 1, b[at] % 32, bound).Read?
    ensures var r := ParseSlice(b, at + 1, b[at] % 32, bound);
            && |r.value| <= bound && r.next == at + HeadLength(|r.value|) + |r.value| <= |b|
            && Holds(b, at, Head(b[at] / 32, |r.value|) + r.value)
  {
    hide Holds, Head, ParseArgument;
    HeadsAreShortest(b, at);
    var r := ParseSlice(b, at + 1, b[at] % 32, bound);
    HoldsOwnSlice(b, r.next - |r.value|, r.next);
    HoldsSplit(b, at, Head(b[at] / 32, |r.value|), r.value);
  }

  lemma HoldsOwnSlice(b: Bytes, start: nat, end: nat)
    requires start <= end <= |b|
    ensures Holds(b, start, b[start..end])
  {
  }

  lemma {:induction false} WritesReadItems(b: Bytes, at: nat, depth: nat, count: nat)
    requires ParseItems(b, at, depth, count).Read? && at <= |b|
    ensures var r := ParseItems(b, at, depth, count);
            && ItemsBounded(r.value, depth) && Holds(b, at, EncodeItems(r.value))
            && r.next == at + |EncodeItems(r.value)| <= |b|
    decreases MAX_DEPTH + 1 - depth, 3, count
  {
    hide ParseWire, ParseLabel, ParseEntries, EncodeWire, EncodeEntries, Bounded, EntriesBounded, Head;
    if count > 0 {
      var items, next := ParseItemsUncons(b, at, depth, count);
      hide ParseItems, EncodeItems, Holds;
      WritesWhatIsRead(b, at, depth);
      WritesReadItems(b, next, depth, count - 1);
      HoldsItems(b, at, items);
    }
  }

  lemma ParseItemsUncons(b: Bytes, at: nat, depth: nat, count: nat)
    returns (items: seq<WireValue>, next: nat)
    requires count > 0 && ParseItems(b, at, depth, count).Read?
    ensures items == ParseItems(b, at, depth, count).value && items != []
    ensures ParseWire(b, at, depth) == Read(items[0], next)
    ensures ParseItems(b, next, depth, count - 1) == Read(items[1..], ParseItems(b, at, depth, count).next)
  {
    hide ParseWire;
    items, next := ParseItems(b, at, depth, count).value, ParseWire(b, at, depth).next;
  }

  lemma {:induction false} WritesReadEntry(b: Bytes, at: nat, depth: nat)
    requires ParseLabel(b, at).Read? && ParseWire(b, ParseLabel(b, at).next, depth).Read?
    ensures var key := ParseLabel(b, at);
            var value := ParseWire(b, key.next, depth);
            && EntryBounded(Entry(key.value, value.value), depth) && Holds(b, at, EncodeEntry(Entry(key.value, value.value)))
            && value.next == at + |EncodeEntry(Entry(key.value, value.value))| <= |b|
    decreases MAX_DEPTH + 1 - depth, 2, 0
  {
    hide ParseWire, EncodeWire, EncodeEntry, Holds, Bounded, Head;
    HeadsAreShortest(b, at);
    var key := ParseLabel(b, at);
    WritesWhatIsRead(b, key.next, depth);
    HoldsEntry(b, at, Entry(key.value, ParseWire(b, key.next, depth).value));
  }

  lemma {:induction false} WritesReadEntries(b: Bytes, at: nat, depth: nat, count: nat, seen: set<nat>)
    requires ParseEntries(b, at, depth, count, seen).Read? && at <= |b|
    ensures var r := ParseEntries(b, at, depth, count, seen);
            && EntriesBounded(r.value, depth, seen) && Holds(b, at, EncodeEntries(r.value))
            && r.next == at + |EncodeEntries(r.value)| <= |b|
    decreases MAX_DEPTH + 1 - depth, 3, count
  {
    hide ParseWire, ParseLabel, ParseItems, EncodeEntry, EncodeWire, EncodeItems, EntryBounded, Bounded, Head;
    if count > 0 {
      var entries, next := ParseEntriesUncons(b, at, depth, count, seen);
      hide ParseEntries, EncodeEntries, Holds;
      WritesReadEntry(b, at, depth);
      WritesReadEntries(b, next, depth, count - 1, seen + {entries[0].key});
      HoldsEntries(b, at, entries);
    }
  }

  lemma ParseEntriesUncons(b: Bytes, at: nat, depth: nat, count: nat, seen: set<nat>)
    returns (entries: seq<Entry>, next: nat)
    requires count > 0 && ParseEntries(b, at, depth, count, seen).Read?
    ensures entries == ParseEntries(b, at, depth, count, seen).value && entries != []
    ensures ParseLabel(b, at).Read? && ParseLabel(b, at).value == entries[0].key && entries[0].key !in seen
    ensures ParseWire(b, ParseLabel(b, at).next, depth) == Read(entries[0].value, next)
    ensures ParseEntries(b, next, depth, count - 1, seen + {entries[0].key})
         == Read(entries[1..], ParseEntries(b, at, depth, count, seen).next)
  {
    hide ParseWire, ParseLabel;
    entries := ParseEntries(b, at, depth, count, seen).value;
    next := ParseWire(b, ParseLabel(b, at).next, depth).next;
  }
}
