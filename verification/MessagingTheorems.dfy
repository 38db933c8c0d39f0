/** What decoding a message means exactly, that it inverts encoding, and what encodes at all. */
module MessagingTheorems {
  import Errors
  import opened Integers
  import opened Octets
  import opened Cbor
  import opened ChunkRanges
  import opened Messaging
  import Wire
  import P = CborProperties
  import CborSizes
  import opened Sets

  // ---- Members of the record ----

  lemma {:induction false} ExtensionsRead(entries: map<nat, CborValue>, keys: seq<nat>)
    requires forall k | k in keys :: k in entries
    ensures ReadExtensions(entries, keys).Ok? <==> forall k | k in keys :: k <= MAX_U32 && entries[k].ByteString?
    ensures ReadExtensions(entries, keys).Ok? ==>
              var r := ReadExtensions(entries, keys).value;
              && (forall k: nat :: k in r <==> k in keys)
              && (forall k: nat | k in keys :: r[k] == entries[k].bytes)
  {
    if keys != [] {
      ExtensionsRead(entries, keys[1..]);
      assert keys == [keys[0]] + keys[1..];
      assert keys[0] in keys && forall k :: k in keys <==> k == keys[0] || k in keys[1..];
    }
  }

  lemma ExtensionsExactly(entries: map<nat, CborValue>, extensions: map<u32, Bytes>)
    ensures ExtensionsAt(entries) == Errors.Ok(extensions) <==>
            if 5 in entries then entries[5] == Map(ExtensionEntries(extensions)) else extensions == map[]
  {
    hide ExtensionEntries, ReadExtensions, SortedKeys;
    if 5 in entries && entries[5].Map? {
      InnerExtensionsExactly(entries[5].entries, extensions);
    }
  }

  lemma InnerExtensionsExactly(inner: map<nat, CborValue>, extensions: map<u32, Bytes>)
    ensures ReadExtensions(inner, SortedKeys(inner.Keys)) == Errors.Ok(extensions) <==>
            inner == ExtensionEntries(extensions)
  {
    var keys := SortedKeys(inner.Keys);
    ExtensionsRead(inner, keys);
    hide ReadExtensions, SortedKeys;
    var r := ReadExtensions(inner, keys);
    if r == Errors.Ok(extensions) {
      hide ExtensionEntries;
      SameExtensions(inner, extensions);
    }
    if inner == ExtensionEntries(extensions) {
      OwnExtensions(inner, extensions);
      hide ExtensionEntries;
      assert r.value == extensions;
    }
  }

  lemma OwnExtensions(inner: map<nat, CborValue>, extensions: map<u32, Bytes>)
    requires inner == ExtensionEntries(extensions)
    ensures forall k: nat :: k in extensions <==> k in inner
    ensures forall k | k in inner :: k <= MAX_U32 && inner[k].ByteString? && inner[k].bytes == extensions[k]
  {
  }

  lemma SameExtensions(inner: map<nat, CborValue>, extensions: map<u32, Bytes>)
    requires forall k: nat :: k in extensions <==> k in inner
    requires forall k | k in inner :: inner[k].ByteString? && extensions[k] == inner[k].bytes
    ensures inner == ExtensionEntries(extensions)
  {
  }

  lemma {:induction false} NumbersRead(items: seq<CborValue>, values: seq<u32>)
    ensures ReadNumbers(items) == Errors.Ok(values) <==> items == Numbers(values)
  {
    if items != [] && values != [] {
      NumbersRead(items[1..], values[1..]);
      assert values == [values[0]] + values[1..];
      assert items == [items[0]] + items[1..];
    }
  }

  lemma AttachmentRead(v: CborValue, a: Attachment)
    ensures ReadAttachment(v) == Errors.Ok(a) <==> v == AttachmentValue(a)
  {
    if ReadAttachment(v) == Errors.Ok(a) {
      assert v.entries == AttachmentValue(a).entries;
    }
  }

  lemma {:induction false} AttachmentsRead(items: seq<CborValue>, attachments: seq<Attachment>)
    ensures ReadAttachments(items) == Errors.Ok(attachments) <==> items == AttachmentValues(attachments)
  {
    hide AttachmentValue, ReadAttachment;
    if items != [] && attachments != [] {
      AttachmentRead(items[0], attachments[0]);
      AttachmentsRead(items[1..], attachments[1..]);
      assert attachments == [attachments[0]] + attachments[1..];
      assert items == [items[0]] + items[1..];
    }
  }

  // ---- The record ----

  /** An empty collection under one of the labels that encoding leaves out when empty. */
  predicate IsEmptyAt(key: nat, v: CborValue) {
    (key == 5 && v == Map(map[])) || ((key == 6 || key == 10) && v == Array([]))
  }

  function Trim(entries: map<nat, CborValue>): map<nat, CborValue> {
    map k | k in entries && !IsEmptyAt(k, entries[k]) :: entries[k]
  }

  predicate Labelled(entries: map<nat, CborValue>) {
    forall k | k in entries :: k <= MAX_LABEL
  }

  /** Each member reads as the message has it. */
  predicate Agrees(entries: map<nat, CborValue>, m: Message) {
    && Fixed16(entries, 0) == Errors.Ok(m.id)
    && Number(entries, 1).Ok? && KindOf(Number(entries, 1).value) == Errors.Ok(m.kind)
    && Optionally(entries, 2, Fixed16(entries, 2)) == Errors.Ok(m.relatesTo)
    && Number32(entries, 3) == Errors.Ok(m.contentType)
    && OctetsAt(entries, 4) == Errors.Ok(m.payload)
    && ExtensionsAt(entries) == Errors.Ok(m.extensions)
    && CriticalAt(entries) == Errors.Ok(m.critical)
    && Optionally(entries, 7, Number64(entries, 7)) == Errors.Ok(m.chunkIndex)
    && Optionally(entries, 8, Flag(entries, 8)) == Errors.Ok(m.chunkFinal)
    && Optionally(entries, 9, Fixed16(entries, 9)) == Errors.Ok(m.attachmentId)
    && AttachmentsAt(entries) == Errors.Ok(m.attachments)
  }

  lemma ReadsWhenMembersDo(entries: map<nat, CborValue>, m: Message)
    ensures Read(entries) == Errors.Ok(m) <==> Labelled(entries) && Agrees(entries, m) && Validate(m).Ok?
  {
    hide Fixed16, Number, Number32, Number64, OctetsAt, Flag, Optionally, KindOf, Validate;
    hide ExtensionsAt, CriticalAt, AttachmentsAt;
  }

  predicate HoldsAll(entries: map<nat, CborValue>, m: Message) {
    && Holds(entries, 0, Field(m, 0)) && Holds(entries, 1, Field(m, 1)) && Holds(entries, 2, Field(m, 2))
    && Holds(entries, 3, Field(m, 3)) && Holds(entries, 4, Field(m, 4)) && Holds(entries, 5, Field(m, 5))
    && Holds(entries, 6, Field(m, 6)) && Holds(entries, 7, Field(m, 7)) && Holds(entries, 8, Field(m, 8))
    && Holds(entries, 9, Field(m, 9)) && Holds(entries, 10, Field(m, 10))
  }

  lemma EntriesHoldAll(entries: map<nat, CborValue>, m: Message)
    requires Labelled(entries)
    ensures HoldsAll(entries, m) <==> entries == Entries(m)
  {
    hide Field;
    if HoldsAll(entries, m) {
      MapIsDetermined(entries, Entries(m), m);
    }
  }

  lemma RequiredScalarsAgree(entries: map<nat, CborValue>, m: Message)
    ensures Fixed16(entries, 0) == Errors.Ok(m.id) <==> Holds(entries, 0, Field(m, 0))
    ensures Number(entries, 1).Ok? && KindOf(Number(entries, 1).value) == Errors.Ok(m.kind) <==>
            Holds(entries, 1, Field(m, 1))
    ensures Number32(entries, 3) == Errors.Ok(m.contentType) <==> Holds(entries, 3, Field(m, 3))
    ensures OctetsAt(entries, 4) == Errors.Ok(m.payload) <==> Holds(entries, 4, Field(m, 4))
  {
  }

  lemma OptionalScalarsAgree(entries: map<nat, CborValue>, m: Message)
    ensures Optionally(entries, 2, Fixed16(entries, 2)) == Errors.Ok(m.relatesTo) <==> Holds(entries, 2, Field(m, 2))
    ensures Optionally(entries, 7, Number64(entries, 7)) == Errors.Ok(m.chunkIndex) <==> Holds(entries, 7, Field(m, 7))
    ensures Optionally(entries, 8, Flag(entries, 8)) == Errors.Ok(m.chunkFinal) <==> Holds(entries, 8, Field(m, 8))
    ensures Optionally(entries, 9, Fixed16(entries, 9)) == Errors.Ok(m.attachmentId) <==> Holds(entries, 9, Field(m, 9))
  {
  }

  lemma CollectionsAgree(entries: map<nat, CborValue>, m: Message)
    ensures ExtensionsAt(entries) == Errors.Ok(m.extensions) <==> Holds(Trim(entries), 5, Field(m, 5))
    ensures CriticalAt(entries) == Errors.Ok(m.critical) <==> Holds(Trim(entries), 6, Field(m, 6))
    ensures AttachmentsAt(entries) == Errors.Ok(m.attachments) <==> Holds(Trim(entries), 10, Field(m, 10))
  {
    ExtensionsExactly(entries, m.extensions);
    assert ExtensionEntries(m.extensions) == map[] <==> m.extensions == map[] by {
      if m.extensions != map[] {
        var k :| k in m.extensions;
        assert k in ExtensionEntries(m.extensions);
      }
    }
    if 6 in entries && entries[6].Array? {
      NumbersRead(entries[6].items, m.critical);
    }
    if 10 in entries && entries[10].Array? {
      AttachmentsRead(entries[10].items, m.attachments);
    }
  }

  lemma TrimKeepsScalars(entries: map<nat, CborValue>, m: Message, key: nat)
    requires key != 5 && key != 6 && key != 10
    ensures Holds(Trim(entries), key, Field(m, key)) <==> Holds(entries, key, Field(m, key))
  {
    hide Field;
  }

  lemma AgreesWhenTrimmedHolds(entries: map<nat, CborValue>, m: Message)
    ensures Agrees(entries, m) <==> HoldsAll(Trim(entries), m)
  {
    hide Field, Holds, Trim, Fixed16, Number, Number32, Number64, OctetsAt, Flag, Optionally, KindOf;
    hide ExtensionsAt, CriticalAt, AttachmentsAt;
    RequiredScalarsAgree(entries, m);
    OptionalScalarsAgree(entries, m);
    CollectionsAgree(entries, m);
    TrimKeepsScalars(entries, m, 0);
    TrimKeepsScalars(entries, m, 1);
    TrimKeepsScalars(entries, m, 2);
    TrimKeepsScalars(entries, m, 3);
    TrimKeepsScalars(entries, m, 4);
    TrimKeepsScalars(entries, m, 7);
    TrimKeepsScalars(entries, m, 8);
    TrimKeepsScalars(entries, m, 9);
  }

  /** Entries read as a message exactly when it is valid and they are its own, up to empty collections. */
  lemma ReadsExactly(entries: map<nat, CborValue>, m: Message)
    ensures Read(entries) == Errors.Ok(m) <==> Validate(m).Ok? && Trim(entries) == Entries(m)
  {
    hide Read, Validate, Agrees, HoldsAll, Entries;
    ReadsWhenMembersDo(entries, m);
    AgreesWhenTrimmedHolds(entries, m);
    TrimmedLabels(entries, m);
    if Labelled(entries) {
      EntriesHoldAll(Trim(entries), m);
    }
  }

  lemma TrimmedLabels(entries: map<nat, CborValue>, m: Message)
    ensures Labelled(entries) ==> Labelled(Trim(entries))
    ensures Trim(entries) == Entries(m) ==> Labelled(entries)
  {
    if Trim(entries) == Entries(m) {
      forall k | k in entries
        ensures k <= MAX_LABEL
      {
        if k !in Trim(entries) {
          assert IsEmptyAt(k, entries[k]);
        }
      }
    }
  }

  // ---- Main theorems ----

  /** The octets that decode to a message are those of its fields, with or without empty collections. */
  lemma DecodesExactly(b: Bytes, m: Message)
    ensures Decode(b) == Errors.Ok(m) <==>
            && P.Decode(b).Ok? && P.Decode(b).value.Map?
            && Validate(m).Ok? && Trim(P.Decode(b).value.entries) == Entries(m)
  {
    hide P.Decode, Read, Validate;
    if P.Decode(b).Ok? && P.Decode(b).value.Map? {
      ReadsExactly(P.Decode(b).value.entries, m);
    }
  }

  lemma AttachmentValuesAreWellFormed(attachments: seq<Attachment>)
    ensures forall i | 0 <= i < |attachments| :: P.WellFormed(AttachmentValues(attachments)[i])
  {
  }

  lemma NumbersAreWellFormed(values: seq<u32>)
    ensures forall i | 0 <= i < |values| :: P.WellFormed(Numbers(values)[i])
  {
  }

  lemma MessagesAreWellFormed(m: Message)
    ensures P.WellFormed(AsCbor(m))
  {
    AttachmentValuesAreWellFormed(m.attachments);
    NumbersAreWellFormed(m.critical);
    assert P.WellFormed(Map(ExtensionEntries(m.extensions)));
    assert P.WellFormed(Array(AttachmentValues(m.attachments)));
    assert P.WellFormed(Array(Numbers(m.critical)));
  }

  lemma OwnEntriesAreTrim(m: Message)
    ensures Trim(Entries(m)) == Entries(m)
  {
    forall k | k in Entries(m)
      ensures !IsEmptyAt(k, Entries(m)[k])
    {
      if k == 5 {
        var some :| some in m.extensions;
        assert some in ExtensionEntries(m.extensions);
      }
    }
  }

  /** Decoding inverts encoding. */
  lemma DecodeInvertsEncode(m: Message)
    requires Encode(m).Ok?
    ensures Decode(Encode(m).value) == Errors.Ok(m)
  {
    hide P.Encode, P.Decode, P.DecodeDetailed, Validate, Entries, Trim, Decode;
    MessagesAreWellFormed(m);
    P.DecodeInvertsEncode(AsCbor(m));
    OwnEntriesAreTrim(m);
    DecodesExactly(Encode(m).value, m);
  }

  /** Encoding inverts decoding exactly on octets without empty collections under labels 5, 6 and 10. */
  lemma EncodesBackExactly(b: Bytes, m: Message)
    requires Decode(b) == Errors.Ok(m)
    ensures Encode(m) == Errors.Ok(b) <==>
            var entries := P.Decode(b).value.entries;
            forall k | k in entries :: !IsEmptyAt(k, entries[k])
  {
    hide P.Encode, P.Decode, Validate, Entries, IsEmptyAt, Decode;
    DecodesExactly(b, m);
    var entries := P.Decode(b).value.entries;
    MessagesAreWellFormed(m);
    P.DecodeAcceptsExactlyEncodings(b, AsCbor(m));
    OwnEntriesAreTrim(m);
    if forall k | k in entries :: !IsEmptyAt(k, entries[k]) {
      assert Trim(entries) == entries;
    } else {
      var k :| k in entries && IsEmptyAt(k, entries[k]);
      assert k !in Trim(entries);
    }
  }

  // ---- What encodes ----

  lemma AttachmentSize(a: Attachment)
    requires a.byteLength <= MAX_ATTACHMENT_BYTES
    ensures P.Fits(Expand(AttachmentValue(a)), 2) && |Wire.EncodeWire(Expand(AttachmentValue(a)))| <= 66
  {
    hide SortedKeys, P.TotalWeight, CborSizes.PresentWeight, P.Fits, Expand, Wire.EncodeWire, NoRepeats;
    var v := AttachmentValue(a);
    assert v.Map?;
    hide AttachmentValue;
    AttachmentEntriesFit(a);
    AttachmentWeight(a);
    CborSizes.MapSize(v, 2);
    FourLabels();
    CborSizes.RecordWeight(v, [0, 1, 2, 3]);
  }

  lemma FourLabels()
    ensures NoRepeats([0, 1, 2, 3])
  {
    assert [0, 1, 2, 3][1..] == [1, 2, 3] && [1, 2, 3][1..] == [2, 3] && [2, 3][1..] == [3];
    assert NoRepeats([3]) && NoRepeats([2, 3]) && NoRepeats([1, 2, 3]);
  }

  lemma AttachmentEntriesFit(a: Attachment)
    requires a.byteLength <= MAX_ATTACHMENT_BYTES
    ensures AttachmentValue(a).entries.Keys == {0, 1, 2, 3} && |AttachmentValue(a).entries| == 4
    ensures forall k | k in AttachmentValue(a).entries :: P.Fits(Expand(AttachmentValue(a).entries[k]), 3)
  {
    var v := AttachmentValue(a);
    assert v.entries.Keys == {0, 1, 2, 3};
  }

  lemma AttachmentWeight(a: Attachment)
    requires a.byteLength <= MAX_ATTACHMENT_BYTES
    ensures CborSizes.PresentWeight(AttachmentValue(a), [0, 1, 2, 3]) <= 65
  {
    var v := AttachmentValue(a);
    assert [0, 1, 2, 3][1..] == [1, 2, 3] && [1, 2, 3][1..] == [2, 3] && [2, 3][1..] == [3] && [3][1..] == [];
    assert P.Weight(v, 0) == 18 && P.Weight(v, 1) <= 6 && P.Weight(v, 2) <= 6 && P.Weight(v, 3) == 35;
    assert CborSizes.PresentWeight(v, []) == 0;
    assert CborSizes.PresentWeight(v, [3]) == 35;
    assert CborSizes.PresentWeight(v, [2, 3]) <= 41;
    assert CborSizes.PresentWeight(v, [1, 2, 3]) <= 47;
  }

  lemma {:induction false} AttachmentValuesAre(attachments: seq<Attachment>, v: CborValue)
    requires v in AttachmentValues(attachments)
    ensures exists a | a in attachments :: v == AttachmentValue(a)
  {
    if v == AttachmentValue(attachments[0]) {
      assert attachments[0] in attachments;
    } else {
      AttachmentValuesAre(attachments[1..], v);
    }
  }

  lemma ValidAttachments(m: Message)
    requires Validate(m).Ok?
    ensures |m.attachments| <= MAX_ATTACHMENTS && forall a | a in m.attachments :: a.byteLength <= MAX_ATTACHMENT_BYTES
  {
    hide ExtensionsOk, ChunkFieldsOk, CheckDescriptors, DecodeReceiveState;
  }

  lemma EachAttachmentFits(m: Message)
    requires Validate(m).Ok?
    ensures forall v | v in AttachmentValues(m.attachments) ::
              P.Fits(Expand(v), 2) && |Wire.EncodeWire(Expand(v))| <= 66
  {
    hide P.Fits, Expand, Wire.EncodeWire, AttachmentValue, Validate;
    ValidAttachments(m);
    forall v | v in AttachmentValues(m.attachments)
      ensures P.Fits(Expand(v), 2) && |Wire.EncodeWire(Expand(v))| <= 66
    {
      AttachmentValuesAre(m.attachments, v);
      var a :| a in m.attachments && v == AttachmentValue(a);
      AttachmentSize(a);
    }
  }

  lemma AttachmentsSize(m: Message)
    requires Validate(m).Ok?
    ensures P.Fits(Expand(Array(AttachmentValues(m.attachments))), 1)
    ensures |Wire.EncodeWire(Expand(Array(AttachmentValues(m.attachments))))| <= 529
  {
    ValidAttachments(m);
    EachAttachmentFits(m);
    hide Validate, AttachmentValues;
    CborSizes.ItemsSizeAtMost(AttachmentValues(m.attachments), 2, 66);
  }

  lemma ExtensionsSize(extensions: map<u32, Bytes>)
    requires ExtensionsOk(extensions)
    ensures P.Fits(Expand(Map(ExtensionEntries(extensions))), 1)
    ensures |Wire.EncodeWire(Expand(Map(ExtensionEntries(extensions))))| <= 65_665
  {
    hide SortedKeys, ExpandEntries, Wire.EncodeEntries, P.TotalWeight, P.Weight, P.Fits;
    var v := Map(ExtensionEntries(extensions));
    SameSize(extensions);
    forall k | k in v.entries
      ensures k <= MAX_SAFE_INTEGER && P.Fits(Expand(v.entries[k]), 2) && P.Weight(v, k) <= 4_104
    {
      ExtensionSize(extensions, k);
    }
    CborSizes.MapSize(v, 1);
    CborSizes.WeightAtMost(v, SortedKeys(v.entries.Keys), 4_104);
  }

  lemma ExtensionSize(extensions: map<u32, Bytes>, key: nat)
    requires ExtensionsOk(extensions) && key in ExtensionEntries(extensions)
    ensures var v := Map(ExtensionEntries(extensions));
            key <= MAX_SAFE_INTEGER && P.Fits(Expand(v.entries[key]), 2) && P.Weight(v, key) <= 4_104
  {
  }

  lemma SameSize(extensions: map<u32, Bytes>)
    ensures |ExtensionEntries(extensions)| == |extensions|
  {
    var keys: set<nat> := set k: nat | k in extensions;
    assert ExtensionEntries(extensions).Keys == keys;
    assert extensions.Keys == keys;
  }

  /** The most octets the value under a label can take. */
  function Cap(key: nat): nat {
    match key
    case 0 => 17
    case 1 => 1
    case 2 => 17
    case 3 => 5
    case 4 => 262_149
    case 5 => 65_665
    case 6 => 1
    case 7 => 9
    case 8 => 1
    case 9 => 17
    case _ => 529
  }

  lemma ScalarFits(m: Message, key: nat)
    requires Field(m, key).Some? && key != 5 && key != 6 && key != 10
    requires |m.payload| <= MAX_PAYLOAD_BYTES && (m.chunkIndex.Some? ==> m.chunkIndex.value <= MAX_SAFE_INTEGER)
    ensures var v := Field(m, key).value; P.Fits(Expand(v), 1) && |Wire.EncodeWire(Expand(v))| <= Cap(key)
  {
  }

  lemma FieldsFit(m: Message, key: nat)
    requires Validate(m).Ok? && key in Entries(m)
    requires m.chunkIndex.Some? ==> m.chunkIndex.value <= MAX_SAFE_INTEGER
    ensures P.Fits(Expand(Entries(m)[key]), 1) && |Wire.EncodeWire(Expand(Entries(m)[key]))| <= Cap(key)
  {
    hide P.Fits, Expand, Wire.EncodeWire, CheckDescriptors, DecodeReceiveState, ChunkFieldsOk;
    assert m.critical == [] && |m.payload| <= MAX_PAYLOAD_BYTES && ExtensionsOk(m.extensions);
    hide Validate, ExtensionsOk;
    if key == 5 {
      ExtensionsSize(m.extensions);
    } else if key == 10 {
      AttachmentsSize(m);
    } else {
      assert key != 6 && Entries(m)[key] == Field(m, key).value;
      hide Field, Entries;
      ScalarFits(m, key);
    }
  }

  function LabelsFrom(key: nat): (r: seq<nat>)
    ensures forall k: nat :: k in r <==> key <= k <= MAX_LABEL
    decreases MAX_LABEL + 1 - key
  {
    if key > MAX_LABEL then [] else [key] + LabelsFrom(key + 1)
  }

  function CapsFrom(key: nat): nat
    decreases MAX_LABEL + 1 - key
  {
    if key > MAX_LABEL then 0 else 1 + Cap(key) + CapsFrom(key + 1)
  }

  lemma {:induction false} LabelsDoNotRepeat(key: nat)
    ensures NoRepeats(LabelsFrom(key))
    decreases MAX_LABEL + 1 - key
  {
    if key <= MAX_LABEL {
      LabelsDoNotRepeat(key + 1);
      assert LabelsFrom(key)[1..] == LabelsFrom(key + 1);
    }
  }

  /** Entries within the caps of their labels. */
  predicate Capped(entries: map<nat, CborValue>) {
    forall k | k in entries ::
      k <= MAX_LABEL && P.Fits(Expand(entries[k]), 1) && |Wire.EncodeWire(Expand(entries[k]))| <= Cap(k)
  }

  lemma {:induction false} WeightWithinCaps(v: CborValue, key: nat)
    requires v.Map? && Capped(v.entries)
    ensures CborSizes.PresentWeight(v, LabelsFrom(key)) <= CapsFrom(key)
    decreases MAX_LABEL + 1 - key
  {
    hide Cap, Expand, Wire.EncodeWire;
    if key <= MAX_LABEL {
      WeightWithinCaps(v, key + 1);
      assert LabelsFrom(key)[1..] == LabelsFrom(key + 1);
      assert Wire.HeadLength(key) == 1;
    }
  }

  lemma CapsFit()
    ensures CapsFrom(0) + 1 <= Wire.MAX_ENCODED_BYTES
  {
    assert CapsFrom(10) == 530;
    assert CapsFrom(9) == 548;
    assert CapsFrom(8) == 550;
    assert CapsFrom(7) == 560;
    assert CapsFrom(6) == 562;
    assert CapsFrom(5) == 66_228;
    assert CapsFrom(4) == 328_378;
    assert CapsFrom(3) == 328_384;
    assert CapsFrom(2) == 328_402;
    assert CapsFrom(1) == 328_404;
  }

  lemma {:induction false} UnfitMemberUnfits(v: CborValue, keys: seq<nat>, key: nat, depth: nat)
    requires v.Map? && (forall k | k in keys :: k in v.entries) && key in keys
    requires !P.Fits(Expand(v.entries[key]), depth)
    ensures !P.EntriesFit(ExpandEntries(v, keys), depth)
  {
    if keys[0] != key {
      UnfitMemberUnfits(v, keys[1..], key, depth);
      assert ExpandEntries(v, keys)[1..] == ExpandEntries(v, keys[1..]);
    }
  }

  lemma CappedRecordSize(v: CborValue)
    requires v.Map? && Capped(v.entries)
    ensures P.Fits(Expand(v), 0) && |Wire.EncodeWire(Expand(v))| <= Wire.MAX_ENCODED_BYTES
  {
    hide Expand, Wire.EncodeWire, P.Fits, CborSizes.PresentWeight, CapsFrom, P.TotalWeight, Cap;
    hide SortedKeys, LabelsFrom, NoRepeats;
    FewLabels(v.entries);
    CborSizes.MapSize(v, 0);
    CapsFit();
    LabelsDoNotRepeat(0);
    CborSizes.RecordWeight(v, LabelsFrom(0));
    WeightWithinCaps(v, 0);
  }

  lemma CappedRecordsFit(v: CborValue)
    requires v.Map? && Capped(v.entries)
    ensures P.Encode(v).Ok?
  {
    hide Expand, Wire.EncodeWire, P.Fits, P.Measure, Capped;
    CappedRecordSize(v);
    P.MeasureIsExact(Expand(v), 0);
  }

  lemma FewLabels(entries: map<nat, CborValue>)
    requires Labelled(entries)
    ensures |entries| <= 11 && forall k | k in entries :: k in LabelsFrom(0)
  {
    var labels := {0, 1, 2, 3, 4, 5, 6, 7, 8, 9, 10};
    assert entries.Keys <= labels;
    SubsetSize(entries.Keys, labels);
  }

  lemma OwnEntriesAreCapped(m: Message)
    requires Validate(m).Ok? && (m.chunkIndex.Some? ==> m.chunkIndex.value <= MAX_SAFE_INTEGER)
    ensures Capped(Entries(m))
  {
    hide Validate, Field, Cap, Expand, Wire.EncodeWire, P.Fits;
    forall k | k in Entries(m)
      ensures P.Fits(Expand(Entries(m)[k]), 1) && |Wire.EncodeWire(Expand(Entries(m)[k]))| <= Cap(k)
    {
      FieldsFit(m, k);
    }
  }

  /** A valid message encodes exactly when its chunk index, if any, is a safe integer: no other bound can fail. */
  lemma EncodesExactly(m: Message)
    requires Validate(m).Ok?
    ensures Encode(m).Ok? <==> m.chunkIndex.None? || m.chunkIndex.value <= MAX_SAFE_INTEGER
  {
    hide Validate;
    if m.chunkIndex.None? || m.chunkIndex.value <= MAX_SAFE_INTEGER {
      OwnEntriesAreCapped(m);
      CappedRecordsFit(AsCbor(m));
    } else {
      var v := AsCbor(m);
      assert 7 in v.entries && v.entries[7] == Unsigned(m.chunkIndex.value);
      UnfitMemberUnfits(v, SortedKeys(v.entries.Keys), 7, 1);
      P.MeasureIsExact(Expand(v), 0);
    }
  }

  // ---- Second forms ----

  function EmptyAt(key: nat): CborValue {
    if key == 5 then Map(map[]) else Array([])
  }

  /** The entries of a message with an empty collection put in where it has none. */
  function Padded(m: Message, key: nat): map<nat, CborValue> {
    Entries(m)[key := EmptyAt(key)]
  }

  lemma EmptyFits(key: nat)
    requires key in {5, 6, 10}
    ensures P.Fits(Expand(EmptyAt(key)), 1) && |Wire.EncodeWire(Expand(EmptyAt(key)))| <= Cap(key)
    ensures P.WellFormed(EmptyAt(key))
  {
  }

  lemma PaddedFits(m: Message, key: nat)
    requires Encode(m).Ok? && key in {5, 6, 10}
    ensures P.Encode(Map(Padded(m, key))).Ok? && P.WellFormed(Map(Padded(m, key)))
  {
    hide Padded, Capped, P.WellFormed, P.Encode;
    PaddedIsCapped(m, key);
    PaddedIsWellFormed(m, key);
    CappedRecordsFit(Map(Padded(m, key)));
  }

  lemma PaddedIsCapped(m: Message, key: nat)
    requires Encode(m).Ok? && key in {5, 6, 10}
    ensures Capped(Padded(m, key))
  {
    hide Validate, Entries, EmptyAt, P.Fits, Expand, Wire.EncodeWire, Cap, P.Encode;
    EncodesExactly(m);
    OwnEntriesAreCapped(m);
    EmptyFits(key);
  }

  lemma PaddedIsWellFormed(m: Message, key: nat)
    requires key in {5, 6, 10}
    ensures P.WellFormed(Map(Padded(m, key)))
  {
    hide Entries, EmptyAt;
    MessagesAreWellFormed(m);
    EmptyFits(key);
  }

  lemma PaddingIsTrimmed(m: Message, key: nat)
    requires key in {5, 6, 10} && key !in Entries(m)
    ensures Trim(Padded(m, key)) == Entries(m)
  {
    hide Entries;
    OwnEntriesAreTrim(m);
    assert forall k | k in Entries(m) :: k in Trim(Entries(m)) && !IsEmptyAt(k, Entries(m)[k]);
  }

  /**
   The converse fails: the octets of a message with an empty map of extensions, an empty array
   of critical labels or an empty array of attachments decode to it and are not its encoding.
   */
  lemma DecodingHasSecondForms(m: Message, key: nat)
    requires Encode(m).Ok? && key in {5, 6, 10} && key !in Entries(m)
    ensures var b := P.Encode(Map(Padded(m, key)));
            b.Ok? && Decode(b.value) == Errors.Ok(m) && Encode(m) != b
  {
    hide P.Encode, P.Decode, Validate, Entries, Decode, EmptyAt;
    PaddedFits(m, key);
    PaddingIsTrimmed(m, key);
    var b := P.Encode(Map(Padded(m, key))).value;
    P.DecodeInvertsEncode(Map(Padded(m, key)));
    DecodesExactly(b, m);
    MessagesAreWellFormed(m);
    P.DecodeAcceptsExactlyEncodings(b, AsCbor(m));
  }

  /** No valid message has critical labels, so every message that encodes has octets besides its encoding. */
  lemma EveryMessageHasASecondForm(m: Message)
    requires Encode(m).Ok?
    ensures exists b :: Decode(b) == Errors.Ok(m) && Encode(m) != Errors.Ok(b)
  {
    hide Decode, P.Encode;
    NoCriticalLabels(m);
    hide Encode, Entries, Validate;
    DecodingHasSecondForms(m, 6);
  }

  lemma NoCriticalLabels(m: Message)
    requires Validate(m).Ok?
    ensures m.critical == [] && 6 !in Entries(m)
  {
    hide ExtensionsOk, ChunkFieldsOk, CheckDescriptors, DecodeReceiveState;
  }

  // ---- Receive states ----

  /** Each state was accepted as the successor of the one before; `verified` is what the caller vouched for. */
  ghost predicate AcceptedInTurn(states: seq<ReceiveState>, verified: seq<bool>) {
    && |states| == |verified| + 1
    && forall i | 0 <= i < |verified| :: ValidateSuccessor(states[i], states[i + 1], verified[i]).Ok?
  }

  /**
   Over every accepted run: one attachment; update numbers and recovery rounds never fall, and
   an update number names one state; a final state stays; and nothing becomes complete unverified.
   */
  lemma {:induction false} ReceiveStatesAdvance(states: seq<ReceiveState>, verified: seq<bool>, i: nat, j: nat)
    requires AcceptedInTurn(states, verified) && i <= j < |states|
    ensures states[j].attachmentId == states[i].attachmentId
    ensures states[i].stateUpdate <= states[j].stateUpdate && states[i].recoveryRound <= states[j].recoveryRound
    ensures states[i].stateUpdate == states[j].stateUpdate <==> states[i] == states[j]
    ensures !states[i].outcome.Pending? ==> states[j] == states[i]
    ensures states[j].outcome.Complete? ==>
              states[i].outcome.Complete? || exists k | i <= k < j :: states[k].outcome.Pending? && verified[k]
    decreases j - i
  {
    hide ValidateReceiveState;
    if i < j {
      ReceiveStatesAdvance(states, verified, i, j - 1);
      assert ValidateSuccessor(states[j - 1], states[j], verified[j - 1]).Ok?;
    }
  }

  /** A run takes no more than 65 different states. */
  lemma {:induction false} ReceiveStatesAreFew(states: seq<ReceiveState>, verified: seq<bool>)
    requires AcceptedInTurn(states, verified) && ValidateReceiveState(states[0]).Ok?
    ensures |set s | s in states| <= states[|verified|].stateUpdate + 1 <= MAX_STATE_UPDATE + 1
    decreases |verified|
  {
    var n := |verified|;
    if n == 0 {
      assert (set s | s in states) == {states[0]};
    } else {
      var earlier := set s | s in states[..n];
      ReceiveStatesAreFew(states[..n], verified[..n - 1]);
      assert ValidateSuccessor(states[n - 1], states[n], verified[n - 1]).Ok?;
      hide ValidateReceiveState;
      assert (set s | s in states) == earlier + {states[n]};
    }
  }
}
