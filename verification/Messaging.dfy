/** Messages and receive states over the codec (src/messaging.rs): validation, encoding, decoding. */
module Messaging {
  import Errors
  import opened Integers
  import opened Octets
  import opened Cbor
  import opened ChunkRanges
  import CborProperties

  type Result<+T> = Errors.Result<T>
  type Option<+T> = Errors.Option<T>
  type Octets16 = b: Bytes | |b| == 16 witness seq(16, _ => 0)
  type Octets32 = b: Bytes | |b| == 32 witness seq(32, _ => 0)

  const MAX_PAYLOAD_BYTES := 262_144
  const MAX_ATTACHMENTS := 8
  const MAX_EXTENSIONS := 16
  const MAX_EXTENSION_BYTES := 4_096
  const MAX_REQUEST_RANGES := 32
  const MAX_REQUESTED_CHUNKS := 128
  const MAX_STATE_UPDATE := 64
  const MAX_RECOVERY_ROUND := 32
  const MAX_FAILURE_CODE := 14
  const MAX_CONTROL_RECORD_BYTES := 65_536
  const RESERVED_START := 4_294_901_760
  const ATTACHMENT_RECEIVE_STATE := 4_294_901_761
  const MAX_LABEL := 10

  datatype Kind = Event | Request | Response | Failure | Cancel | StreamChunk

  datatype Attachment = Attachment(id: Octets16, mediaType: u32, byteLength: u64, contentDigest: Octets32)

  datatype Message = Message(
    id: Octets16,
    kind: Kind,
    relatesTo: Option<Octets16>,
    contentType: u32,
    payload: Bytes,
    extensions: map<u32, Bytes>,
    critical: seq<u32>,
    chunkIndex: Option<u64>,
    chunkFinal: Option<bool>,
    attachmentId: Option<Octets16>,
    attachments: seq<Attachment>)

  datatype Outcome = Pending | Complete | Cancelled | Failed

  datatype ReceiveState = ReceiveState(
    attachmentId: Octets16,
    ranges: seq<ChunkRange>,
    stateUpdate: nat,
    outcome: Outcome,
    failureCode: Option<nat>,
    recoveryRound: nat)

  function Refuse<T>(code: Errors.ErrorCode): Result<T> {
    Errors.Err(Errors.Invalid(code))
  }

  // ---- Reading a map of labels ----

  function OctetsAt(entries: map<nat, CborValue>, key: nat): Result<Bytes> {
    if key in entries && entries[key].ByteString? then Errors.Ok(entries[key].bytes)
    else Refuse(Errors.InvalidRepresentation)
  }

  function Fixed16(entries: map<nat, CborValue>, key: nat): Result<Octets16> {
    var b :- OctetsAt(entries, key);
    if |b| == 16 then Errors.Ok(b) else Refuse(Errors.InvalidRepresentation)
  }

  function Fixed32(entries: map<nat, CborValue>, key: nat): Result<Octets32> {
    var b :- OctetsAt(entries, key);
    if |b| == 32 then Errors.Ok(b) else Refuse(Errors.InvalidRepresentation)
  }

  function Number(entries: map<nat, CborValue>, key: nat): Result<nat> {
    if key in entries && entries[key].Unsigned? then Errors.Ok(entries[key].number)
    else Refuse(Errors.InvalidRepresentation)
  }

  function Number32(entries: map<nat, CborValue>, key: nat): Result<u32> {
    var n :- Number(entries, key);
    if n > MAX_U32 then Refuse(Errors.BoundExceeded) else Errors.Ok(n)
  }

  /** Labels carry at most 64 bits; the codec already refuses more than 53. */
  function Number64(entries: map<nat, CborValue>, key: nat): Result<u64> {
    var n :- Number(entries, key);
    if n > MAX_U64 then Refuse(Errors.BoundExceeded) else Errors.Ok(n)
  }

  function Optionally<T>(entries: map<nat, CborValue>, key: nat, r: Result<T>): Result<Option<T>> {
    if key !in entries then Errors.Ok(Errors.None)
    else match r
      case Err(e) => Errors.Err(e)
      case Ok(value) => Errors.Ok(Errors.Some(value))
  }

  function Flag(entries: map<nat, CborValue>, key: nat): Result<bool> {
    if key in entries && entries[key].Boolean? then Errors.Ok(entries[key].flag)
    else Refuse(Errors.InvalidRepresentation)
  }

  // ---- Receive states ----

  function ReadRange(v: CborValue): Result<ChunkRange> {
    if !v.Map? then Refuse(Errors.InvalidRepresentation)
    else
      var start :- Number64(v.entries, 0);
      var end :- Number64(v.entries, 1);
      if v.entries.Keys != {0, 1} then Refuse(Errors.UnknownField) else Errors.Ok(ChunkRange(start, end))
  }

  function ReadRanges(items: seq<CborValue>): Result<seq<ChunkRange>> {
    if items == [] then Errors.Ok([])
    else
      var range :- ReadRange(items[0]);
      var rest :- ReadRanges(items[1..]);
      Errors.Ok([range] + rest)
  }

  function OutcomeOf(n: nat): Result<Outcome> {
    match n
    case 0 => Errors.Ok(Pending)
    case 1 => Errors.Ok(Complete)
    case 2 => Errors.Ok(Cancelled)
    case 3 => Errors.Ok(Failed)
    case _ => Refuse(Errors.UnknownField)
  }

  function ReadReceiveState(v: CborValue): Result<ReceiveState> {
    if !v.Map? then Refuse(Errors.InvalidRepresentation)
    else if exists k | k in v.entries :: k > 5 then Refuse(Errors.UnknownField)
    else
      var ranges :- if 1 in v.entries && v.entries[1].Array? then ReadRanges(v.entries[1].items)
        else Refuse(Errors.InvalidRepresentation);
      var number :- Number(v.entries, 3);
      var outcome :- OutcomeOf(number);
      var attachmentId :- Fixed16(v.entries, 0);
      var stateUpdate :- Number(v.entries, 2);
      var failureCode :- Optionally(v.entries, 4, Number(v.entries, 4));
      var recoveryRound :- Number(v.entries, 5);
      var state := ReceiveState(attachmentId, ranges, stateUpdate, outcome, failureCode, recoveryRound);
      var _ :- ValidateReceiveState(state);
      Errors.Ok(state)
  }

  function DecodeReceiveState(b: Bytes): Result<ReceiveState> {
    if |b| > MAX_CONTROL_RECORD_BYTES then Refuse(Errors.BoundExceeded)
    else
      var v :- CborProperties.Decode(b);
      ReadReceiveState(v)
  }

  function ValidateReceiveState(s: ReceiveState): Result<()> {
    if || |s.ranges| > MAX_REQUEST_RANGES || s.stateUpdate > MAX_STATE_UPDATE || s.recoveryRound > MAX_RECOVERY_ROUND
       || (s.failureCode.Some? && s.failureCode.value > MAX_FAILURE_CODE)
    then Refuse(Errors.BoundExceeded)
    else
      var _ :- CheckRanges(s.ranges, Errors.None, 0, MAX_REQUESTED_CHUNKS);
      if (s.outcome.Cancelled? || s.outcome.Failed?) != s.failureCode.Some? || (s.ranges == []) != s.outcome.Complete?
      then Refuse(Errors.InvalidTransition)
      else Errors.Ok(())
  }

  function ValidateSuccessor(s: ReceiveState, next: ReceiveState, completionVerified: bool): Result<()> {
    var _ :- ValidateReceiveState(s);
    var _ :- ValidateReceiveState(next);
    if s.attachmentId != next.attachmentId || next.stateUpdate < s.stateUpdate || next.recoveryRound < s.recoveryRound
    then Refuse(Errors.InvalidTransition)
    else if next.stateUpdate == s.stateUpdate then if s == next then Errors.Ok(()) else Refuse(Errors.Conflict)
    else if !s.outcome.Pending? || (next.outcome.Complete? && !completionVerified) then Refuse(Errors.InvalidTransition)
    else Errors.Ok(())
  }

  // ---- Validation ----

  predicate ExtensionsOk(extensions: map<u32, Bytes>) {
    && |extensions| <= MAX_EXTENSIONS
    && forall k | k in extensions :: 65_536 <= k <= 2_147_483_647 && |extensions[k]| <= MAX_EXTENSION_BYTES
  }

  predicate Correlated(m: Message) {
    || m.kind.Response? || m.kind.Failure? || m.kind.Cancel? || m.kind.StreamChunk?
    || (m.kind.Event? && m.contentType == ATTACHMENT_RECEIVE_STATE)
  }

  predicate ChunkFieldsOk(m: Message) {
    var chunk := m.kind.StreamChunk?;
    && chunk == m.chunkIndex.Some?
    && (!chunk ==> m.chunkFinal.None? && m.attachmentId.None?)
    && (chunk ==> m.chunkFinal.Some? != m.attachmentId.Some?)
  }

  /** Descriptors are distinct; the same one twice and two under one identifier are told apart. */
  function CheckDescriptors(attachments: seq<Attachment>, seen: map<Octets16, Attachment>): Result<()> {
    if attachments == [] then Errors.Ok(())
    else if attachments[0].id in seen then
      Refuse(if seen[attachments[0].id] == attachments[0] then Errors.InvalidRepresentation else Errors.Conflict)
    else CheckDescriptors(attachments[1..], seen[attachments[0].id := attachments[0]])
  }

  function Validate(m: Message): Result<()> {
    if |m.payload| > MAX_PAYLOAD_BYTES || |m.attachments| > MAX_ATTACHMENTS then Refuse(Errors.BoundExceeded)
    else if !ExtensionsOk(m.extensions) || |m.critical| > 16 then Refuse(Errors.BoundExceeded)
    else if m.critical != [] then Refuse(Errors.UnknownField)
    else if Correlated(m) != m.relatesTo.Some? then Refuse(Errors.InvalidTransition)
    else if m.contentType >= RESERVED_START && m.contentType != ATTACHMENT_RECEIVE_STATE then Refuse(Errors.UnknownField)
    else if !ChunkFieldsOk(m) then Refuse(Errors.InvalidTransition)
    else if m.contentType == ATTACHMENT_RECEIVE_STATE
            && (!m.kind.Event? || m.relatesTo.None? || m.attachments != [] || DecodeReceiveState(m.payload).Err?)
    then Refuse(Errors.InvalidTransition)
    else if exists a | a in m.attachments :: a.byteLength > MAX_ATTACHMENT_BYTES then Refuse(Errors.BoundExceeded)
    else CheckDescriptors(m.attachments, map[])
  }

  // ---- Messages as values ----

  function KindNumber(kind: Kind): nat {
    match kind
    case Event => 0
    case Request => 1
    case Response => 2
    case Failure => 3
    case Cancel => 4
    case StreamChunk => 5
  }

  function KindOf(n: nat): Result<Kind> {
    match n
    case 0 => Errors.Ok(Event)
    case 1 => Errors.Ok(Request)
    case 2 => Errors.Ok(Response)
    case 3 => Errors.Ok(Failure)
    case 4 => Errors.Ok(Cancel)
    case 5 => Errors.Ok(StreamChunk)
    case _ => Refuse(Errors.UnknownField)
  }

  function AttachmentValue(a: Attachment): CborValue {
    Map(map[0 := ByteString(a.id), 1 := Unsigned(a.mediaType), 2 := Unsigned(a.byteLength),
            3 := ByteString(a.contentDigest)])
  }

  function AttachmentValues(attachments: seq<Attachment>): (r: seq<CborValue>)
    ensures |r| == |attachments|
  {
    if attachments == [] then [] else [AttachmentValue(attachments[0])] + AttachmentValues(attachments[1..])
  }

  function Numbers(values: seq<u32>): (r: seq<CborValue>)
    ensures |r| == |values|
  {
    if values == [] then [] else [Unsigned(values[0])] + Numbers(values[1..])
  }

  function ExtensionEntries(extensions: map<u32, Bytes>): map<nat, CborValue> {
    map k: nat | k in extensions :: ByteString(extensions[k])
  }

  function AsOption(present: bool, v: CborValue): Option<CborValue> {
    if present then Errors.Some(v) else Errors.None
  }

  /** What a message puts under each label, if anything. */
  function Field(m: Message, key: nat): Option<CborValue> {
    match key
    case 0 => Errors.Some(ByteString(m.id))
    case 1 => Errors.Some(Unsigned(KindNumber(m.kind)))
    case 2 => if m.relatesTo.Some? then Errors.Some(ByteString(m.relatesTo.value)) else Errors.None
    case 3 => Errors.Some(Unsigned(m.contentType))
    case 4 => Errors.Some(ByteString(m.payload))
    case 5 => AsOption(m.extensions != map[], Map(ExtensionEntries(m.extensions)))
    case 6 => AsOption(m.critical != [], Array(Numbers(m.critical)))
    case 7 => if m.chunkIndex.Some? then Errors.Some(Unsigned(m.chunkIndex.value)) else Errors.None
    case 8 => if m.chunkFinal.Some? then Errors.Some(Boolean(m.chunkFinal.value)) else Errors.None
    case 9 => if m.attachmentId.Some? then Errors.Some(ByteString(m.attachmentId.value)) else Errors.None
    case 10 => AsOption(m.attachments != [], Array(AttachmentValues(m.attachments)))
    case _ => Errors.None
  }

  function Entries(m: Message): map<nat, CborValue> {
    map k: nat | 0 <= k <= MAX_LABEL && Field(m, k).Some? :: Field(m, k).value
  }

  function AsCbor(m: Message): CborValue {
    Map(Entries(m))
  }

  predicate Holds(entries: map<nat, CborValue>, key: nat, field: Option<CborValue>) {
    if field.Some? then key in entries && entries[key] == field.value else key !in entries
  }

  /** Two maps that hold the same fields under all eleven labels, and nothing else, are one. */
  lemma MapIsDetermined(x: map<nat, CborValue>, y: map<nat, CborValue>, m: Message)
    requires y == Entries(m) && forall k | k in x :: k <= MAX_LABEL
    requires && Holds(x, 0, Field(m, 0)) && Holds(x, 1, Field(m, 1)) && Holds(x, 2, Field(m, 2))
             && Holds(x, 3, Field(m, 3)) && Holds(x, 4, Field(m, 4)) && Holds(x, 5, Field(m, 5))
             && Holds(x, 6, Field(m, 6)) && Holds(x, 7, Field(m, 7)) && Holds(x, 8, Field(m, 8))
             && Holds(x, 9, Field(m, 9)) && Holds(x, 10, Field(m, 10))
    ensures x == y
  {
    hide Field;
    forall k: nat
      ensures k in x <==> k in y
      ensures k in x ==> x[k] == y[k]
    {
    }
  }

  function Encode(m: Message): Result<Bytes> {
    var _ :- Validate(m);
    CborProperties.Encode(AsCbor(m))
  }

  // ---- Decoding ----

  function ReadExtensions(entries: map<nat, CborValue>, keys: seq<nat>): Result<map<u32, Bytes>>
    requires forall k | k in keys :: k in entries
  {
    if keys == [] then Errors.Ok(map[])
    else if keys[0] > MAX_U32 then Refuse(Errors.BoundExceeded)
    else if !entries[keys[0]].ByteString? then Refuse(Errors.InvalidRepresentation)
    else
      var rest :- ReadExtensions(entries, keys[1..]);
      Errors.Ok(rest[keys[0] := entries[keys[0]].bytes])
  }

  function ReadNumbers(items: seq<CborValue>): Result<seq<u32>> {
    if items == [] then Errors.Ok([])
    else if !items[0].Unsigned? then Refuse(Errors.InvalidRepresentation)
    else if items[0].number > MAX_U32 then Refuse(Errors.BoundExceeded)
    else
      var rest :- ReadNumbers(items[1..]);
      Errors.Ok([items[0].number] + rest)
  }

  function ReadAttachment(v: CborValue): Result<Attachment> {
    if !v.Map? then Refuse(Errors.InvalidRepresentation)
    else
      var id :- Fixed16(v.entries, 0);
      var mediaType :- Number32(v.entries, 1);
      var byteLength :- Number64(v.entries, 2);
      var contentDigest :- Fixed32(v.entries, 3);
      if v.entries.Keys != {0, 1, 2, 3} then Refuse(Errors.UnknownField)
      else Errors.Ok(Attachment(id, mediaType, byteLength, contentDigest))
  }

  function ReadAttachments(items: seq<CborValue>): Result<seq<Attachment>> {
    if items == [] then Errors.Ok([])
    else
      var a :- ReadAttachment(items[0]);
      var rest :- ReadAttachments(items[1..]);
      Errors.Ok([a] + rest)
  }

  function ExtensionsAt(entries: map<nat, CborValue>): Result<map<u32, Bytes>> {
    if 5 !in entries then Errors.Ok(map[])
    else if entries[5].Map? then ReadExtensions(entries[5].entries, SortedKeys(entries[5].entries.Keys))
    else Refuse(Errors.InvalidRepresentation)
  }

  function CriticalAt(entries: map<nat, CborValue>): Result<seq<u32>> {
    if 6 !in entries then Errors.Ok([])
    else if entries[6].Array? then ReadNumbers(entries[6].items)
    else Refuse(Errors.InvalidRepresentation)
  }

  function AttachmentsAt(entries: map<nat, CborValue>): Result<seq<Attachment>> {
    if 10 !in entries then Errors.Ok([])
    else if entries[10].Array? then ReadAttachments(entries[10].items)
    else Refuse(Errors.InvalidRepresentation)
  }

  function Read(entries: map<nat, CborValue>): Result<Message> {
    if exists k | k in entries :: k > MAX_LABEL then Refuse(Errors.UnknownField)
    else
      var id :- Fixed16(entries, 0);
      var number :- Number(entries, 1);
      var kind :- KindOf(number);
      var relatesTo :- Optionally(entries, 2, Fixed16(entries, 2));
      var contentType :- Number32(entries, 3);
      var payload :- OctetsAt(entries, 4);
      var extensions :- ExtensionsAt(entries);
      var critical :- CriticalAt(entries);
      var chunkIndex :- Optionally(entries, 7, Number64(entries, 7));
      var chunkFinal :- Optionally(entries, 8, Flag(entries, 8));
      var attachmentId :- Optionally(entries, 9, Fixed16(entries, 9));
      var attachments :- AttachmentsAt(entries);
      var m := Message(
        id, kind, relatesTo, contentType, payload, extensions, critical, chunkIndex, chunkFinal, attachmentId, attachments);
      var _ :- Validate(m);
      Errors.Ok(m)
  }

  function Decode(b: Bytes): Result<Message> {
    var v :- CborProperties.Decode(b);
    if v.Map? then Read(v.entries) else Refuse(Errors.InvalidRepresentation)
  }
}
