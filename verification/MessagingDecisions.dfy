/** Exactly which messages and receive states are accepted, which octets decode to a receive state, and which states follow. */
module MessagingDecisions {
  import Errors
  import opened Integers
  import opened Octets
  import opened Cbor
  import opened ChunkRanges
  import opened Messaging
  import P = CborProperties

  // ---- Receive states ----

  /** Chunks are asked for unless all is complete; only a failure has a code; everything is within its bounds. */
  predicate ReceiveStands(s: ReceiveState) {
    && |s.ranges| <= 32 && Apart(s.ranges) && |Chunks(s.ranges)| <= 128
    && s.stateUpdate <= 64 && s.recoveryRound <= 32
    && match s.outcome
       case Pending => s.ranges != [] && s.failureCode.None?
       case Complete => s.ranges == [] && s.failureCode.None?
       case Cancelled => s.ranges != [] && s.failureCode.Some? && s.failureCode.value <= 14
       case Failed => s.ranges != [] && s.failureCode.Some? && s.failureCode.value <= 14
  }

  lemma ReceiveStatesExactly(s: ReceiveState)
    ensures ValidateReceiveState(s).Ok? <==> ReceiveStands(s)
    ensures ValidateReceiveState(s) != Refuse(Errors.Conflict)
  {
    hide CheckRanges, Apart, Chunks;
    RangesExactly(s.ranges, 128);
    RangesDoNotConflict(s.ranges, Errors.None, 0, 128);
  }

  lemma {:induction false} RangesDoNotConflict(
    ranges: seq<ChunkRange>, previousEnd: Option<u64>, covered: nat, maximum: nat)
    ensures CheckRanges(ranges, previousEnd, covered, maximum) != Refuse(Errors.Conflict)
    decreases |ranges|
  {
    if ranges != [] && ranges[0].start < ranges[0].end {
      RangesDoNotConflict(ranges[1..], Errors.Some(ranges[0].end), covered + (ranges[0].end - ranges[0].start), maximum);
    }
  }

  /** A state follows itself, and a pending one of the same attachment by a later update, in no earlier round. */
  lemma SuccessorsExactly(s: ReceiveState, next: ReceiveState, verified: bool)
    ensures ValidateSuccessor(s, next, verified).Ok? <==>
            && ReceiveStands(s) && ReceiveStands(next)
            && (next == s
                || (&& next.attachmentId == s.attachmentId && s.outcome.Pending?
                    && next.stateUpdate > s.stateUpdate && next.recoveryRound >= s.recoveryRound
                    && (next.outcome.Complete? ==> verified)))
    ensures ValidateSuccessor(s, next, verified) == Refuse(Errors.Conflict) <==>
            && ReceiveStands(s) && ReceiveStands(next) && next != s
            && next.attachmentId == s.attachmentId && next.stateUpdate == s.stateUpdate
            && next.recoveryRound >= s.recoveryRound
  {
    hide ReceiveStands, ValidateReceiveState;
    ReceiveStatesExactly(s);
    ReceiveStatesExactly(next);
  }

  // ---- Receive states as values ----

  function RangeValue(range: ChunkRange): CborValue {
    Map(map[0 := Unsigned(range.start), 1 := Unsigned(range.end)])
  }

  function RangeValues(ranges: seq<ChunkRange>): (r: seq<CborValue>)
    ensures |r| == |ranges|
  {
    if ranges == [] then [] else [RangeValue(ranges[0])] + RangeValues(ranges[1..])
  }

  function OutcomeNumber(outcome: Outcome): nat {
    match outcome
    case Pending => 0
    case Complete => 1
    case Cancelled => 2
    case Failed => 3
  }

  /** The record of a receive state: five labels, and a sixth for the code of a failure. */
  function StateEntries(s: ReceiveState): map<nat, CborValue> {
    var required: map<nat, CborValue> :=
      map[0 := ByteString(s.attachmentId), 1 := Array(RangeValues(s.ranges)), 2 := Unsigned(s.stateUpdate),
          3 := Unsigned(OutcomeNumber(s.outcome)), 5 := Unsigned(s.recoveryRound)];
    if s.failureCode.Some? then required[4 := Unsigned(s.failureCode.value)] else required
  }

  lemma RangeRead(v: CborValue, range: ChunkRange)
    ensures ReadRange(v) == Errors.Ok(range) <==> v == RangeValue(range)
  {
    if ReadRange(v) == Errors.Ok(range) {
      assert v.entries == RangeValue(range).entries;
    }
  }

  lemma {:induction false} RangesRead(items: seq<CborValue>, ranges: seq<ChunkRange>)
    ensures ReadRanges(items) == Errors.Ok(ranges) <==> items == RangeValues(ranges)
  {
    hide ReadRange, RangeValue;
    if items != [] && ranges != [] {
      RangeRead(items[0], ranges[0]);
      RangesRead(items[1..], ranges[1..]);
      assert ranges == [ranges[0]] + ranges[1..];
      assert items == [items[0]] + items[1..];
    }
  }

  lemma ReadStateIsItsRecord(v: CborValue, s: ReceiveState)
    requires ReadReceiveState(v) == Errors.Ok(s)
    ensures v == Map(StateEntries(s)) && ReceiveStands(s)
  {
    hide ReadRanges, RangeValues, ValidateReceiveState, ReceiveStands;
    ReceiveStatesExactly(s);
    RangesRead(v.entries[1].items, s.ranges);
    assert v.entries == StateEntries(s);
  }

  lemma RecordsRead(s: ReceiveState)
    requires ReceiveStands(s)
    ensures ReadReceiveState(Map(StateEntries(s))) == Errors.Ok(s)
  {
    hide ReadRanges, RangeValues, ValidateReceiveState, ReceiveStands;
    ReceiveStatesExactly(s);
    RangesRead(RangeValues(s.ranges), s.ranges);
  }

  lemma StateRead(v: CborValue, s: ReceiveState)
    ensures ReadReceiveState(v) == Errors.Ok(s) <==> v == Map(StateEntries(s)) && ReceiveStands(s)
  {
    hide ReadReceiveState, StateEntries, ReceiveStands;
    if ReadReceiveState(v) == Errors.Ok(s) {
      ReadStateIsItsRecord(v, s);
    } else if ReceiveStands(s) {
      RecordsRead(s);
    }
  }

  lemma StateEntriesAreWellFormed(s: ReceiveState)
    ensures P.WellFormed(Map(StateEntries(s)))
  {
    RangeValuesAreWellFormed(s.ranges);
    assert P.WellFormed(Array(RangeValues(s.ranges)));
  }

  lemma {:induction false} RangeValuesAreWellFormed(ranges: seq<ChunkRange>)
    ensures forall i | 0 <= i < |ranges| :: P.WellFormed(RangeValues(ranges)[i])
  {
    if ranges != [] {
      RangeValuesAreWellFormed(ranges[1..]);
    }
  }

  /** Octets decode to a receive state exactly if they are, within the bound, the one encoding of its record. */
  lemma StatesDecodeExactly(b: Bytes, s: ReceiveState)
    ensures DecodeReceiveState(b) == Errors.Ok(s) <==>
            |b| <= 65_536 && ReceiveStands(s) && P.Encode(Map(StateEntries(s))) == Errors.Ok(b)
  {
    hide ReadReceiveState, ReceiveStands, StateEntries, P.Decode, P.Encode;
    StateEntriesAreWellFormed(s);
    P.DecodeAcceptsExactlyEncodings(b, Map(StateEntries(s)));
    if P.Decode(b).Ok? {
      StateRead(P.Decode(b).value, s);
    }
  }

  // ---- Messages ----

  /** The ids and sizes of a list of attachments. */
  predicate AttachmentsStand(attachments: seq<Attachment>) {
    && |attachments| <= 8 && (forall a | a in attachments :: a.byteLength <= 8_388_608)
    && forall i, j | 0 <= i < j < |attachments| :: attachments[i].id != attachments[j].id
  }

  /** Everything a message has to meet; 4294901761 is the type of receive states, the others from 4294901760 on are reserved. */
  predicate MessageStands(m: Message) {
    var report := m.contentType == 4_294_901_761;
    && |m.payload| <= 262_144 && m.critical == [] && AttachmentsStand(m.attachments)
    && |m.extensions| <= 16
    && (forall k | k in m.extensions :: 65_536 <= k <= 2_147_483_647 && |m.extensions[k]| <= 4_096)
    && (m.contentType < 4_294_901_760 || report)
    && (report ==> m.kind.Event? && m.attachments == [] && DecodeReceiveState(m.payload).Ok?)
    && (m.relatesTo.Some? <==>
          report || m.kind.Response? || m.kind.Failure? || m.kind.Cancel? || m.kind.StreamChunk?)
    && (if m.kind.StreamChunk? then m.chunkIndex.Some? && (m.chunkFinal.Some? <==> m.attachmentId.None?)
        else m.chunkIndex.None? && m.chunkFinal.None? && m.attachmentId.None?)
  }

  lemma {:induction false} DescriptorsExactly(attachments: seq<Attachment>, seen: map<Octets16, Attachment>)
    ensures CheckDescriptors(attachments, seen).Ok? <==>
            && (forall i, j | 0 <= i < j < |attachments| :: attachments[i].id != attachments[j].id)
            && (forall i | 0 <= i < |attachments| :: attachments[i].id !in seen)
    decreases |attachments|
  {
    if attachments != [] && attachments[0].id !in seen {
      var first, rest := attachments[0], attachments[1..];
      DescriptorsExactly(rest, seen[first.id := first]);
      assert forall i | 0 < i < |attachments| :: attachments[i] == rest[i - 1];
      assert forall i | 0 <= i < |rest| :: rest[i] == attachments[i + 1];
    }
  }

  predicate Unlike(attachments: seq<Attachment>, n: nat)
    requires n <= |attachments|
  {
    forall i, j | 0 <= i < j < n :: attachments[i].id != attachments[j].id
  }

  /** The first descriptor under an identifier that stood before is the `j`-th, and it stood at `i`. */
  predicate FirstRepeat(attachments: seq<Attachment>, i: nat, j: nat) {
    i < j < |attachments| && attachments[i].id == attachments[j].id && Unlike(attachments, j)
  }

  predicate SeenBefore(attachments: seq<Attachment>, n: nat, seen: map<Octets16, Attachment>)
    requires n <= |attachments|
  {
    && (forall i | 0 <= i < n :: attachments[i].id in seen && seen[attachments[i].id] == attachments[i])
    && (forall id | id in seen :: exists i | 0 <= i < n :: attachments[i].id == id)
  }

  /** The first repeated identifier repeats its descriptor, or not. */
  ghost predicate Repeats(attachments: seq<Attachment>, same: bool) {
    exists i: nat, j: nat :: FirstRepeat(attachments, i, j) && (attachments[i] == attachments[j]) == same
  }

  lemma RepeatsAt(attachments: seq<Attachment>, i: nat, j: nat)
    requires FirstRepeat(attachments, i, j)
    ensures forall same: bool :: Repeats(attachments, same) <==> (attachments[i] == attachments[j]) == same
  {
    assert forall k: nat, l: nat | FirstRepeat(attachments, k, l) :: l == j && k == i;
  }

  lemma NothingRepeats(attachments: seq<Attachment>)
    requires Unlike(attachments, |attachments|)
    ensures forall same: bool :: !Repeats(attachments, same)
  {
  }

  lemma SeenOneMore(attachments: seq<Attachment>, n: nat, seen: map<Octets16, Attachment>)
    requires n < |attachments| && Unlike(attachments, n) && SeenBefore(attachments, n, seen)
    requires attachments[n].id !in seen
    ensures Unlike(attachments, n + 1)
    ensures SeenBefore(attachments, n + 1, seen[attachments[n].id := attachments[n]])
  {
  }

  lemma {:induction false} RepeatsFrom(attachments: seq<Attachment>, n: nat, seen: map<Octets16, Attachment>)
    requires n <= |attachments| && Unlike(attachments, n) && SeenBefore(attachments, n, seen)
    ensures CheckDescriptors(attachments[n..], seen) == Refuse(Errors.Conflict) <==> Repeats(attachments, false)
    ensures CheckDescriptors(attachments[n..], seen) == Refuse(Errors.InvalidRepresentation) <==> Repeats(attachments, true)
    decreases |attachments| - n
  {
    hide Repeats, Unlike;
    if n == |attachments| {
      NothingRepeats(attachments);
    } else {
      var next := attachments[n];
      assert attachments[n..][0] == next && attachments[n..][1..] == attachments[n + 1..];
      if next.id in seen {
        var i :| 0 <= i < n && attachments[i].id == next.id;
        RepeatsAt(attachments, i, n);
      } else {
        SeenOneMore(attachments, n, seen);
        hide SeenBefore;
        RepeatsFrom(attachments, n + 1, seen[next.id := next]);
      }
    }
  }

  /** A descriptor that stood before is told from another one under its identifier, whichever comes first. */
  lemma RepeatsExactly(attachments: seq<Attachment>)
    ensures CheckDescriptors(attachments, map[]) == Refuse(Errors.Conflict) <==> Repeats(attachments, false)
    ensures CheckDescriptors(attachments, map[]) == Refuse(Errors.InvalidRepresentation) <==> Repeats(attachments, true)
  {
    assert attachments[0..] == attachments;
    RepeatsFrom(attachments, 0, map[]);
  }

  lemma MessagesExactly(m: Message)
    ensures Validate(m).Ok? <==> MessageStands(m)
  {
    hide DecodeReceiveState, CheckDescriptors;
    DescriptorsExactly(m.attachments, map[]);
  }
}
