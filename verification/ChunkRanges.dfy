/**
 Requested chunk ranges and attachment geometry (src/messaging.rs, src/reliable.rs): an
 accepted list of ranges is the only one for its set of chunks, and the accepted chunks of
 an attachment tile it.
 */
module ChunkRanges {
  import opened Errors
  import opened Integers

  const ATTACHMENT_CHUNK_BYTES := 65_536
  const MAX_ATTACHMENT_CHUNKS := 128
  const MAX_ATTACHMENT_BYTES := 8_388_608

  datatype ChunkRange = ChunkRange(start: u64, end: u64)

  // ---- Ranges ----

  /** Checks ranges in order and adds up what they cover, never beyond `maximum`. */
  function CheckRanges(ranges: seq<ChunkRange>, previousEnd: Option<u64>, covered: nat, maximum: nat): Result<nat> {
    if ranges == [] then Ok(covered)
    else if ranges[0].start >= ranges[0].end || (previousEnd.Some? && ranges[0].start <= previousEnd.value)
    then Err(Invalid(InvalidRepresentation))
    else if covered + (ranges[0].end - ranges[0].start) > maximum then Err(Invalid(BoundExceeded))
    else CheckRanges(ranges[1..], Some(ranges[0].end), covered + (ranges[0].end - ranges[0].start), maximum)
  }

  method RunCheckRanges(ranges: seq<ChunkRange>, maximum: nat) returns (r: Result<nat>)
    ensures r == CheckRanges(ranges, None, 0, maximum)
  {
    var covered: nat := 0;
    var previousEnd: Option<u64> := None;
    for i := 0 to |ranges|
      invariant CheckRanges(ranges, None, 0, maximum) == CheckRanges(ranges[i..], previousEnd, covered, maximum)
    {
      var range := ranges[i];
      assert ranges[i..][0] == range && ranges[i..][1..] == ranges[i + 1..];
      if range.start >= range.end || (previousEnd.Some? && range.start <= previousEnd.value) {
        return Err(Invalid(InvalidRepresentation));
      }
      if covered + (range.end - range.start) > maximum {
        return Err(Invalid(BoundExceeded));
      }
      covered := covered + (range.end - range.start);
      previousEnd := Some(range.end);
    }
    return Ok(covered);
  }

  function Interval(start: nat, end: nat): (s: set<nat>)
    ensures forall n: nat :: n in s <==> start <= n < end
    decreases end
  {
    if end <= start then {} else Interval(start, end - 1) + {end - 1}
  }

  function ChunksOf(range: ChunkRange): set<nat> {
    Interval(range.start, range.end)
  }

  /** The chunks a list of ranges asks for. */
  function Chunks(ranges: seq<ChunkRange>): set<nat> {
    if ranges == [] then {} else ChunksOf(ranges[0]) + Chunks(ranges[1..])
  }

  lemma {:induction false} ChunksLieAbove(ranges: seq<ChunkRange>, previousEnd: u64, covered: nat, maximum: nat)
    requires CheckRanges(ranges, Some(previousEnd), covered, maximum).Ok?
    ensures forall n | n in Chunks(ranges) :: n > previousEnd
  {
    if ranges != [] {
      ChunksLieAbove(ranges[1..], ranges[0].end, covered + (ranges[0].end - ranges[0].start), maximum);
    }
  }

  lemma {:induction false} IntervalSize(range: ChunkRange)
    requires range.start <= range.end
    ensures |ChunksOf(range)| == range.end - range.start
    decreases range.end - range.start
  {
    if range.start < range.end {
      var shorter := ChunkRange(range.start, range.end - 1);
      IntervalSize(shorter);
      assert ChunksOf(range) == ChunksOf(shorter) + {range.end - 1};
    }
  }

  /** The covered count of accepted ranges is the number of chunks asked for, and within the maximum. */
  lemma {:induction false} CoveredIsCardinality(
    ranges: seq<ChunkRange>, previousEnd: Option<u64>, covered: nat, maximum: nat)
    requires CheckRanges(ranges, previousEnd, covered, maximum).Ok?
    ensures CheckRanges(ranges, previousEnd, covered, maximum).value == covered + |Chunks(ranges)|
    ensures covered <= maximum ==> covered + |Chunks(ranges)| <= maximum
    decreases |ranges|
  {
    hide ChunksOf;
    if ranges != [] {
      var size := ranges[0].end - ranges[0].start;
      IntervalSize(ranges[0]);
      ChunksLieAbove(ranges[1..], ranges[0].end, covered + size, maximum);
      CoveredIsCardinality(ranges[1..], Some(ranges[0].end), covered + size, maximum);
      JoinedSize(ranges[0], Chunks(ranges[1..]));
    }
  }

  lemma JoinedSize(range: ChunkRange, rest: set<nat>)
    requires forall n | n in rest :: n > range.end
    ensures |ChunksOf(range) + rest| == |ChunksOf(range)| + |rest|
  {
    assert ChunksOf(range) !! rest;
  }

  lemma FirstChunks(ranges: seq<ChunkRange>, previousEnd: Option<u64>, covered: nat, maximum: nat)
    requires ranges != [] && CheckRanges(ranges, previousEnd, covered, maximum).Ok?
    ensures ranges[0].start in Chunks(ranges) && ranges[0].end !in Chunks(ranges)
    ensures forall n: nat | ranges[0].start <= n < ranges[0].end :: n in Chunks(ranges)
    ensures forall n | n in Chunks(ranges) :: n >= ranges[0].start
    ensures forall n: nat :: n in Chunks(ranges[1..]) <==> n in Chunks(ranges) && n >= ranges[0].end
  {
    ChunksLieAbove(ranges[1..], ranges[0].end, covered + (ranges[0].end - ranges[0].start), maximum);
  }

  /** Accepted lists are a normal form: two that ask for the same chunks are the same list. */
  lemma {:induction false} RangesAreNormalForm(
    x: seq<ChunkRange>, y: seq<ChunkRange>, xEnd: Option<u64>, yEnd: Option<u64>, xCovered: nat, yCovered: nat,
    xMaximum: nat, yMaximum: nat)
    requires CheckRanges(x, xEnd, xCovered, xMaximum).Ok? && CheckRanges(y, yEnd, yCovered, yMaximum).Ok?
    requires Chunks(x) == Chunks(y)
    ensures x == y
    decreases |x|
  {
    if x == [] || y == [] {
      if x != [] {
        FirstChunks(x, xEnd, xCovered, xMaximum);
      }
      if y != [] {
        FirstChunks(y, yEnd, yCovered, yMaximum);
      }
    } else {
      FirstChunks(x, xEnd, xCovered, xMaximum);
      FirstChunks(y, yEnd, yCovered, yMaximum);
      assert x[0].start == y[0].start;
      assert x[0].end == y[0].end;
      assert Chunks(x[1..]) == Chunks(y[1..]);
      RangesAreNormalForm(
        x[1..], y[1..], Some(x[0].end), Some(y[0].end), xCovered + (x[0].end - x[0].start),
        yCovered + (y[0].end - y[0].start), xMaximum, yMaximum);
      assert x == [x[0]] + x[1..] && y == [y[0]] + y[1..];
    }
  }

  /** Ranges in order with a gap between any two, none of them empty. */
  predicate Apart(ranges: seq<ChunkRange>) {
    && (forall i | 0 <= i < |ranges| :: ranges[i].start < ranges[i].end)
    && (forall i, j | 0 <= i < j < |ranges| :: ranges[i].end < ranges[j].start)
  }

  lemma ApartStep(ranges: seq<ChunkRange>)
    requires ranges != []
    ensures Apart(ranges) <==>
            && ranges[0].start < ranges[0].end && Apart(ranges[1..])
            && (|ranges| > 1 ==> ranges[0].end < ranges[1].start)
  {
    assert forall i | 0 < i < |ranges| :: ranges[i] == ranges[1..][i - 1];
  }

  lemma {:induction false} ApartSize(ranges: seq<ChunkRange>)
    requires Apart(ranges)
    ensures ranges != [] ==> forall n | n in Chunks(ranges) :: n >= ranges[0].start
    ensures ranges != [] ==> |Chunks(ranges)| == ranges[0].end - ranges[0].start + |Chunks(ranges[1..])|
  {
    if ranges != [] {
      ApartStep(ranges);
      ApartSize(ranges[1..]);
      IntervalSize(ranges[0]);
      JoinedSize(ranges[0], Chunks(ranges[1..]));
    }
  }

  lemma {:induction false} RangesPass(ranges: seq<ChunkRange>, previousEnd: Option<u64>, covered: nat, maximum: nat)
    requires covered <= maximum
    ensures CheckRanges(ranges, previousEnd, covered, maximum).Ok? <==>
            && Apart(ranges) && covered + |Chunks(ranges)| <= maximum
            && (ranges != [] && previousEnd.Some? ==> previousEnd.value < ranges[0].start)
    decreases |ranges|
  {
    hide Apart, Chunks;
    if ranges == [] {
      NoneApart();
    } else {
      var rest, end, size := ranges[1..], ranges[0].end, ranges[0].end - ranges[0].start;
      ApartStep(ranges);
      if Apart(ranges) {
        ApartSize(ranges);
      }
      if ranges[0].start < end && covered + size <= maximum {
        RangesPass(rest, Some(end), covered + size, maximum);
      }
    }
  }

  lemma NoneApart()
    ensures Apart([]) && Chunks([]) == {}
  {
  }

  /** A list of ranges is accepted exactly if they lie apart and ask for no more than the maximum of chunks. */
  lemma RangesExactly(ranges: seq<ChunkRange>, maximum: nat)
    ensures CheckRanges(ranges, None, 0, maximum).Ok? <==> Apart(ranges) && |Chunks(ranges)| <= maximum
  {
    RangesPass(ranges, None, 0, maximum);
  }

  // ---- Attachment geometry ----

  function ChunkCount(byteLength: nat): nat {
    (byteLength + ATTACHMENT_CHUNK_BYTES - 1) / ATTACHMENT_CHUNK_BYTES
  }

  function CheckAttachmentChunk(byteLength: u64, chunkIndex: u64, payloadLength: u64): Result<()> {
    if byteLength + (ATTACHMENT_CHUNK_BYTES - 1) > MAX_U64 then Err(Invalid(BoundExceeded))
    else if ChunkCount(byteLength) > MAX_ATTACHMENT_CHUNKS || chunkIndex >= ChunkCount(byteLength)
    then Err(Invalid(BoundExceeded))
    else
      var offset := chunkIndex * ATTACHMENT_CHUNK_BYTES;
      var left := byteLength - offset;
      var expected := if ATTACHMENT_CHUNK_BYTES <= left then ATTACHMENT_CHUNK_BYTES else left;
      if payloadLength != expected then Err(Invalid(InvalidRepresentation)) else Ok(())
  }

  /** The size of the only payload accepted for a chunk, if there is one. */
  function ChunkSize(byteLength: nat, index: nat): nat
    requires index < ChunkCount(byteLength)
  {
    if index + 1 < ChunkCount(byteLength) then ATTACHMENT_CHUNK_BYTES
    else byteLength - (ChunkCount(byteLength) - 1) * ATTACHMENT_CHUNK_BYTES
  }

  /** For every length an attachment may have, each index below the count has one accepted size, and no other has any. */
  lemma AcceptedChunks(byteLength: u64, index: u64, payloadLength: u64)
    requires byteLength <= MAX_ATTACHMENT_BYTES
    ensures CheckAttachmentChunk(byteLength, index, payloadLength).Ok? <==>
            index < ChunkCount(byteLength) && payloadLength == ChunkSize(byteLength, index)
  {
  }

  /** Beyond that length no chunk is accepted at all. */
  lemma LongerAttachmentsHaveNoChunks(byteLength: u64, index: u64, payloadLength: u64)
    requires byteLength > MAX_ATTACHMENT_BYTES
    ensures CheckAttachmentChunk(byteLength, index, payloadLength).Err?
  {
  }

  function TotalSize(byteLength: nat, count: nat): nat
    requires count <= ChunkCount(byteLength)
  {
    if count == 0 then 0 else TotalSize(byteLength, count - 1) + ChunkSize(byteLength, count - 1)
  }

  /** The first `count` chunks end where the next one begins, and all together at the end of the attachment. */
  lemma {:induction false} ChunksTileTheAttachment(byteLength: nat, count: nat)
    requires count <= ChunkCount(byteLength)
    ensures count < ChunkCount(byteLength) ==> TotalSize(byteLength, count) == count * ATTACHMENT_CHUNK_BYTES
    ensures count == ChunkCount(byteLength) ==> TotalSize(byteLength, count) == byteLength
    ensures count > 0 ==> 0 < ChunkSize(byteLength, count - 1) <= ATTACHMENT_CHUNK_BYTES
  {
    if count > 0 {
      ChunksTileTheAttachment(byteLength, count - 1);
    }
  }
}
