/**
 How a record packet is framed (src/protection/mod.rs): a deterministic header, then the
 sealed body, with nothing in between to say where the header ends.
 */
module Framing {
  import opened Errors
  import opened Integers
  import opened Octets
  import opened Wire
  import opened Cbor
  import opened CborProperties
  import opened CborSizes
  import Ratchet
  import Symbolic

  const MIN_HEADER_SCAN := 38
  const MAX_HEADER_SCAN := 48

  /** A header as it travels: the Diffie-Hellman key is 32 octets here. */
  datatype RatchetHeader = RatchetHeader(dh: Bytes, pn: u32, n: u32)

  predicate IsHeader(header: RatchetHeader) {
    |header.dh| == 32
  }

  function HeaderValue(header: RatchetHeader): CborValue {
    Map(map[0 := ByteString(header.dh), 1 := Unsigned(header.pn), 2 := Unsigned(header.n)])
  }

  function EncodeHeader(header: RatchetHeader): Result<Bytes> {
    Encode(HeaderValue(header))
  }

  function Exact32(entries: map<nat, CborValue>, key: nat): Result<Bytes> {
    if key in entries && entries[key].ByteString? && |entries[key].bytes| == 32 then Ok(entries[key].bytes)
    else Err(Errors.Invalid(InvalidRepresentation))
  }

  function ExactU32(entries: map<nat, CborValue>, key: nat): Result<u32> {
    if key !in entries || !entries[key].Unsigned? then Err(Errors.Invalid(InvalidRepresentation))
    else if entries[key].number > MAX_U32 then Err(Errors.Invalid(ErrorCode.BoundExceeded))
    else Ok(entries[key].number)
  }

  function DecodeHeader(b: Bytes): Result<RatchetHeader> {
    var v :- Decode(b);
    if !v.Map? then Err(Errors.Invalid(InvalidRepresentation))
    else if |v.entries| != 3 then Err(Errors.Invalid(UnknownField))
    else
      var dh :- Exact32(v.entries, 0);
      var pn :- ExactU32(v.entries, 1);
      var n :- ExactU32(v.entries, 2);
      Ok(RatchetHeader(dh, pn, n))
  }

  // ---- The header codec ----

  /** A header always encodes, into 38 octets and the two counters' heads: 40 to 48 in all. */
  lemma HeadersEncode(header: RatchetHeader)
    requires IsHeader(header)
    ensures WellFormed(HeaderValue(header)) && EncodeHeader(header).Ok?
    ensures |EncodeHeader(header).value| == 38 + HeadLength(header.pn) + HeadLength(header.n)
    ensures 40 <= |EncodeHeader(header).value| <= MAX_HEADER_SCAN
  {
    hide HeaderValue, Encode, Fits, Expand, EncodeWire, WellFormed;
    HeaderSize(header);
    HeaderEntriesFit(header);
    EncodesWhenSmall(HeaderValue(header));
  }

  lemma EncodesWhenSmall(v: CborValue)
    requires Fits(Expand(v), 0) && |EncodeWire(Expand(v))| <= MAX_ENCODED_BYTES
    ensures Encode(v) == Ok(EncodeWire(Expand(v)))
  {
    hide Expand, Fits, EncodeWire;
    MeasureIsExact(Expand(v), 0);
  }

  lemma HeaderSize(header: RatchetHeader)
    requires IsHeader(header)
    ensures Fits(Expand(HeaderValue(header)), 0)
    ensures |EncodeWire(Expand(HeaderValue(header)))| == 38 + HeadLength(header.pn) + HeadLength(header.n)
  {
    var v := HeaderValue(header);
    HeaderEntriesFit(header);
    HeaderWeight(header);
    hide HeaderValue, SortedKeys, Expand, EncodeWire, Fits, TotalWeight, PresentWeight, NoRepeats, WellFormed;
    MapSize(v, 0);
    assert NoRepeats([0, 1, 2]) by { ThreeLabels(); }
    RecordWeight(v, [0, 1, 2]);
  }

  lemma ThreeLabels()
    ensures NoRepeats([0, 1, 2])
  {
    assert [0, 1, 2][1..] == [1, 2] && [1, 2][1..] == [2] && NoRepeats([2]) && NoRepeats([1, 2]);
  }

  lemma HeaderEntriesFit(header: RatchetHeader)
    requires IsHeader(header)
    ensures var v := HeaderValue(header);
            && WellFormed(v) && v.entries.Keys == {0, 1, 2} && |v.entries| == 3
            && forall k | k in v.entries :: k <= MAX_SAFE_INTEGER && Fits(Expand(v.entries[k]), 1)
  {
    assert HeaderValue(header).entries.Keys == {0, 1, 2};
  }

  lemma HeaderWeight(header: RatchetHeader)
    requires IsHeader(header)
    ensures PresentWeight(HeaderValue(header), [0, 1, 2]) == 37 + HeadLength(header.pn) + HeadLength(header.n)
  {
    var v := HeaderValue(header);
    assert [0, 1, 2][1..] == [1, 2] && [1, 2][1..] == [2] && [2][1..] == [];
    assert PresentWeight(v, []) == 0;
    assert PresentWeight(v, [2]) == Weight(v, 2) == 1 + HeadLength(header.n);
    assert PresentWeight(v, [1, 2]) == Weight(v, 1) + PresentWeight(v, [2]);
    assert Weight(v, 1) == 1 + HeadLength(header.pn) && Weight(v, 0) == 35;
  }

  lemma DecodesHeader(header: RatchetHeader)
    requires IsHeader(header)
    ensures EncodeHeader(header).Ok? && DecodeHeader(EncodeHeader(header).value) == Ok(header)
  {
    hide Encode, WellFormed, Fits, Expand, EncodeWire, Decode, DecodeDetailed;
    HeadersEncode(header);
    DecodeInvertsEncode(HeaderValue(header));
  }

  /** Only encodings of headers decode: the header codec has no second form either. */
  lemma DecodedHeadersAreEncodings(b: Bytes)
    requires DecodeHeader(b).Ok?
    ensures IsHeader(DecodeHeader(b).value) && EncodeHeader(DecodeHeader(b).value) == Ok(b)
  {
    var v := Decode(b).value;
    var header := DecodeHeader(b).value;
    assert v.entries.Keys == {0, 1, 2} by {
      ThreeKeys(v.entries.Keys);
    }
    assert v.entries == HeaderValue(header).entries;
    HeadersEncode(header);
    DecodeAcceptsExactlyEncodings(b, v);
  }

  lemma ThreeKeys(keys: set<nat>)
    requires |keys| == 3 && 0 in keys && 1 in keys && 2 in keys
    ensures keys == {0, 1, 2}
  {
    assert |keys - {0, 1, 2}| == 0;
  }

  // ---- Finding the header ----

  function Scan(packet: Bytes, length: nat): Result<nat>
    decreases |packet| - length
  {
    if length > |packet| || length > MAX_HEADER_SCAN then Err(Errors.Invalid(InvalidRepresentation))
    else if DecodeHeader(packet[..length]).Ok? then Ok(length)
    else Scan(packet, length + 1)
  }

  method HeaderLengthIn(packet: Bytes) returns (r: Result<nat>)
    ensures r == Scan(packet, MIN_HEADER_SCAN)
  {
    var length := MIN_HEADER_SCAN;
    while length <= |packet| && length <= MAX_HEADER_SCAN
      invariant Scan(packet, MIN_HEADER_SCAN) == Scan(packet, length)
      decreases MAX_HEADER_SCAN + 1 - length
    {
      var header := DecodeHeader(packet[..length]);
      if header.Ok? {
        return Ok(length);
      }
      length := length + 1;
    }
    return Err(Errors.Invalid(InvalidRepresentation));
  }

  /** No octet string before the end of a header decodes as a header. */
  lemma NoShorterHeader(header: RatchetHeader, body: Bytes, length: nat)
    requires IsHeader(header) && EncodeHeader(header).Ok? && length < |EncodeHeader(header).value|
    ensures DecodeHeader((EncodeHeader(header).value + body)[..length]).Err?
  {
    hide DecodeHeader, Expand, Measure;
    var e := EncodeHeader(header).value;
    var prefix := (e + body)[..length];
    if DecodeHeader(prefix).Ok? {
      DecodedHeadersAreEncodings(prefix);
      var other := DecodeHeader(prefix).value;
      HeadersEncode(other);
      HeadersEncode(header);
      assert e == prefix + e[length..];
      EncodingsArePrefixFree(HeaderValue(other), HeaderValue(header), e[length..]);
    }
  }

  lemma {:induction false} ScanReachesTheEnd(header: RatchetHeader, body: Bytes, length: nat)
    requires IsHeader(header) && EncodeHeader(header).Ok? && MIN_HEADER_SCAN <= length <= |EncodeHeader(header).value|
    ensures Scan(EncodeHeader(header).value + body, length) == Ok(|EncodeHeader(header).value|)
    decreases |EncodeHeader(header).value| - length
  {
    hide DecodeHeader, EncodeHeader, IsHeader;
    HeadersEncode(header);
    var e := EncodeHeader(header).value;
    if length == |e| {
      assert (e + body)[..length] == e;
      DecodesHeader(header);
    } else {
      NoShorterHeader(header, body, length);
      ScanReachesTheEnd(header, body, length + 1);
    }
  }

  /** Whatever body follows, the scan finds exactly the header's own length. */
  lemma HeaderLengthIsFound(header: RatchetHeader, body: Bytes)
    requires IsHeader(header)
    ensures EncodeHeader(header).Ok?
    ensures Scan(EncodeHeader(header).value + body, MIN_HEADER_SCAN) == Ok(|EncodeHeader(header).value|)
  {
    HeadersEncode(header);
    ScanReachesTheEnd(header, body, MIN_HEADER_SCAN);
  }

  /** Hence a packet is one header and one body, in one way only. */
  lemma FramingIsInjective(header: RatchetHeader, body: Bytes, other: RatchetHeader, otherBody: Bytes)
    requires IsHeader(header) && IsHeader(other) && EncodeHeader(header).Ok? && EncodeHeader(other).Ok?
    requires EncodeHeader(header).value + body == EncodeHeader(other).value + otherBody
    ensures header == other && body == otherBody
  {
    var e, f := EncodeHeader(header).value, EncodeHeader(other).value;
    HeaderLengthIsFound(header, body);
    HeaderLengthIsFound(other, otherBody);
    assert e == (e + body)[..|e|] == (f + otherBody)[..|f|] == f;
    DecodesHeader(header);
    DecodesHeader(other);
    assert body == (e + body)[|e|..];
    assert otherBody == (f + otherBody)[|f|..];
  }

  /** The length the ratchet model counts for a header is the length it has on the wire. */
  lemma RatchetCountsWireLength(header: RatchetHeader, symbolic: Symbolic.Header)
    requires IsHeader(header) && symbolic.pn == header.pn && symbolic.n == header.n
    ensures EncodeHeader(header).Ok? && Ratchet.HeaderLength(symbolic) == |EncodeHeader(header).value|
  {
    HeadersEncode(header);
  }
}
