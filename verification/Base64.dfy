/**
 The conformance executor's base64 (src/conformance/executor.rs), in the canonical form of
 sections 3.5 and 4 of RFC 4648: padding is required and unused bits are zero.
 */
module Base64 {
  import opened Errors
  import opened Octets

  type Digit = x: int | 0 <= x < 64

  const PAD: byte := 61

  function Symbol(digit: Digit): byte {
    if digit < 26 then digit + 65
    else if digit < 52 then digit - 26 + 97
    else if digit < 62 then digit - 52 + 48
    else if digit == 62 then 43
    else 47
  }

  function DigitOf(symbol: byte): Option<Digit> {
    if 65 <= symbol <= 90 then Some(symbol - 65)
    else if 97 <= symbol <= 122 then Some(symbol - 97 + 26)
    else if 48 <= symbol <= 57 then Some(symbol - 48 + 52)
    else if symbol == 43 then Some(62)
    else if symbol == 47 then Some(63)
    else None
  }

  function DigitOrPad(symbol: byte): Option<Digit> {
    if symbol == PAD then Some(0) else DigitOf(symbol)
  }

  // ---- Chunks: up to three octets, always four symbols ----

  function At(chunk: Bytes, i: nat): byte {
    if i < |chunk| then chunk[i] else 0
  }

  function EncodeChunk(chunk: Bytes): (r: Bytes)
    requires 1 <= |chunk| <= 3
    ensures |r| == 4
  {
    var n := At(chunk, 0) * 0x1_0000 + At(chunk, 1) * 0x100 + At(chunk, 2);
    [Symbol(n / 0x4_0000 % 64),
     Symbol(n / 0x1000 % 64),
     if |chunk| > 1 then Symbol(n / 0x40 % 64) else PAD,
     if |chunk| > 2 then Symbol(n % 64) else PAD]
  }

  function DecodeChunk(chunk: Bytes, isFinal: bool): Option<Bytes>
    requires |chunk| == 4
  {
    if chunk[0] == PAD || chunk[1] == PAD || (!isFinal && chunk[3] == PAD) || (chunk[2] == PAD && chunk[3] != PAD)
    then None
    else
      var a, b, c, d := DigitOf(chunk[0]), DigitOf(chunk[1]), DigitOrPad(chunk[2]), DigitOrPad(chunk[3]);
      if a.None? || b.None? || c.None? || d.None? then None
      else if (chunk[2] == PAD && b.value % 16 != 0) || (chunk[3] == PAD && c.value % 4 != 0) then None
      else
        var n := a.value * 0x4_0000 + b.value * 0x1000 + c.value * 0x40 + d.value;
        Some(
          if chunk[3] != PAD then [n / 0x1_0000, n / 0x100 % 256, n % 256]
          else if chunk[2] != PAD then [n / 0x1_0000, n / 0x100 % 256]
          else [n / 0x1_0000])
  }

  lemma SymbolsInvert(digit: Digit)
    ensures DigitOf(Symbol(digit)) == Some(digit) && Symbol(digit) != PAD
  {
  }

  lemma DigitsInvert(symbol: byte)
    requires DigitOf(symbol).Some?
    ensures Symbol(DigitOf(symbol).value) == symbol && symbol != PAD
  {
  }

  /** The four 6-bit digits of three octets. */
  lemma SplitsIntoDigits(x: byte, y: byte, z: byte)
    ensures var n := x * 0x1_0000 + y * 0x100 + z;
            && n / 0x4_0000 % 64 == x / 4 && n / 0x1000 % 64 == x % 4 * 16 + y / 16
            && n / 0x40 % 64 == y % 16 * 4 + z / 64 && n % 64 == z % 64
  {
    var n := x * 0x1_0000 + y * 0x100 + z;
    Quotient(n, 0x4_0000, x / 4, x % 4 * 0x1_0000 + y * 0x100 + z);
    Quotient(n, 0x1000, x * 16 + y / 16, y % 16 * 0x100 + z);
    Quotient(x * 16 + y / 16, 64, x / 4, x % 4 * 16 + y / 16);
    Quotient(n, 0x40, x * 0x400 + y * 4 + z / 64, z % 64);
    Quotient(x * 0x400 + y * 4 + z / 64, 64, x * 16 + y / 16, y % 16 * 4 + z / 64);
  }

  lemma Quotient(n: nat, divisor: nat, q: nat, r: nat)
    requires divisor > 0 && r < divisor && n == q * divisor + r
    ensures n / divisor == q && n % divisor == r
  {
    if n / divisor < q {
      Scales(n / divisor + 1, q, divisor);
    } else if n / divisor > q {
      Scales(q + 1, n / divisor, divisor);
    }
  }

  lemma Scales(x: nat, y: nat, factor: nat)
    requires x <= y
    ensures x * factor <= y * factor
  {
  }

  /** The three octets of four 6-bit digits. */
  lemma SplitsIntoOctets(a: Digit, b: Digit, c: Digit, d: Digit)
    ensures var n := a * 0x4_0000 + b * 0x1000 + c * 0x40 + d;
            && n / 0x1_0000 == a * 4 + b / 16 && n / 0x100 % 256 == b % 16 * 16 + c / 4 && n % 256 == c % 4 * 64 + d
            && n / 0x1_0000 < 256
  {
    var n := a * 0x4_0000 + b * 0x1000 + c * 0x40 + d;
    Quotient(n, 0x1_0000, a * 4 + b / 16, b % 16 * 0x1000 + c * 0x40 + d);
    Quotient(n, 0x100, a * 0x400 + b * 16 + c / 4, c % 4 * 64 + d);
    Quotient(a * 0x400 + b * 16 + c / 4, 256, a * 4 + b / 16, b % 16 * 16 + c / 4);
  }

  /** Splitting octets into digits and digits into octets undo each other. */
  lemma DigitsReturn(a: Digit, b: Digit, c: Digit, d: Digit)
    ensures var x, y, z := a * 4 + b / 16, b % 16 * 16 + c / 4, c % 4 * 64 + d;
            && x < 256 && y < 256 && z < 256
            && x / 4 == a && x % 4 * 16 + y / 16 == b && y % 16 * 4 + z / 64 == c && z % 64 == d
  {
  }

  lemma OctetsReturn(x: byte, y: byte, z: byte)
    ensures var a, b, c, d := x / 4, x % 4 * 16 + y / 16, y % 16 * 4 + z / 64, z % 64;
            && a < 64 && b < 64 && c < 64
            && a * 4 + b / 16 == x && b % 16 * 16 + c / 4 == y && c % 4 * 64 + d == z
  {
  }

  lemma DecodesSymbols(a: Digit, b: Digit, c: Digit, d: Digit, isFinal: bool)
    ensures a * 4 + b / 16 < 256
    ensures DecodeChunk([Symbol(a), Symbol(b), Symbol(c), Symbol(d)], isFinal)
            == Some([a * 4 + b / 16, b % 16 * 16 + c / 4, c % 4 * 64 + d])
    ensures c % 4 == 0 ==> DecodeChunk([Symbol(a), Symbol(b), Symbol(c), PAD], true)
                           == Some([a * 4 + b / 16, b % 16 * 16 + c / 4])
    ensures b % 16 == 0 ==> DecodeChunk([Symbol(a), Symbol(b), PAD, PAD], true) == Some([a * 4 + b / 16])
  {
    hide DigitOf, Symbol;
    SymbolsInvert(a);
    SymbolsInvert(b);
    SymbolsInvert(c);
    SymbolsInvert(d);
    SplitsIntoOctets(a, b, c, d);
    SplitsIntoOctets(a, b, c, 0);
    SplitsIntoOctets(a, b, 0, 0);
  }

  lemma EncodesToSymbols(chunk: Bytes)
    requires 1 <= |chunk| <= 3
    ensures var x, y, z := At(chunk, 0), At(chunk, 1), At(chunk, 2);
            EncodeChunk(chunk) == [
              Symbol(x / 4), Symbol(x % 4 * 16 + y / 16),
              if |chunk| > 1 then Symbol(y % 16 * 4 + z / 64) else PAD, if |chunk| > 2 then Symbol(z % 64) else PAD]
  {
    hide Symbol;
    SplitsIntoDigits(At(chunk, 0), At(chunk, 1), At(chunk, 2));
  }

  lemma DecodesChunk(chunk: Bytes, isFinal: bool)
    requires 1 <= |chunk| <= 3 && (|chunk| < 3 ==> isFinal)
    ensures DecodeChunk(EncodeChunk(chunk), isFinal) == Some(chunk)
  {
    hide EncodeChunk, DecodeChunk, Symbol;
    var x, y, z := At(chunk, 0), At(chunk, 1), At(chunk, 2);
    EncodesToSymbols(chunk);
    OctetsReturn(x, y, z);
    DecodesSymbols(x / 4, x % 4 * 16 + y / 16, y % 16 * 4 + z / 64, z % 64, isFinal);
    if |chunk| == 1 {
      assert chunk == [x];
    } else if |chunk| == 2 {
      assert chunk == [x, y];
    } else {
      assert chunk == [x, y, z];
    }
  }

  lemma EncodesChunk(chunk: Bytes, isFinal: bool)
    requires |chunk| == 4 && DecodeChunk(chunk, isFinal).Some?
    ensures var octets := DecodeChunk(chunk, isFinal).value;
            1 <= |octets| <= 3 && (|octets| < 3 ==> isFinal) && EncodeChunk(octets) == chunk
  {
    hide DigitOf, Symbol, DecodeChunk, EncodeChunk;
    ChunkDecodes(chunk, isFinal);
    var a, b := DigitOf(chunk[0]).value, DigitOf(chunk[1]).value;
    var c, d := DigitOrPad(chunk[2]).value, DigitOrPad(chunk[3]).value;
    DigitsReturn(a, b, c, d);
    SymbolsOf(chunk);
    EncodesToSymbols(DecodeChunk(chunk, isFinal).value);
    assert chunk == [chunk[0], chunk[1], chunk[2], chunk[3]];
  }

  /** The four symbols are those of their digits, where they are no padding. */
  lemma SymbolsOf(chunk: Bytes)
    requires |chunk| == 4
    ensures forall i | 0 <= i < 4 && DigitOf(chunk[i]).Some? :: Symbol(DigitOf(chunk[i]).value) == chunk[i] != PAD
  {
    forall i | 0 <= i < 4 && DigitOf(chunk[i]).Some?
      ensures Symbol(DigitOf(chunk[i]).value) == chunk[i] != PAD
    {
      DigitsInvert(chunk[i]);
    }
  }

  /** What a chunk decodes to, octet by octet, and which of its digits then have to be zero. */
  lemma ChunkDecodes(chunk: Bytes, isFinal: bool)
    requires |chunk| == 4 && DecodeChunk(chunk, isFinal).Some?
    ensures DigitOf(chunk[0]).Some? && DigitOf(chunk[1]).Some?
    ensures DigitOrPad(chunk[2]).Some? && DigitOrPad(chunk[3]).Some?
    ensures chunk[0] != PAD && chunk[1] != PAD && (chunk[3] == PAD ==> isFinal) && (chunk[2] == PAD ==> chunk[3] == PAD)
    ensures var a, b := DigitOf(chunk[0]).value, DigitOf(chunk[1]).value;
            var c, d := DigitOrPad(chunk[2]).value, DigitOrPad(chunk[3]).value;
            && (chunk[2] == PAD ==> b % 16 == 0) && (chunk[3] == PAD ==> c % 4 == 0)
            && var octets := DecodeChunk(chunk, isFinal).value;
               if chunk[3] != PAD then octets == [a * 4 + b / 16, b % 16 * 16 + c / 4, c % 4 * 64 + d]
               else if chunk[2] != PAD then octets == [a * 4 + b / 16, b % 16 * 16 + c / 4]
               else octets == [a * 4 + b / 16]
  {
    hide DigitOf, Symbol;
    var a, b := DigitOf(chunk[0]).value, DigitOf(chunk[1]).value;
    var c, d := DigitOrPad(chunk[2]).value, DigitOrPad(chunk[3]).value;
    SplitsIntoOctets(a, b, c, d);
  }

  // ---- Whole texts ----

  function Encode(octets: Bytes): (r: Bytes)
    ensures |r| % 4 == 0
  {
    if octets == [] then []
    else if |octets| <= 3 then EncodeChunk(octets)
    else
      var rest := Encode(octets[3..]);
      FourMore(|rest|);
      EncodeChunk(octets[..3]) + rest
  }

  lemma FourMore(n: nat)
    ensures (n + 4) % 4 == n % 4
  {
  }

  function DecodeChunks(text: Bytes): Option<Bytes>
    requires |text| % 4 == 0
  {
    if text == [] then Some([])
    else
      FourMore(|text| - 4);
      var head, tail := DecodeChunk(text[..4], |text| == 4), DecodeChunks(text[4..]);
      if head.None? || tail.None? then None else Some(head.value + tail.value)
  }

  function Decode(text: Bytes): Result<Bytes> {
    if |text| % 4 != 0 || DecodeChunks(text).None? then Err(Invalid(InvalidRepresentation))
    else Ok(DecodeChunks(text).value)
  }

  lemma EncodeStep(octets: Bytes, i: nat, end: nat)
    requires i < |octets| && end == if i + 3 <= |octets| then i + 3 else |octets|
    ensures Encode(octets[i..]) == EncodeChunk(octets[i..end]) + Encode(octets[end..])
  {
    hide EncodeChunk;
    assert octets[i..][..end - i] == octets[i..end] && octets[i..][end - i..] == octets[end..];
    if end == |octets| {
      assert octets[end..] == [] && octets[i..end] == octets[i..];
    }
  }

  method RunEncode(octets: Bytes) returns (text: Bytes)
    ensures text == Encode(octets)
  {
    hide EncodeChunk;
    text := [];
    var i := 0;
    assert octets[0..] == octets;
    while i < |octets|
      invariant i <= |octets| && Encode(octets) == text + Encode(octets[i..])
      decreases |octets| - i
    {
      var end := if i + 3 <= |octets| then i + 3 else |octets|;
      EncodeStep(octets, i, end);
      text := text + EncodeChunk(octets[i..end]);
      i := end;
    }
  }

  method RunDecode(text: Bytes) returns (r: Result<Bytes>)
    ensures r == Decode(text)
  {
    hide DecodeChunk;
    if |text| % 4 != 0 {
      return Err(Invalid(InvalidRepresentation));
    }
    var output: Bytes := [];
    var i := 0;
    assert text[0..] == text;
    while i < |text|
      invariant i <= |text| && (|text| - i) % 4 == 0
      invariant DecodeChunks(text).Some? <==> DecodeChunks(text[i..]).Some?
      invariant DecodeChunks(text).Some? ==> DecodeChunks(text).value == output + DecodeChunks(text[i..]).value
      decreases |text| - i
    {
      FourMore(|text| - i - 4);
      assert text[i..][..4] == text[i..i + 4] && text[i..][4..] == text[i + 4..];
      var chunk := DecodeChunk(text[i..i + 4], i + 4 == |text|);
      if chunk.None? {
        return Err(Invalid(InvalidRepresentation));
      }
      output := output + chunk.value;
      i := i + 4;
    }
    assert text[i..] == [] && output + [] == output;
    return Ok(output);
  }

  lemma {:induction false} DecodeInvertsEncode(octets: Bytes)
    ensures Decode(Encode(octets)) == Ok(octets)
  {
    if octets != [] {
      if |octets| <= 3 {
        DecodesChunk(octets, true);
        hide EncodeChunk, DecodeChunk;
        var text := EncodeChunk(octets);
        assert octets + [] == octets;
        assert text[..4] == text && text[4..] == [];
        assert DecodeChunks(text[4..]) == Some([]);
      } else {
        DecodesChunk(octets[..3], false);
        hide EncodeChunk, DecodeChunk;
        DecodeInvertsEncode(octets[3..]);
        var head, tail := EncodeChunk(octets[..3]), Encode(octets[3..]);
        assert (head + tail)[..4] == head && (head + tail)[4..] == tail;
        assert |tail| > 0;
        assert octets == octets[..3] + octets[3..];
      }
    }
  }

  lemma {:induction false} EncodesDecodedChunks(text: Bytes)
    requires |text| % 4 == 0 && DecodeChunks(text).Some?
    ensures Encode(DecodeChunks(text).value) == text
    ensures text != [] ==> DecodeChunks(text).value != []
  {
    if text != [] {
      var head := DecodeChunk(text[..4], |text| == 4).value;
      EncodesChunk(text[..4], |text| == 4);
      hide EncodeChunk, DecodeChunk;
      FourMore(|text| - 4);
      EncodesDecodedChunks(text[4..]);
      JoinsEncodings(head, DecodeChunks(text[4..]).value);
      assert text == text[..4] + text[4..];
    }
  }

  lemma JoinsEncodings(head: Bytes, tail: Bytes)
    requires 1 <= |head| <= 3 && (|head| < 3 ==> tail == [])
    ensures Encode(head + tail) == EncodeChunk(head) + Encode(tail)
  {
    hide EncodeChunk;
    if tail == [] {
      assert head + tail == head;
    } else {
      assert (head + tail)[..3] == head && (head + tail)[3..] == tail;
    }
  }

  /** Every accepted text is the encoding of what it decodes to: there are no second forms. */
  lemma EncodeInvertsDecode(text: Bytes)
    requires Decode(text).Ok?
    ensures Encode(Decode(text).value) == text
  {
    EncodesDecodedChunks(text);
  }
}
