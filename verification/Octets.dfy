/** Octet strings: big-endian integers, bytewise order, and well-formed UTF-8. */
module Octets {

  type byte = x: int | 0 <= x < 256
  type Bytes = seq<byte>

  function Pow256(n: nat): (p: nat)
    ensures p > 0
  {
    if n == 0 then 1 else 256 * Pow256(n - 1)
  }

  lemma Widths()
    ensures Pow256(1) == 0x100 && Pow256(2) == 0x1_0000
    ensures Pow256(4) == 0x1_0000_0000 && Pow256(8) == 0x1_0000_0000_0000_0000
  {
    assert Pow256(4) == 256 * Pow256(3);
    assert Pow256(8) == 256 * (256 * (256 * (256 * Pow256(4))));
  }

  /** The last `n` base-256 digits of `value`, most significant first. */
  function BigEndian(value: nat, n: nat): (b: Bytes)
    ensures |b| == n
  {
    if n == 0 then [] else BigEndian(value / 256, n - 1) + [value % 256]
  }

  function FromBigEndian(b: Bytes): (value: nat)
    ensures value < Pow256(|b|)
  {
    if b == [] then 0 else FromBigEndian(b[..|b| - 1]) * 256 + b[|b| - 1]
  }

  lemma {:induction false} DecodesBigEndian(value: nat, n: nat)
    requires value < Pow256(n)
    ensures FromBigEndian(BigEndian(value, n)) == value
  {
    if n > 0 {
      var b := BigEndian(value, n);
      assert b[..|b| - 1] == BigEndian(value / 256, n - 1);
      DecodesBigEndian(value / 256, n - 1);
    }
  }

  lemma {:induction false} EncodesBigEndian(b: Bytes)
    ensures BigEndian(FromBigEndian(b), |b|) == b
  {
    if b != [] {
      var front := b[..|b| - 1];
      EncodesBigEndian(front);
      assert b == front + [b[|b| - 1]];
    }
  }

  /** Strict bytewise lexicographic order; a proper prefix sorts first. */
  predicate LexLess(a: Bytes, b: Bytes) {
    if b == [] then false
    else if a == [] then true
    else a[0] < b[0] || (a[0] == b[0] && LexLess(a[1..], b[1..]))
  }

  lemma {:induction false} LexLessCommonPrefix(p: Bytes, a: Bytes, b: Bytes)
    ensures LexLess(p + a, p + b) == LexLess(a, b)
  {
    if p == [] {
      assert p + a == a && p + b == b;
    } else {
      assert (p + a)[1..] == p[1..] + a && (p + b)[1..] == p[1..] + b;
      LexLessCommonPrefix(p[1..], a, b);
    }
  }

  lemma {:induction false} LexLessByDifference(p: Bytes, x: byte, y: byte, a: Bytes, b: Bytes)
    requires x < y
    ensures LexLess(p + [x] + a, p + [y] + b)
  {
    assert p + [x] + a == p + ([x] + a) && p + [y] + b == p + ([y] + b);
    LexLessCommonPrefix(p, [x] + a, [y] + b);
  }

  /** Big-endian strings of one width sort the way their values do. */
  lemma {:induction false} BigEndianKeepsOrder(x: nat, y: nat, n: nat)
    requires x < y < Pow256(n)
    ensures LexLess(BigEndian(x, n), BigEndian(y, n))
  {
    var a, b := BigEndian(x, n), BigEndian(y, n);
    DecodesBigEndian(x, n);
    DecodesBigEndian(y, n);
    FromBigEndianReflectsOrder(a, b);
  }

  lemma {:induction false} FromBigEndianReflectsOrder(a: Bytes, b: Bytes)
    requires |a| == |b| && FromBigEndian(a) < FromBigEndian(b)
    ensures LexLess(a, b)
  {
    var fa, fb := a[..|a| - 1], b[..|b| - 1];
    assert a == fa + [a[|a| - 1]] && b == fb + [b[|b| - 1]];
    if FromBigEndian(fa) < FromBigEndian(fb) {
      FromBigEndianReflectsOrder(fa, fb);
      LexLessExtends(fa, fb, [a[|a| - 1]], [b[|b| - 1]]);
    } else {
      EncodesBigEndian(fa);
      EncodesBigEndian(fb);
      assert fa == fb;
      LexLessByDifference(fa, a[|a| - 1], b[|b| - 1], [], []);
      assert a == fa + [a[|a| - 1]] + [] && b == fb + [b[|b| - 1]] + [];
    }
  }

  lemma {:induction false} LexLessExtends(a: Bytes, b: Bytes, c: Bytes, d: Bytes)
    requires |a| == |b| && LexLess(a, b)
    ensures LexLess(a + c, b + d)
  {
    assert (a + c)[1..] == a[1..] + c && (b + d)[1..] == b[1..] + d;
    if a[0] == b[0] {
      LexLessExtends(a[1..], b[1..], c, d);
    }
  }

  lemma {:induction false} LexLessAsymmetric(a: Bytes, b: Bytes)
    requires LexLess(a, b)
    ensures !LexLess(b, a) && a != b
  {
    if a != [] && a[0] == b[0] {
      LexLessAsymmetric(a[1..], b[1..]);
    }
  }

  predicate Continuation(b: byte) { 0x80 <= b <= 0xbf }

  /** Well-formed UTF-8: no overlong form, no surrogate, nothing above U+10FFFF. */
  predicate ValidUtf8(b: Bytes) {
    if b == [] then true
    else if b[0] < 0x80 then ValidUtf8(b[1..])
    else if 0xc2 <= b[0] <= 0xdf then
      |b| >= 2 && Continuation(b[1]) && ValidUtf8(b[2..])
    else if 0xe0 <= b[0] <= 0xef then
      && |b| >= 3 && Continuation(b[1]) && Continuation(b[2])
      && (b[0] == 0xe0 ==> b[1] >= 0xa0) && (b[0] == 0xed ==> b[1] < 0xa0)
      && ValidUtf8(b[3..])
    else if 0xf0 <= b[0] <= 0xf4 then
      && |b| >= 4 && Continuation(b[1]) && Continuation(b[2]) && Continuation(b[3])
      && (b[0] == 0xf0 ==> b[1] >= 0x90) && (b[0] == 0xf4 ==> b[1] < 0x90)
      && ValidUtf8(b[4..])
    else false
  }
}
