/** Bytes of a Python `bytearray`, the byte arithmetic that replaces `struct`, and `sum`. */
module Bytes {

  /** One element of a `bytearray`: storing anything outside 0..255 raises `ValueError`. */
  type Byte = b: int | 0 <= b < 256

  /**
   * Python's `v & 0xFF` on an unbounded integer: the low byte of the two's-complement
   * representation, which for every `v`, negative ones included, is the Euclidean `v % 256`.
   */
  function Mask8(v: int): (b: Byte)
    ensures (v - b) % 256 == 0
    ensures 0 <= v < 256 ==> b == v
  {
    v % 256
  }

  /** A negative coefficient keeps only its low byte; a large one wraps. */
  lemma MaskExamples()
    ensures Mask8(-1) == 0xFF && Mask8(-256) == 0 && Mask8(260) == 4 && Mask8(4) == 4
  {
  }

  /** `struct.pack('<H', v)`: an unsigned 16-bit value as two bytes, low byte first. */
  function PackU16LE(v: int): (bs: seq<Byte>)
    requires 0 <= v < 0x1_0000
    ensures |bs| == 2
  {
    [v % 256, v / 256]
  }

  /** `struct.unpack_from('<H', buf, o)[0]` with `lo == buf[o]` and `hi == buf[o + 1]`. */
  function UnpackU16LE(lo: Byte, hi: Byte): (v: int)
    ensures 0 <= v < 0x1_0000
  {
    lo + 256 * hi
  }

  /** Unpacking what was packed gives the value back. */
  lemma UnpackPack(v: int)
    requires 0 <= v < 0x1_0000
    ensures UnpackU16LE(PackU16LE(v)[0], PackU16LE(v)[1]) == v
  {
  }

  /** Packing what was unpacked gives the two bytes back. */
  lemma PackUnpack(lo: Byte, hi: Byte)
    ensures PackU16LE(UnpackU16LE(lo, hi)) == [lo, hi]
  {
    var v := lo + 256 * hi;
    assert v / 256 == hi && v % 256 == lo by {
      DivModUnique(v, hi, lo);
    }
  }

  lemma DivModUnique(v: int, q: int, r: int)
    requires 0 <= r < 256 && v == q * 256 + r
    ensures v / 256 == q && v % 256 == r
  {
  }

  /** Python's `sum` over a run of bytes. */
  function Sum(s: seq<Byte>): (t: int)
    ensures 0 <= t <= 255 * |s|
  {
    if s == [] then 0 else s[0] + Sum(s[1..])
  }

  lemma {:induction false} SumConcat(a: seq<Byte>, b: seq<Byte>)
    ensures Sum(a + b) == Sum(a) + Sum(b)
  {
    if a == [] {
      assert a + b == b;
    } else {
      assert (a + b)[1..] == a[1..] + b;
      SumConcat(a[1..], b);
    }
  }

  lemma {:induction false} SumOfZeros(s: seq<Byte>)
    requires forall k :: 0 <= k < |s| ==> s[k] == 0
    ensures Sum(s) == 0
  {
    if s != [] {
      SumOfZeros(s[1..]);
    }
  }

  /** Adding one more byte at the end adds that byte to the sum. */
  lemma SumSnoc(s: seq<Byte>, n: nat)
    requires n < |s|
    ensures Sum(s[..n + 1]) == Sum(s[..n]) + s[n]
  {
    assert s[..n + 1] == s[..n] + [s[n]];
    SumConcat(s[..n], [s[n]]);
  }

  /** The sum of a run of thirteen bytes, written out. */
  lemma SumOfThirteen(s: seq<Byte>)
    requires |s| == 13
    ensures Sum(s) == s[0] as int + s[1] + s[2] + s[3] + s[4] + s[5] + s[6] + s[7] + s[8] + s[9] + s[10] + s[11] + s[12]
  {
    assert s[..0] == [] && s[..13] == s;
    SumSnoc(s, 0);
    SumSnoc(s, 1);
    SumSnoc(s, 2);
    SumSnoc(s, 3);
    SumSnoc(s, 4);
    SumSnoc(s, 5);
    SumSnoc(s, 6);
    SumSnoc(s, 7);
    SumSnoc(s, 8);
    SumSnoc(s, 9);
    SumSnoc(s, 10);
    SumSnoc(s, 11);
    SumSnoc(s, 12);
  }
}
