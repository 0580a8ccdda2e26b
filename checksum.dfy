/** The 8-bit two's-complement checksum of the GT911 configuration area. */
module Checksum {
  import opened Bytes

  /** Python's `~x` on an unbounded integer. */
  function Invert(x: int): int {
    -x - 1
  }

  /**
   * The byte that, added to the sum of `area`, makes the total a multiple of 256:
   * `sum_8 = sum(area) & 0xFF` and `((~sum_8) + 1) & 0xFF`.
   */
  function Checksum8(area: seq<Byte>): (c: Byte)
    ensures (Sum(area) + c) % 256 == 0
    ensures c == (256 - Sum(area) % 256) % 256
  {
    var sum8 := Mask8(Sum(area));
    Mask8(Invert(sum8) + 1)
  }

  /** A run of bytes whose sum is a multiple of 256, as an area followed by its checksum is. */
  predicate SumsToZero(s: seq<Byte>) {
    Sum(s) % 256 == 0
  }

  /** The checksum is the one and only byte that makes the area and the byte sum to zero mod 256. */
  lemma {:induction false} ChecksumUnique(area: seq<Byte>, c: Byte)
    ensures SumsToZero(area + [c]) <==> c == Checksum8(area)
  {
    SumConcat(area, [c]);
    assert Sum([c]) == c;
    var k := Checksum8(area);
    if SumsToZero(area + [c]) {
      assert (c - k) % 256 == 0;
    }
  }
}
