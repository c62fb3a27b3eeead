// Facts about 16-bit words that the CRC proofs use.

module Words {

  lemma XorShift(a: bv16, b: bv16)
    ensures (a ^ b) >> 1 == (a >> 1) ^ (b >> 1)
    ensures (a ^ b) & 1 == (a & 1) ^ (b & 1)
  {}

  lemma LowBit(a: bv16)
    ensures a & 1 == 0 || a & 1 == 1
  {}

  lemma XorCancel(x: bv16, y: bv16, p: bv16)
    ensures (x ^ p) ^ (y ^ p) == x ^ y
    ensures (x ^ p) ^ y == (x ^ y) ^ p
    ensures x ^ (y ^ p) == (x ^ y) ^ p
  {}

  lemma XorSwap(a: bv16, b: bv16, x: bv16, y: bv16)
    ensures (a ^ x) ^ (b ^ y) == (a ^ b) ^ (x ^ y)
  {}

  lemma XorZero(a: bv16, b: bv16)
    ensures a ^ b == 0 <==> a == b
    ensures a ^ 0 == a
  {}

  lemma OffOdd(c: bv16)
    requires c & 1 != 0
    ensures ((((c >> 1) ^ 0xA001) ^ 0xA001) << 1) | 1 == c
    ensures ((c >> 1) ^ 0xA001) & 0x8000 != 0
  {}

  lemma OffEven(c: bv16)
    requires c & 1 == 0
    ensures (c >> 1) << 1 == c && (c >> 1) & 0x8000 == 0
  {}

  lemma OnTop(c: bv16)
    requires c & 0x8000 != 0
    ensures (((c ^ 0xA001) << 1) | 1) & 1 != 0
    ensures ((((c ^ 0xA001) << 1) | 1) >> 1) ^ 0xA001 == c
  {}

  lemma OnLow(c: bv16)
    requires c & 0x8000 == 0
    ensures (c << 1) & 1 == 0 && (c << 1) >> 1 == c
  {}

  lemma SplitLow(c: bv16, w: bv16)
    ensures c ^ w == (c ^ (w & 1)) ^ (w & 0xFFFE)
    ensures (w & 0xFFFE) & 1 == 0 && (w & 0xFFFE) >> 1 == w >> 1
    ensures w == ((w >> 1) << 1) | (w & 1)
  {}

  lemma JoinedXorsToZero(c: bv16, x: bv16, y: bv16)
    requires x & y == 0 && c == x | y
    ensures (c ^ x) ^ y == 0
  {}

  lemma HighByteShifts(w: bv16)
    requires w & 0xFF == 0
    ensures (w >> 1) & 0x7F == 0 && ((w >> 1) >> 1) & 0x3F == 0 && (w >> 2) >> 1 == w >> 3
    ensures (w >> 3) & 1 == 0 && (w >> 3) >> 1 == w >> 4 && (w >> 4) & 1 == 0 && (w >> 4) >> 1 == w >> 5
    ensures (w >> 5) & 1 == 0 && (w >> 5) >> 1 == w >> 6 && (w >> 6) & 1 == 0 && (w >> 6) >> 1 == w >> 7
    ensures (w >> 7) & 1 == 0 && (w >> 7) >> 1 == w >> 8 && (w >> 1) >> 1 == w >> 2
    ensures w & 1 == 0 && (w >> 1) & 1 == 0 && (w >> 2) & 1 == 0
  {}

  lemma LowBitShiftsOut(d: bv16)
    ensures (d ^ 1) >> 1 == d >> 1 && (d ^ 0) >> 1 == d >> 1
  {}

  lemma XorTwice(a: bv16, b: bv16)
    ensures (a ^ b) ^ b == a
  {}
}
