// Modbus CRC-16 (polynomial 0xA001 reflected, start value 0xFFFF) and what it detects.

module Crc {

  import opened Words

  type byte = bv8

  const START: bv16 := 0xFFFF

  // ----- The register -----

  // One turn of the inner loop.
  function BitStep(c: bv16): bv16 {
    if c & 1 != 0 then (c >> 1) ^ 0xA001 else c >> 1
  }

  // Eight turns make one byte.
  function BitSteps(c: bv16, n: nat): bv16 {
    if n == 0 then c else BitStep(BitSteps(c, n - 1))
  }

  function ByteStep(c: bv16, b: byte): bv16 {
    BitSteps(Xor(c, Word(b)), 8)
  }

  // The register after `data` when it starts as `c`.
  function Over(c: bv16, data: seq<byte>): bv16 {
    if |data| == 0 then c else ByteStep(Over(c, data[..|data| - 1]), data[|data| - 1])
  }

  function Crc16(data: seq<byte>): bv16 {
    Over(START, data)
  }

  method ModbusCrc16(data: seq<byte>) returns (crc: bv16)
    ensures crc == Crc16(data)
  {
    crc := START;
    for i := 0 to |data|
      invariant crc == Over(START, data[..i])
    {
      ghost var before := crc;
      crc := crc ^ (data[i] as bv16);
      for b := 0 to 8
        invariant crc == BitSteps(before ^ (data[i] as bv16), b)
      {
        if crc & 1 != 0 {
          crc := (crc >> 1) ^ 0xA001;
        } else {
          crc := crc >> 1;
        }
      }
      assert data[..i + 1][..i] == data[..i];
    }
    assert data[..|data|] == data;
  }

  function Join(x: bv16, y: bv16): bv16 { x | y }

  function High(b: byte): bv16 { Word(b) << 8 }

  function LittleEndian(lo: byte, hi: byte): bv16 {
    Join(Word(lo), High(hi))
  }

  // The test on a received frame: its last two bytes, low byte first, are the CRC of the rest.
  predicate TrailerMatches(frame: seq<byte>)
    requires |frame| >= 2
  {
    var n := |frame|;
    Crc16(frame[..n - 2]) == LittleEndian(frame[n - 2], frame[n - 1])
  }

  // ----- The step is linear over GF(2) and a bijection -----

  function Xor(a: bv16, b: bv16): bv16 { a ^ b }

  lemma StepLinear(a: bv16, b: bv16)
    ensures BitStep(Xor(a, b)) == Xor(BitStep(a), BitStep(b))
  {
    XorShift(a, b);
    LowBit(a);
    LowBit(b);
    XorCancel(a >> 1, b >> 1, 0xA001);
  }

  // The step run backwards.
  function UndoStep(c: bv16): bv16 {
    if c & 0x8000 != 0 then ((c ^ 0xA001) << 1) | 1 else c << 1
  }

  lemma StepUndone(c: bv16)
    ensures UndoStep(BitStep(c)) == c
  {
    hide BitStep, UndoStep;
    if c & 1 != 0 { OddUndone(c); } else { EvenUndone(c); }
  }

  lemma OddUndone(c: bv16)
    requires c & 1 != 0
    ensures UndoStep(BitStep(c)) == c
  {
    OffOdd(c);
  }

  lemma EvenUndone(c: bv16)
    requires c & 1 == 0
    ensures UndoStep(BitStep(c)) == c
  {
    OffEven(c);
  }

  lemma UndoStepped(c: bv16)
    ensures BitStep(UndoStep(c)) == c
  {
    hide BitStep, UndoStep;
    if c & 0x8000 != 0 { TopRedone(c); } else { LowRedone(c); }
  }

  lemma TopRedone(c: bv16)
    requires c & 0x8000 != 0
    ensures BitStep(UndoStep(c)) == c
  {
    OnTop(c);
  }

  lemma LowRedone(c: bv16)
    requires c & 0x8000 == 0
    ensures BitStep(UndoStep(c)) == c
  {
    OnLow(c);
  }

  lemma {:induction false} StepsLinear(a: bv16, b: bv16, n: nat)
    ensures BitSteps(Xor(a, b), n) == Xor(BitSteps(a, n), BitSteps(b, n))
  {
    hide BitStep, Xor;
    if n > 0 {
      StepsLinear(a, b, n - 1);
      StepLinear(BitSteps(a, n - 1), BitSteps(b, n - 1));
    }
  }

  lemma {:induction false} StepsInjective(a: bv16, b: bv16, n: nat)
    requires BitSteps(a, n) == BitSteps(b, n)
    ensures a == b
  {
    hide BitStep, UndoStep;
    if n > 0 {
      StepUndone(BitSteps(a, n - 1));
      StepUndone(BitSteps(b, n - 1));
      StepsInjective(a, b, n - 1);
    }
  }

  // ----- The frame as the stream of bits on the wire, low bit of each byte first -----

  function Bit(b: bool): bv16 { if b then 1 else 0 }

  function Half(w: bv16): bv16 { w >> 1 }

  predicate Odd(w: bv16) { w & 1 != 0 }

  function Bits(w: bv16, n: nat): (s: seq<bool>)
    ensures |s| == n
  {
    if n == 0 then [] else [Odd(w)] + Bits(Half(w), n - 1)
  }

  predicate Fits(w: bv16, n: nat) {
    if n == 0 then w == 0 else Fits(Half(w), n - 1)
  }

  function Word(b: byte): bv16 { b as bv16 }

  function WireBits(data: seq<byte>): (s: seq<bool>)
    ensures |s| == 8 * |data|
  {
    if |data| == 0 then [] else WireBits(data[..|data| - 1]) + Bits(Word(data[|data| - 1]), 8)
  }

  // The register fed one wire bit at a time.
  function FeedBit(c: bv16, b: bool): bv16 { BitStep(Xor(c, Bit(b))) }

  function Feed(c: bv16, bits: seq<bool>): bv16
    decreases |bits|
  {
    if |bits| == 0 then c else Feed(FeedBit(c, bits[0]), bits[1..])
  }

  lemma {:induction false} FeedAppend(c: bv16, a: seq<bool>, b: seq<bool>)
    ensures Feed(c, a + b) == Feed(Feed(c, a), b)
    decreases |a|
  {
    hide FeedBit;
    if |a| == 0 {
      assert a + b == b;
    } else {
      assert (a + b)[1..] == a[1..] + b;
      FeedAppend(FeedBit(c, a[0]), a[1..], b);
    }
  }

  lemma {:induction false} StepsFromFront(c: bv16, n: nat)
    requires n > 0
    ensures BitSteps(c, n) == BitSteps(BitStep(c), n - 1)
  {
    hide BitStep;
    if n > 1 {
      StepsFromFront(c, n - 1);
    }
  }

  lemma OddBit(w: bv16)
    ensures Bit(Odd(w)) == w & 1
  {
    LowBit(w);
  }

  lemma StepOfEven(w: bv16)
    ensures BitStep(w & 0xFFFE) == Half(w)
  {}

  lemma XorInParts(c: bv16, w: bv16)
    ensures Xor(c, w) == Xor(Xor(c, w & 1), w & 0xFFFE)
  {
    SplitLow(c, w);
  }

  // Feeding a whole word splits into feeding its low bit and then the rest.
  lemma StepSplits(c: bv16, w: bv16)
    ensures BitStep(Xor(c, w)) == Xor(FeedBit(c, Odd(w)), Half(w))
  {
    hide BitStep, Xor, Half, Odd, Bit;
    OddBit(w);
    XorInParts(c, w);
    StepOfEven(w);
    StepLinear(Xor(c, w & 1), w & 0xFFFE);
  }

  // Xoring a word in at once and feeding its bits one by one come to the same register.
  lemma {:induction false} FeedWord(c: bv16, w: bv16, n: nat)
    requires Fits(w, n)
    ensures BitSteps(Xor(c, w), n) == Feed(c, Bits(w, n))
    decreases n
  {
    if n == 0 {
      XorZero(c, c);
    } else {
      FeedWordStep(c, w, n);
    }
  }

  lemma {:induction false} FeedWordStep(c: bv16, w: bv16, n: nat)
    requires n > 0 && Fits(w, n)
    ensures BitSteps(Xor(c, w), n) == Feed(c, Bits(w, n))
    decreases n, 0
  {
    hide BitStep, FeedBit, Half, Odd, Xor;
    StepSplits(c, w);
    StepsFromFront(Xor(c, w), n);
    FeedWord(FeedBit(c, Odd(w)), Half(w), n - 1);
    assert Bits(w, n)[1..] == Bits(Half(w), n - 1);
  }

  lemma ByteFits(b: byte)
    ensures Fits(Word(b), 8)
  {
    var h4 := Half(Half(Half(Half(Word(b)))));
    var h7 := Half(Half(Half(h4)));
    assert Half(h7) == 0;
    assert Fits(h7, 1);
    assert Fits(h4, 4);
    assert Fits(Half(Half(Word(b))), 6);
  }

  // The byte-wise CRC is the bit-serial one.
  lemma {:induction false} OverIsFeed(c: bv16, data: seq<byte>)
    ensures Over(c, data) == Feed(c, WireBits(data))
    decreases |data|
  {
    hide BitStep, Bits, Fits, Word, FeedBit;
    if |data| > 0 {
      var init, last := data[..|data| - 1], data[|data| - 1];
      OverIsFeed(c, init);
      ByteFits(last);
      FeedWord(Over(c, init), Word(last), 8);
      FeedAppend(c, WireBits(init), Bits(Word(last), 8));
    }
  }

  lemma WireBitsLast(front: seq<byte>, x: byte)
    ensures WireBits(front + [x]) == WireBits(front) + Bits(Word(x), 8)
  {
    hide Bits, Word;
    assert (front + [x])[..|front|] == front;
  }

  lemma NoWireBits()
    ensures WireBits([]) == []
  {}

  lemma {:induction false} WireBitsAppend(a: seq<byte>, b: seq<byte>)
    ensures WireBits(a + b) == WireBits(a) + WireBits(b)
    decreases |b|
  {
    if |b| == 0 {
      NoWireBits();
      assert a + b == a;
    } else {
      hide WireBits;
      var front, x := b[..|b| - 1], b[|b| - 1];
      WireBitsAppend(a, front);
      WireBitsLast(front, x);
      WireBitsLast(a + front, x);
      assert b == front + [x] && a + b == (a + front) + [x];
    }
  }

  // ----- A frame is accepted exactly when the CRC over all of it is zero -----

  lemma {:induction false} EvenStep(w: bv16, n: nat)
    requires BitSteps(w, n) & 1 == 0
    ensures BitSteps(w, n + 1) == BitSteps(w, n) >> 1
  {}

  // Eight turns move a high byte, over a zero low byte, down without touching the polynomial.
  lemma HighByteDrops(hi: byte)
    ensures BitSteps(High(hi), 8) == Word(hi)
  {
    var w := High(hi);
    assert w & 0xFF == 0 && w >> 8 == Word(hi);
    HighByteFalls(w);
  }

  lemma HighByteFalls(w: bv16)
    requires w & 0xFF == 0
    ensures BitSteps(w, 8) == w >> 8
  {
    hide BitStep;
    HighByteShifts(w);
    EvenStep(w, 0);
    EvenStep(w, 1);
    EvenStep(w, 2);
    EvenStep(w, 3);
    EvenStep(w, 4);
    EvenStep(w, 5);
    EvenStep(w, 6);
    EvenStep(w, 7);
  }

  lemma {:induction false} StepsZero(n: nat)
    ensures BitSteps(0, n) == 0
  {
    if n > 0 { StepsZero(n - 1); }
  }

  lemma TwoBytesAsWord(c: bv16, lo: byte, hi: byte)
    ensures ByteStep(ByteStep(c, lo), hi) == BitSteps(BitSteps(Xor(Xor(c, Word(lo)), High(hi)), 8), 8)
  {
    hide BitStep, Xor, Word, High, BitSteps;
    var x := Xor(c, Word(lo));
    HighByteDrops(hi);
    StepsLinear(x, High(hi), 8);
  }

  lemma BytesDisjoint(lo: byte, hi: byte)
    ensures Word(lo) & High(hi) == 0
  {}

  lemma JoinClears(c: bv16, x: bv16, y: bv16)
    requires x & y == 0 && c == Join(x, y)
    ensures Xor(Xor(c, x), y) == 0
  {
    JoinedXorsToZero(c, x, y);
  }

  lemma XorIsZero(a: bv16, b: bv16)
    ensures Xor(a, b) == 0 <==> a == b
  {
    XorZero(a, b);
  }

  lemma ClearIsUnique(c: bv16, d: bv16, x: bv16, y: bv16)
    requires Xor(Xor(c, x), y) == 0 && Xor(Xor(d, x), y) == 0
    ensures c == d
  {
    hide Xor;
    XorIsZero(Xor(c, x), y);
    XorIsZero(Xor(d, x), y);
    XorUndone(c, x);
    XorUndone(d, x);
  }

  lemma TrailerAsWord(c: bv16, lo: byte, hi: byte)
    ensures Xor(Xor(c, Word(lo)), High(hi)) == 0 <==> c == LittleEndian(lo, hi)
  {
    hide Word, High, Xor, Join;
    BytesDisjoint(lo, hi);
    var d := LittleEndian(lo, hi);
    JoinClears(d, Word(lo), High(hi));
    if Xor(Xor(c, Word(lo)), High(hi)) == 0 {
      ClearIsUnique(c, d, Word(lo), High(hi));
    }
  }

  lemma TwoBytesReachZero(c: bv16, lo: byte, hi: byte)
    ensures ByteStep(ByteStep(c, lo), hi) == 0 <==> Xor(Xor(c, Word(lo)), High(hi)) == 0
  {
    hide BitStep, BitSteps, Xor, Word, High, ByteStep;
    TwoBytesAsWord(c, lo, hi);
    StepsZero(8);
    var x := Xor(Xor(c, Word(lo)), High(hi));
    if ByteStep(ByteStep(c, lo), hi) == 0 {
      StepsInjective(BitSteps(x, 8), 0, 8);
      StepsInjective(x, 0, 8);
    }
  }

  lemma AcceptedIffWholeCrcZero(frame: seq<byte>)
    requires |frame| >= 2
    ensures TrailerMatches(frame) <==> Crc16(frame) == 0
  {
    hide BitStep, BitSteps, ByteStep, LittleEndian, Xor, Word, High;
    var n := |frame|;
    var c, lo, hi := Crc16(frame[..n - 2]), frame[n - 2], frame[n - 1];
    assert frame[..n - 1][..n - 2] == frame[..n - 2];
    assert Over(START, frame[..n - 1]) == ByteStep(c, lo);
    TwoBytesReachZero(c, lo, hi);
    TrailerAsWord(c, lo, hi);
  }

  predicate Accepted(frame: seq<byte>) {
    |frame| >= 2 && TrailerMatches(frame)
  }

  lemma AcceptedIsFeed(frame: seq<byte>)
    requires |frame| >= 2
    ensures Accepted(frame) <==> Feed(START, WireBits(frame)) == 0
  {
    AcceptedIffWholeCrcZero(frame);
    OverIsFeed(START, frame);
  }

  // ----- Bursts -----

  function Diff(x: seq<bool>, y: seq<bool>): (z: seq<bool>)
    requires |x| == |y|
    ensures |z| == |x|
  {
    if |x| == 0 then [] else [x[0] != y[0]] + Diff(x[1..], y[1..])
  }

  lemma BitLinear(a: bv16, b: bv16, x: bool, y: bool)
    ensures Xor(Xor(a, Bit(x)), Xor(b, Bit(y))) == Xor(Xor(a, b), Bit(x != y))
  {
    XorSwap(a, b, Bit(x), Bit(y));
    assert Bit(x) ^ Bit(y) == Bit(x != y);
  }

  lemma {:induction false} FeedLinear(a: bv16, b: bv16, x: seq<bool>, y: seq<bool>)
    requires |x| == |y|
    ensures Xor(Feed(a, x), Feed(b, y)) == Feed(Xor(a, b), Diff(x, y))
    decreases |x|
  {
    hide BitStep, Xor, Bit;
    if |x| > 0 {
      StepLinear(Xor(a, Bit(x[0])), Xor(b, Bit(y[0])));
      BitLinear(a, b, x[0], y[0]);
      FeedLinear(FeedBit(a, x[0]), FeedBit(b, y[0]), x[1..], y[1..]);
      assert Diff(x, y)[1..] == Diff(x[1..], y[1..]);
    }
  }

  lemma {:induction false} DiffFalseIsEqual(x: seq<bool>, y: seq<bool>)
    requires |x| == |y|
    requires true !in Diff(x, y)
    ensures x == y
  {
    if |x| > 0 {
      assert Diff(x, y)[0] == (x[0] != y[0]);
      assert forall b | b in Diff(x[1..], y[1..]) :: b in Diff(x, y);
      DiffFalseIsEqual(x[1..], y[1..]);
      assert x == [x[0]] + x[1..];
      assert y == [y[0]] + y[1..];
    }
  }

  lemma {:induction false} FitsMore(w: bv16, n: nat, m: nat)
    requires Fits(w, n) && n <= m
    ensures Fits(w, m)
    decreases m
  {
    if n > 0 {
      FitsMore(Half(w), n - 1, m - 1);
    } else if m > 0 {
      assert Half(w) == 0;
      FitsMore(Half(w), 0, m - 1);
    }
  }

  lemma FitsFive(w: bv16, n: nat)
    requires n >= 5 && Fits(w, n)
    ensures Fits(Half(Half(Half(Half(Half(w))))), n - 5)
  {
    hide Half;
    assert Fits(Half(w), n - 1);
    assert Fits(Half(Half(w)), n - 2);
    assert Fits(Half(Half(Half(w))), n - 3);
    assert Fits(Half(Half(Half(Half(w)))), n - 4);
  }

  lemma FitsFifteen(w: bv16)
    requires Fits(w, 15)
    ensures w & 0x8000 == 0
  {
    var h5 := Half(Half(Half(Half(Half(w)))));
    var h10 := Half(Half(Half(Half(Half(h5)))));
    FitsFive(w, 15);
    FitsFive(h5, 10);
    FitsFive(h10, 5);
    assert Half(Half(Half(Half(Half(h10))))) == 0;
  }

  lemma BitVanishes(d: bv16, b: bool)
    ensures Half(Xor(d, Bit(b))) == Half(d)
  {
    LowBitShiftsOut(d);
  }

  lemma StepWithLowTop(c: bv16)
    requires BitStep(c) & 0x8000 == 0
    ensures BitStep(c) == Half(c)
  {
    if c & 1 != 0 { OffOdd(c); }
  }

  lemma UndoneHalf(d: bv16, b: bool)
    requires FeedBit(d, b) & 0x8000 == 0
    ensures Half(d) == FeedBit(d, b)
  {
    hide BitStep, Xor, Bit, Half;
    StepWithLowTop(Xor(d, Bit(b)));
    BitVanishes(d, b);
  }

  // A register that n <= 16 more wire bits bring to zero had no bit at or above position n.
  lemma {:induction false} ZeroMeansSmall(d: bv16, z: seq<bool>)
    requires |z| <= 16 && Feed(d, z) == 0
    ensures Fits(d, |z|)
    decreases |z|
  {
    hide BitStep, Xor, Bit, FeedBit;
    if |z| > 0 {
      var e := FeedBit(d, z[0]);
      ZeroMeansSmall(e, z[1..]);
      FitsMore(e, |z| - 1, 15);
      FitsFifteen(e);
      UndoneHalf(d, z[0]);
    }
  }

  lemma ImpulseIsLarge()
    ensures FeedBit(0, true) == 0xA001
    ensures FeedBit(0, false) == 0
    ensures !Fits(0xA001, 15)
  {
    if Fits(0xA001, 15) {
      FitsFifteen(0xA001);
    }
  }

  lemma {:induction false} ZeroBurst(z: seq<bool>)
    requires |z| <= 16 && Feed(0, z) == 0
    ensures true !in z
    decreases |z|
  {
    hide BitStep, Xor, Bit, FeedBit;
    if |z| > 0 {
      ImpulseIsLarge();
      if z[0] {
        ZeroMeansSmall(FeedBit(0, true), z[1..]);
        FitsMore(FeedBit(0, true), |z| - 1, 15);
        assert false;
      } else {
        ZeroBurst(z[1..]);
        assert z == [z[0]] + z[1..];
      }
    }
  }

  lemma WindowInjective(c: bv16, x: seq<bool>, y: seq<bool>)
    requires |x| == |y| <= 16 && Feed(c, x) == Feed(c, y)
    ensures x == y
  {
    hide BitStep, Bit, FeedBit;
    FeedLinear(c, c, x, y);
    XorZero(c, c);
    XorZero(Feed(c, x), Feed(c, x));
    ZeroBurst(Diff(x, y));
    DiffFalseIsEqual(x, y);
  }

  lemma {:induction false} FeedInjective(a: bv16, b: bv16, q: seq<bool>)
    requires Feed(a, q) == Feed(b, q)
    ensures a == b
    decreases |q|
  {
    hide BitStep, UndoStep, Bit;
    if |q| > 0 {
      FeedInjective(FeedBit(a, q[0]), FeedBit(b, q[0]), q[1..]);
      StepUndone(Xor(a, Bit(q[0])));
      StepUndone(Xor(b, Bit(q[0])));
      XorUndone(a, Bit(q[0]));
      XorUndone(b, Bit(q[0]));
    }
  }

  lemma XorUndone(a: bv16, b: bv16)
    ensures Xor(Xor(a, b), b) == a
  {
    XorTwice(a, b);
  }

  // Any change confined to 16 consecutive bits on the wire is detected, wherever it falls.
  lemma BurstRejected(f: seq<byte>, g: seq<byte>, i: nat, n: nat)
    requires |f| == |g| && Accepted(f)
    requires n <= 16 && i + n <= 8 * |f|
    requires WireBits(f)[..i] == WireBits(g)[..i] && WireBits(f)[i + n..] == WireBits(g)[i + n..]
    requires WireBits(f) != WireBits(g)
    ensures !Accepted(g)
  {
    hide BitStep, Bit, FeedBit, Feed, WireBits, Xor, Over, TrailerMatches;
    if Accepted(g) {
      AcceptedIsFeed(f);
      AcceptedIsFeed(g);
      var p, q := WireBits(f)[..i], WireBits(f)[i + n..];
      var x, y := WireBits(f)[i..i + n], WireBits(g)[i..i + n];
      assert WireBits(f) == p + (x + q);
      assert WireBits(g) == p + (y + q);
      var c := Feed(START, p);
      FeedAppend(START, p, x + q);
      FeedAppend(START, p, y + q);
      FeedAppend(c, x, q);
      FeedAppend(c, y, q);
      FeedInjective(Feed(c, x), Feed(c, y), q);
      WindowInjective(c, x, y);
      assert false;
    }
  }

  lemma {:induction false} BitsInjective(v: bv16, w: bv16, n: nat)
    requires Fits(v, n) && Fits(w, n) && Bits(v, n) == Bits(w, n)
    ensures v == w
    decreases n
  {
    if n > 0 {
      assert Bits(v, n)[0] == Odd(v) && Bits(w, n)[0] == Odd(w);
      assert Bits(v, n)[1..] == Bits(Half(v), n - 1);
      assert Bits(w, n)[1..] == Bits(Half(w), n - 1);
      BitsInjective(Half(v), Half(w), n - 1);
      SplitLow(0, v);
      SplitLow(0, w);
      LowBit(v);
      LowBit(w);
    }
  }

  lemma WordInjective(a: byte, b: byte)
    requires Word(a) == Word(b)
    ensures a == b
  {}

  lemma {:induction false} WireBitsInjective(f: seq<byte>, g: seq<byte>)
    requires |f| == |g| && WireBits(f) == WireBits(g)
    ensures f == g
    decreases |f|
  {
    hide Fits, Half, Odd, Word, Bits;
    if |f| > 0 {
      var n := |f| - 1;
      assert WireBits(f)[..8 * n] == WireBits(f[..n]) && WireBits(g)[..8 * n] == WireBits(g[..n]);
      assert WireBits(f)[8 * n..] == Bits(Word(f[n]), 8) && WireBits(g)[8 * n..] == Bits(Word(g[n]), 8);
      WireBitsInjective(f[..n], g[..n]);
      ByteFits(f[n]);
      ByteFits(g[n]);
      BitsInjective(Word(f[n]), Word(g[n]), 8);
      WordInjective(f[n], g[n]);
      assert f == f[..n] + [f[n]] && g == g[..n] + [g[n]];
    }
  }

  // The byte-level reading: a change of one byte or of two adjacent bytes is rejected.
  lemma AdjacentBytesRejected(f: seq<byte>, g: seq<byte>, i: nat)
    requires |f| == |g| && i + 2 <= |f| && Accepted(f) && f != g
    requires f[..i] == g[..i] && f[i + 2..] == g[i + 2..]
    ensures !Accepted(g)
  {
    hide TrailerMatches, WireBits;
    assert f == f[..i] + (f[i..i + 2] + f[i + 2..]) && g == g[..i] + (g[i..i + 2] + g[i + 2..]);
    WireBitsAppend(f[..i], f[i..i + 2] + f[i + 2..]);
    WireBitsAppend(g[..i], g[i..i + 2] + g[i + 2..]);
    WireBitsAppend(f[i..i + 2], f[i + 2..]);
    WireBitsAppend(g[i..i + 2], g[i + 2..]);
    if WireBits(f) == WireBits(g) {
      WireBitsInjective(f, g);
    }
    BurstRejected(f, g, 8 * i, 16);
  }

  // ----- Odd numbers of flipped bits -----

  function ParityOf(w: bv16, n: nat): bool {
    if n == 0 then false else Odd(w) != ParityOf(Half(w), n - 1)
  }

  predicate Parity(w: bv16) { ParityOf(w, 16) }

  function OddOnes(bits: seq<bool>): bool {
    if |bits| == 0 then false else bits[0] != OddOnes(bits[1..])
  }

  lemma XorHalves(a: bv16, b: bv16)
    ensures Half(Xor(a, b)) == Xor(Half(a), Half(b))
    ensures Odd(Xor(a, b)) == (Odd(a) != Odd(b))
  {
    XorShift(a, b);
    LowBit(a);
    LowBit(b);
  }

  lemma {:induction false} ParityLinear(a: bv16, b: bv16, n: nat)
    ensures ParityOf(Xor(a, b), n) == (ParityOf(a, n) != ParityOf(b, n))
    decreases n
  {
    hide Xor, Half, Odd;
    if n > 0 {
      XorHalves(a, b);
      ParityLinear(Half(a), Half(b), n - 1);
    }
  }

  lemma {:induction false} ParityStops(w: bv16, n: nat)
    requires Fits(w, n)
    ensures ParityOf(w, n + 1) == ParityOf(w, n)
    decreases n
  {
    if n > 0 {
      ParityStops(Half(w), n - 1);
    } else {
      assert !Odd(w);
    }
  }

  lemma HalfFits(w: bv16)
    ensures Fits(Half(w), 15)
  {
    var h1 := Half(w);
    var h5 := Half(Half(Half(Half(h1))));
    var h9 := Half(Half(Half(Half(h5))));
    var h13 := Half(Half(Half(Half(h9))));
    var h15 := Half(Half(h13));
    assert Half(h15) == 0;
    assert Fits(h15, 1);
    assert Fits(h13, 3);
    assert Fits(Half(Half(h9)), 5);
    assert Fits(h9, 7);
    assert Fits(Half(Half(h5)), 9);
    assert Fits(h5, 11);
    assert Fits(Half(Half(h1)), 13);
  }

  lemma PolynomialIsOdd()
    ensures Parity(0xA001)
  {
    assert ParityOf(1, 1) && ParityOf(2, 2) && !ParityOf(5, 3);
    assert !ParityOf(0x0A, 4) && !ParityOf(0x14, 5);
    assert !ParityOf(0x28, 6) && !ParityOf(0x50, 7);
    assert !ParityOf(0xA0, 8) && !ParityOf(0x140, 9);
    assert !ParityOf(0x280, 10) && !ParityOf(0x500, 11);
    assert !ParityOf(0xA00, 12) && !ParityOf(0x1400, 13);
    assert !ParityOf(0x2800, 14) && !ParityOf(0x5000, 15);
  }

  lemma StepAsXor(c: bv16)
    ensures BitStep(c) == if Odd(c) then Xor(Half(c), 0xA001) else Half(c)
  {}

  // The polynomial has an even number of terms, so the step keeps the parity of the register.
  lemma StepKeepsParity(c: bv16)
    ensures Parity(BitStep(c)) == Parity(c)
  {
    hide BitStep, Xor, Half, Odd;
    HalfFits(c);
    ParityStops(Half(c), 15);
    StepAsXor(c);
    if Odd(c) {
      PolynomialIsOdd();
      ParityLinear(Half(c), 0xA001, 16);
    }
  }

  lemma {:induction false} ParityZero(n: nat)
    ensures !ParityOf(0, n)
  {
    if n > 0 {
      assert Half(0) == 0;
      ParityZero(n - 1);
    }
  }

  lemma BitTogglesParity(c: bv16, b: bool)
    ensures Parity(Xor(c, Bit(b))) == (Parity(c) != b)
  {
    hide Xor;
    ParityLinear(c, Bit(b), 16);
    ParityZero(15);
    assert Half(Bit(b)) == 0 && Odd(Bit(b)) == b;
  }

  lemma {:induction false} FeedParity(c: bv16, bits: seq<bool>)
    ensures Parity(Feed(c, bits)) == (Parity(c) != OddOnes(bits))
    decreases |bits|
  {
    hide BitStep, Xor, Bit, Parity;
    if |bits| > 0 {
      BitTogglesParity(c, bits[0]);
      StepKeepsParity(Xor(c, Bit(bits[0])));
      FeedParity(FeedBit(c, bits[0]), bits[1..]);
    }
  }

  lemma {:induction false} DiffParity(x: seq<bool>, y: seq<bool>)
    requires |x| == |y|
    ensures OddOnes(Diff(x, y)) == (OddOnes(x) != OddOnes(y))
  {
    if |x| > 0 {
      DiffParity(x[1..], y[1..]);
      assert Diff(x, y)[1..] == Diff(x[1..], y[1..]);
    }
  }

  // Flipping an odd number of bits of an accepted frame, anywhere in it, is detected.
  lemma OddFlipsRejected(f: seq<byte>, g: seq<byte>)
    requires |f| == |g| && Accepted(f)
    requires OddOnes(Diff(WireBits(f), WireBits(g)))
    ensures !Accepted(g)
  {
    hide BitStep, Xor, Bit, Feed, FeedBit;
    AcceptedIsFeed(f);
    AcceptedIsFeed(g);
    FeedParity(START, WireBits(f));
    FeedParity(START, WireBits(g));
    DiffParity(WireBits(f), WireBits(g));
  }

  // ----- The value of the standard -----

  lemma {:induction false} OverSplit(c: bv16, front: seq<byte>, tail: seq<byte>)
    ensures Over(c, front + tail) == Over(Over(c, front), tail)
    decreases |tail|
  {
    hide ByteStep;
    if |tail| == 0 {
      assert front + tail == front;
    } else {
      var n := |tail| - 1;
      assert (front + tail)[..|front| + n] == front + tail[..n];
      OverSplit(c, front, tail[..n]);
    }
  }

  lemma OverTwo(c: bv16, a: byte, b: byte)
    ensures Over(c, [a, b]) == ByteStep(ByteStep(c, a), b)
  {
    hide ByteStep;
    assert [a, b][..1] == [a];
    assert Over(c, [a]) == ByteStep(c, a);
  }

  lemma Complemented(a: byte, b: byte)
    ensures Xor(Xor(0xFFFF, Word(a)), High(b)) == Xor(Xor(0, Word(!a)), High(!b))
  {}

  // Starting from all ones is starting from zero over data whose first two bytes are complemented.
  lemma StartsComplemented(data: seq<byte>)
    requires |data| >= 2
    ensures Crc16(data) == Over(0, [!data[0], !data[1]] + data[2..])
  {
    hide BitSteps, ByteStep, Xor, Word, High;
    var a, b := data[0], data[1];
    assert data == [a, b] + data[2..];
    OverSplit(START, [a, b], data[2..]);
    OverSplit(0, [!a, !b], data[2..]);
    OverTwo(START, a, b);
    OverTwo(0, !a, !b);
    TwoBytesAsWord(START, a, b);
    TwoBytesAsWord(0, !a, !b);
    Complemented(a, b);
  }

  // The request that reads ten registers from address 0 of slave 1 ends in C5 CD.
  lemma ReadRequestCrc()
    ensures Crc16([0x01, 0x03, 0x00, 0x00, 0x00, 0x0A]) == 0xCDC5
  {
    hide ByteStep, Over;
    var one: seq<byte>, two: seq<byte>, three: seq<byte> := [0x01, 0x03], [0x00, 0x00], [0x00, 0x0A];
    FirstBytes();
    LastBytes();
    OverTwo(START, 0x01, 0x03);
    OverTwo(0x2140, 0x00, 0x00);
    OverTwo(0xD8F1, 0x00, 0x0A);
    OverSplit(START, one, two);
    OverSplit(START, one + two, three);
    assert one + two + three == [0x01, 0x03, 0x00, 0x00, 0x00, 0x0A];
  }

  lemma FirstBytes()
    ensures ByteStep(0xFFFF, 0x01) == 0x807E && ByteStep(0x807E, 0x03) == 0x2140
  {}

  lemma LastBytes()
    ensures ByteStep(0x2140, 0x00) == 0xF020 && ByteStep(0xF020, 0x00) == 0xD8F1
    ensures ByteStep(0xD8F1, 0x00) == 0x8419 && ByteStep(0x8419, 0x0A) == 0xCDC5
  {}
}
