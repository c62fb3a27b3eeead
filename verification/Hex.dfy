// Uppercase hex encoding of Modbus frames.

module Hex {

  import opened Options
  import opened Crc

  function HexDigit(n: bv8): char
    requires n < 16
  {
    if n == 0 then '0' else if n == 1 then '1' else if n == 2 then '2' else if n == 3 then '3'
    else if n == 4 then '4' else if n == 5 then '5' else if n == 6 then '6' else if n == 7 then '7'
    else if n == 8 then '8' else if n == 9 then '9' else if n == 10 then 'A' else if n == 11 then 'B'
    else if n == 12 then 'C' else if n == 13 then 'D' else if n == 14 then 'E' else 'F'
  }

  // None where the firmware returns -1.
  function HexNibble(c: char): Option<bv8> {
    match c
    case '0' => Some(0) case '1' => Some(1) case '2' => Some(2) case '3' => Some(3)
    case '4' => Some(4) case '5' => Some(5) case '6' => Some(6) case '7' => Some(7)
    case '8' => Some(8) case '9' => Some(9)
    case 'A' => Some(10) case 'B' => Some(11) case 'C' => Some(12)
    case 'D' => Some(13) case 'E' => Some(14) case 'F' => Some(15)
    case 'a' => Some(10) case 'b' => Some(11) case 'c' => Some(12)
    case 'd' => Some(13) case 'e' => Some(14) case 'f' => Some(15)
    case _ => None
  }

  function HighNibble(b: byte): bv8 { b >> 4 }

  function LowNibble(b: byte): bv8 { b & 0x0F }

  function JoinNibbles(hi: bv8, lo: bv8): byte { (hi << 4) | lo }

  lemma NibbleBounds(b: byte)
    ensures HighNibble(b) < 16 && LowNibble(b) < 16
  {}

  function HighDigit(b: byte): char {
    NibbleBounds(b);
    HexDigit(HighNibble(b))
  }

  function LowDigit(b: byte): char {
    NibbleBounds(b);
    HexDigit(LowNibble(b))
  }

  // ----- What the two codecs compute -----

  function Encoded(data: seq<byte>): (s: string)
    ensures |s| == 2 * |data|
  {
    if |data| == 0 then ""
    else Encoded(data[..|data| - 1]) + [HighDigit(data[|data| - 1]), LowDigit(data[|data| - 1])]
  }

  // None when the length is odd or a character is no hex digit.
  function Decoded(hex: string): (r: Option<seq<byte>>)
    ensures r.Some? ==> 2 * |r.value| == |hex|
  {
    if |hex| == 0 then Some([])
    else if |hex| == 1 then None
    else
      var n := |hex|;
      match Decoded(hex[..n - 2])
      case None => None
      case Some(front) =>
        match (HexNibble(hex[n - 2]), HexNibble(hex[n - 1]))
        case (Some(hi), Some(lo)) => Some(front + [JoinNibbles(hi, lo)])
        case _ => None
  }

  method BytesToHex(data: seq<byte>) returns (out: string)
    ensures out == Encoded(data)
  {
    out := "";
    for i := 0 to |data|
      invariant out == Encoded(data[..i])
    {
      NibbleBounds(data[i]);
      out := out + [HexDigit(data[i] >> 4)];
      out := out + [HexDigit(data[i] & 0x0F)];
      assert data[..i + 1][..i] == data[..i];
    }
    assert data[..|data|] == data;
  }

  method HexToBytes(hex: string) returns (out: Option<seq<byte>>)
    ensures out == Decoded(hex)
  {
    if |hex| % 2 != 0 {
      OddLengthRejected(hex);
      return None;
    }
    var bytes: seq<byte> := [];
    var i := 0;
    while i < |hex|
      invariant 0 <= i <= |hex| && i % 2 == 0
      invariant Decoded(hex[..i]) == Some(bytes)
    {
      assert hex[..i + 2][..i] == hex[..i];
      var hi := HexNibble(hex[i]);
      var lo := HexNibble(hex[i + 1]);
      if hi.None? || lo.None? {
        PrefixRejected(hex, i + 2);
        return None;
      }
      bytes := bytes + [(hi.value << 4) | lo.value];
      i := i + 2;
    }
    assert hex[..|hex|] == hex;
    out := Some(bytes);
  }

  lemma {:induction false} OddLengthRejected(hex: string)
    requires |hex| % 2 == 1
    ensures Decoded(hex).None?
  {
    if |hex| > 1 {
      OddLengthRejected(hex[..|hex| - 2]);
    }
  }

  lemma {:induction false} PrefixRejected(hex: string, i: nat)
    requires i <= |hex| && i % 2 == 0 && |hex| % 2 == 0
    requires Decoded(hex[..i]).None?
    ensures Decoded(hex).None?
    decreases |hex| - i
  {
    if i == |hex| {
      assert hex[..i] == hex;
    } else {
      assert hex[..i + 2][..i] == hex[..i];
      PrefixRejected(hex, i + 2);
    }
  }

  // ----- Round trips -----

  lemma DigitRoundTrip(n: bv8)
    requires n < 16
    ensures HexNibble(HexDigit(n)) == Some(n)
  {}

  lemma NibblesJoin(b: byte)
    ensures JoinNibbles(HighNibble(b), LowNibble(b)) == b
  {}

  lemma ByteRoundTrip(b: byte)
    ensures HexNibble(HighDigit(b)).Some? && HexNibble(LowDigit(b)).Some?
    ensures JoinNibbles(HexNibble(HighDigit(b)).value, HexNibble(LowDigit(b)).value) == b
  {
    hide HexDigit, HexNibble, HighNibble, LowNibble, JoinNibbles;
    NibbleBounds(b);
    DigitRoundTrip(HighNibble(b));
    DigitRoundTrip(LowNibble(b));
    NibblesJoin(b);
  }

  lemma DecodedByte(hex: string, front: seq<byte>, b: byte)
    requires Decoded(hex) == Some(front)
    ensures Decoded(hex + [HighDigit(b), LowDigit(b)]) == Some(front + [b])
  {
    hide HexNibble, JoinNibbles, HighDigit, LowDigit;
    ByteRoundTrip(b);
    assert (hex + [HighDigit(b), LowDigit(b)])[..|hex|] == hex;
  }

  lemma {:induction false} DecodeEncode(data: seq<byte>)
    ensures Decoded(Encoded(data)) == Some(data)
  {
    hide Decoded, HighDigit, LowDigit;
    if |data| == 0 {
      EmptyRoundTrip();
    } else {
      var b, front := data[|data| - 1], data[..|data| - 1];
      DecodeEncode(front);
      DecodedByte(Encoded(front), front, b);
      assert data == front + [b];
    }
  }

  lemma EmptyRoundTrip()
    ensures Decoded("") == Some([])
  {}

  function Upper(c: char): char {
    match c
    case 'a' => 'A' case 'b' => 'B' case 'c' => 'C' case 'd' => 'D' case 'e' => 'E' case 'f' => 'F'
    case _ => c
  }

  lemma NibbleRoundTrip(c: char)
    requires HexNibble(c).Some?
    ensures HexNibble(c).value < 16 && HexDigit(HexNibble(c).value) == Upper(c)
  {}

  lemma NibblesSplit(hi: bv8, lo: bv8)
    requires hi < 16 && lo < 16
    ensures HighNibble(JoinNibbles(hi, lo)) == hi && LowNibble(JoinNibbles(hi, lo)) == lo
  {}

  lemma EncodedLast(front: seq<byte>, hi: bv8, lo: bv8)
    requires hi < 16 && lo < 16
    ensures Encoded(front + [JoinNibbles(hi, lo)]) == Encoded(front) + [HexDigit(hi), HexDigit(lo)]
  {
    hide HexDigit, HighNibble, LowNibble, JoinNibbles;
    NibblesSplit(hi, lo);
    assert (front + [JoinNibbles(hi, lo)])[..|front|] == front;
  }

  // Decoding then encoding changes nothing but the case of the letters.
  lemma {:induction false} EncodeDecode(hex: string)
    requires Decoded(hex).Some?
    ensures Encoded(Decoded(hex).value) == seq(|hex|, i requires 0 <= i < |hex| => Upper(hex[i]))
  {
    hide HexDigit, HexNibble, JoinNibbles, Upper;
    if |hex| > 0 {
      var n := |hex|;
      EncodeDecode(hex[..n - 2]);
      NibbleRoundTrip(hex[n - 2]);
      NibbleRoundTrip(hex[n - 1]);
      EncodedLast(Decoded(hex[..n - 2]).value, HexNibble(hex[n - 2]).value, HexNibble(hex[n - 1]).value);
    }
  }

  // ----- The digits -----

  const UPPER_DIGITS := "0123456789ABCDEF"
  const LOWER_DIGITS := "0123456789abcdef"

  predicate IsHexDigit(c: char) { c in UPPER_DIGITS || c in LOWER_DIGITS }

  // The sixteen digits stand for their places, in either case ...
  lemma DigitValue(d: nat)
    requires d < 16
    ensures HexNibble(UPPER_DIGITS[d]) == Some(d as bv8) && HexNibble(LOWER_DIGITS[d]) == Some(d as bv8)
  {}

  // ... and no other character is one.
  lemma DigitsExactly(c: char)
    ensures HexNibble(c).Some? <==> IsHexDigit(c)
  {
    if IsHexDigit(c) {
      var d :| 0 <= d < 16 && (c == UPPER_DIGITS[d] || c == LOWER_DIGITS[d]);
      DigitValue(d);
    } else {
      if HexNibble(c).Some? { NotADigit(c); }
    }
  }

  lemma NotADigit(c: char)
    requires HexNibble(c).Some?
    ensures IsHexDigit(c)
  {
    var n := HexNibble(c).value as nat;
    assert n < 16;
    assert c == UPPER_DIGITS[n] || c == LOWER_DIGITS[n];
  }

  lemma DigitOf(n: bv8)
    requires n < 16
    ensures HexDigit(n) == UPPER_DIGITS[n as nat]
  {}

  lemma NibblesOf(b: byte)
    ensures HighNibble(b) as nat == b as nat / 16 && LowNibble(b) as nat == b as nat % 16
  {}

  // Each byte becomes two digits, the sixteens first.
  lemma {:induction false} EncodedAt(data: seq<byte>, i: nat)
    requires i < |data|
    ensures Encoded(data)[2 * i] == UPPER_DIGITS[data[i] as nat / 16]
    ensures Encoded(data)[2 * i + 1] == UPPER_DIGITS[data[i] as nat % 16]
  {
    hide HexDigit, HighNibble, LowNibble;
    var n := |data| - 1;
    if i < n {
      EncodedAt(data[..n], i);
    } else {
      NibbleBounds(data[n]);
      DigitOf(HighNibble(data[n]));
      DigitOf(LowNibble(data[n]));
      NibblesOf(data[n]);
    }
  }

  // Exactly the strings of even length made of hex digits decode.
  lemma {:induction false} DecodesExactly(hex: string)
    ensures Decoded(hex).Some? <==>
            |hex| % 2 == 0 && forall i :: 0 <= i < |hex| ==> IsHexDigit(hex[i])
  {
    hide HexNibble, IsHexDigit;
    if |hex| > 1 {
      var n := |hex|;
      DecodesExactly(hex[..n - 2]);
      DigitsExactly(hex[n - 2]);
      DigitsExactly(hex[n - 1]);
      if Decoded(hex).Some? {
        forall i | 0 <= i < |hex| ensures IsHexDigit(hex[i]) {
          if i < n - 2 {
            assert hex[i] == hex[..n - 2][i];
          }
        }
      }
    }
  }
}
