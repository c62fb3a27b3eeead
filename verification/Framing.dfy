// Reply framing does not depend on how the bytes are split over polls.

module Framing {

  import opened Options
  import opened Clock
  import opened Crc
  import opened Hex
  import opened Executor

  // What one poll finds: the bytes that arrived since the last one, and its clock readings.
  datatype Chunk = Chunk(bytes: seq<byte>, now: u32, later: u32)

  function Stream(chunks: seq<Chunk>): seq<byte> {
    if |chunks| == 0 then [] else chunks[0].bytes + Stream(chunks[1..])
  }

  // Polling chunk after chunk until the line is over.
  function ListenAll(e: Exec, s: Settings, uart: seq<byte>, chunks: seq<Chunk>): Exec
    requires Ready(e)
    decreases |chunks|
  {
    if |chunks| == 0 || e.phase != RxWait then e
    else
      var p := Polled(e, s, uart + chunks[0].bytes, chunks[0].now, chunks[0].later);
      StaysReady(e, s, uart + chunks[0].bytes, chunks[0].now, chunks[0].later);
      ListenAll(p.exec, s, p.uart, chunks[1..])
  }

  predicate BeforeTimeout(e: Exec, s: Settings, chunks: seq<Chunk>) {
    forall i :: 0 <= i < |chunks| ==> !Elapsed(chunks[i].now, e.txDoneAt, s.responseTimeout)
  }

  // Exception replies and functions 1-6, 15 and 16 tell their own length.
  predicate TellsLength(stream: seq<byte>) {
    |stream| >= 3 ==> ExpectedLength(stream) > 0
  }

  lemma TellsLengthExactly(stream: seq<byte>)
    requires |stream| >= 3
    ensures TellsLength(stream) <==>
            stream[1] & 0x80 != 0 || 1 <= stream[1] <= 6 || stream[1] == 0x0F || stream[1] == 0x10
  {}

  predicate Complete(stream: seq<byte>) {
    |stream| >= 3 && |stream| >= ExpectedLength(stream)
  }

  // Everything but the moment the line ended.
  function Timeless(e: Exec): Exec { e.(gapUntil := 0, lastRxAt := 0) }

  // The line as if the whole stream had been there at once.
  function Outcome(e: Exec, stream: seq<byte>): Exec
    requires e.lineIndex < |e.header.lines|
  {
    if Complete(stream) then Timeless(LineDone(e.(rx := stream[..ExpectedLength(stream)]), 0))
    else Timeless(e.(rx := stream))
  }

  lemma NextLineTimeless(e: Exec, f: Exec, t: u32, u: u32)
    requires Timeless(e) == Timeless(f) && e.lineIndex <= |e.header.lines|
    ensures Timeless(NextLine(e, t)) == Timeless(NextLine(f, u))
  {
    assert e.header == f.header && e.lineIndex == f.lineIndex && e.errors == f.errors;
  }

  lemma LineDoneTimeless(e: Exec, f: Exec, t: u32, u: u32)
    requires Timeless(e) == Timeless(f) && e.lineIndex < |e.header.lines|
    ensures Timeless(LineDone(e, t)) == Timeless(LineDone(f, u))
  {
    hide NextLine, TrailerMatches;
    assert e.header == f.header && e.lineIndex == f.lineIndex && e.rx == f.rx && e.errors == f.errors;
    if ValidReply(e.rx) {
      var lines := e.header.lines;
      var line := lines[e.lineIndex].(modbus := Some(Encoded(e.rx)));
      var header := e.header.(lines := lines[e.lineIndex := line]);
      NextLineTimeless(e.(header := header, gapUntil := Add(t, e.nextGap), lineIndex := e.lineIndex + 1),
                       f.(header := header, gapUntil := Add(u, f.nextGap), lineIndex := e.lineIndex + 1), t, u);
    }
  }

  lemma PrefixTellsLength(part: seq<byte>, stream: seq<byte>)
    requires part <= stream && TellsLength(stream)
    ensures TellsLength(part)
    ensures Complete(part) ==> && Complete(stream)
                               && ExpectedLength(part) == ExpectedLength(stream)
                               && part[..ExpectedLength(part)] == stream[..ExpectedLength(stream)]
  {}

  // One poll with part of the stream still to come.
  lemma PollPart(e: Exec, s: Settings, c: Chunk)
    requires Ready(e) && e.phase == RxWait && !Complete(e.rx)
    requires !Elapsed(c.now, e.txDoneAt, s.responseTimeout)
    requires TellsLength(e.rx + c.bytes)
    ensures var p := Polled(e, s, c.bytes, c.now, c.later);
            var got := e.rx + c.bytes[..Taken(e, c.bytes)];
            && got <= e.rx + c.bytes
            && if Complete(got) then
                 p.exec == LineDone(Received(e, c.bytes, c.now).(rx := got[..ExpectedLength(got)]), c.later)
               else p.exec == Received(e, c.bytes, c.now) && p.uart == [] && got == e.rx + c.bytes
  {
    hide LineDone, Elapsed, ExpectedLength;
    PrefixTellsLength(e.rx, e.rx + c.bytes);
    assert |e.rx| < 260;
    var n := Taken(e, c.bytes);
    var got := e.rx + c.bytes[..n];
    PrefixTellsLength(got, e.rx + c.bytes);
    if n < |c.bytes| {
      assert |got| == MAX_FRAME_SIZE;
    }
  }

  lemma LineDoneEnds(e: Exec, later: u32)
    requires e.lineIndex < |e.header.lines|
    ensures LineDone(e, later).phase in {Gap, Done}
  {}

  lemma {:induction false} ChunksAccumulate(e: Exec, s: Settings, chunks: seq<Chunk>)
    requires Ready(e) && e.phase == RxWait && !Complete(e.rx)
    requires BeforeTimeout(e, s, chunks) && TellsLength(e.rx + Stream(chunks))
    ensures Timeless(ListenAll(e, s, [], chunks)) == Outcome(e, e.rx + Stream(chunks))
    decreases |chunks|
  {
    hide LineDone, Elapsed, ExpectedLength;
    var whole := e.rx + Stream(chunks);
    if |chunks| == 0 {
      assert whole == e.rx;
    } else {
      var c := chunks[0];
      assert [] + c.bytes == c.bytes;
      assert whole == (e.rx + c.bytes) + Stream(chunks[1..]);
      PrefixTellsLength(e.rx + c.bytes, whole);
      PollPart(e, s, c);
      StaysReady(e, s, c.bytes, c.now, c.later);
      var p := Polled(e, s, c.bytes, c.now, c.later);
      var got := e.rx + c.bytes[..Taken(e, c.bytes)];
      PrefixTellsLength(got, whole);
      if Complete(got) {
        var f := Received(e, c.bytes, c.now).(rx := got[..ExpectedLength(got)]);
        LineDoneEnds(f, c.later);
        LineDoneTimeless(f, e.(rx := got[..ExpectedLength(got)]), c.later, 0);
      } else {
        ChunksAccumulate(p.exec, s, chunks[1..]);
        OutcomeSame(p.exec, e, whole);
      }
    }
  }

  lemma OutcomeSame(e: Exec, f: Exec, stream: seq<byte>)
    requires Timeless(e.(rx := [])) == Timeless(f.(rx := [])) && e.lineIndex < |e.header.lines|
    ensures Outcome(e, stream) == Outcome(f, stream)
  {
    hide LineDone, ExpectedLength;
    assert e.header == f.header && e.lineIndex == f.lineIndex;
    assert Timeless(e.(rx := stream)) == Timeless(f.(rx := stream));
    if Complete(stream) {
      var frame := stream[..ExpectedLength(stream)];
      assert Timeless(e.(rx := frame)) == Timeless(f.(rx := frame));
      LineDoneTimeless(e.(rx := frame), f.(rx := frame), 0, 0);
    }
  }

  // A reply that tells its length is framed as if it had come in one piece, however it was split.
  lemma ChunkingIrrelevant(e: Exec, s: Settings, chunks: seq<Chunk>)
    requires Ready(e) && e.phase == RxWait && e.rx == []
    requires BeforeTimeout(e, s, chunks) && TellsLength(Stream(chunks))
    ensures Timeless(ListenAll(e, s, [], chunks)) == Outcome(e, Stream(chunks))
  {
    assert e.rx + Stream(chunks) == Stream(chunks);
    ChunksAccumulate(e, s, chunks);
  }

  lemma TwoChunkingsAgree(e: Exec, s: Settings, one: seq<Chunk>, other: seq<Chunk>)
    requires Ready(e) && e.phase == RxWait && e.rx == []
    requires BeforeTimeout(e, s, one) && BeforeTimeout(e, s, other)
    requires Stream(one) == Stream(other) && TellsLength(Stream(one))
    ensures Timeless(ListenAll(e, s, [], one)) == Timeless(ListenAll(e, s, [], other))
  {
    ChunkingIrrelevant(e, s, one);
    ChunkingIrrelevant(e, s, other);
  }

  // ----- Replies that do not tell their length are framed by silence -----

  predicate TellsNothing(stream: seq<byte>) {
    |stream| <= MAX_FRAME_SIZE && (|stream| >= 3 ==> ExpectedLength(stream) == 0)
  }

  // That is, up to the 300 bytes the buffer takes, everything but exceptions and functions 1-6, 15
  // and 16.
  lemma TellsNothingExactly(stream: seq<byte>)
    ensures TellsNothing(stream) <==>
            && |stream| <= 300
            && (|stream| >= 3 ==> stream[1] & 0x80 == 0 && !(1 <= stream[1] <= 6) && stream[1] != 15 && stream[1] != 16)
  {}

  // The bytes at the first poll that finds three or more of them and then silence.
  function SilenceFrame(s: Settings, rx: seq<byte>, lastRxAt: u32, chunks: seq<Chunk>): Option<seq<byte>>
    decreases |chunks|
  {
    if |chunks| == 0 then None
    else
      var c := chunks[0];
      var got := rx + c.bytes;
      var last := if |c.bytes| > 0 then c.now else lastRxAt;
      if |got| >= 3 && Elapsed(c.now, last, SilenceGap(s)) then Some(got) else SilenceFrame(s, got, last, chunks[1..])
  }

  function SilentOutcome(e: Exec, frame: Option<seq<byte>>, stream: seq<byte>): Exec
    requires e.lineIndex < |e.header.lines|
  {
    match frame
    case None => Timeless(e.(rx := stream))
    case Some(f) => Timeless(LineDone(e.(rx := f), 0))
  }

  lemma PollSilent(e: Exec, s: Settings, c: Chunk)
    requires Ready(e) && e.phase == RxWait && TellsNothing(e.rx + c.bytes)
    requires !Elapsed(c.now, e.txDoneAt, s.responseTimeout)
    ensures var p := Polled(e, s, c.bytes, c.now, c.later);
            var got := e.rx + c.bytes;
            var last := if |c.bytes| > 0 then c.now else e.lastRxAt;
            && p.uart == []
            && if |got| >= 3 && Elapsed(c.now, last, SilenceGap(s)) then
                 p.exec == LineDone(e.(rx := got, lastRxAt := last), c.later)
               else p.exec == e.(rx := got, lastRxAt := last)
  {
    hide LineDone, Elapsed, ExpectedLength, SilenceGap;
    assert Taken(e, c.bytes) == |c.bytes|;
    assert c.bytes[..|c.bytes|] == c.bytes && c.bytes[|c.bytes|..] == [];
    var got := e.rx + c.bytes;
    assert got[..|got|] == got;
  }

  lemma PrefixTellsNothing(part: seq<byte>, stream: seq<byte>)
    requires part <= stream && TellsNothing(stream)
    ensures TellsNothing(part)
  {}

  // The silence that ends a reply is at least 3.5 characters of 11 bits and at least 5 ms: it is the
  // first whole number of ms from 5 on that is more than 39 bit times and half a ms.
  lemma SilenceExactly(s: Settings)
    ensures SilenceGap(s) >= 5 && 2 * s.baud * SilenceGap(s) >= 77 * 1000
    ensures 2 * s.baud * SilenceGap(s) > 78 * 1000 + s.baud
    ensures SilenceGap(s) == 5 || 2 * s.baud * (SilenceGap(s) - 1) <= 78 * 1000 + s.baud
  {
    var bits := 39 * 1000 + s.baud / 2;
    QuotientBounds(bits, s.baud);
    if bits / s.baud + 1 < 5 {
      Scaled(s.baud, bits / s.baud + 1, 5);
    }
    Doubled(s.baud, SilenceGap(s));
    Doubled(s.baud, SilenceGap(s) - 1);
  }

  lemma Doubled(b: int, n: int)
    ensures 2 * b * n == 2 * (b * n)
  {}

  lemma QuotientBounds(x: int, b: int)
    requires b > 0
    ensures b * (x / b) <= x < b * (x / b + 1)
  {}

  lemma Scaled(b: int, m: int, n: int)
    requires b > 0 && m <= n
    ensures b * m <= b * n
  {}

  // The line ends with exactly that frame.
  lemma {:induction false} SilenceDecides(e: Exec, s: Settings, chunks: seq<Chunk>)
    requires Ready(e) && e.phase == RxWait && BeforeTimeout(e, s, chunks) && TellsNothing(e.rx + Stream(chunks))
    ensures Timeless(ListenAll(e, s, [], chunks))
            == SilentOutcome(e, SilenceFrame(s, e.rx, e.lastRxAt, chunks), e.rx + Stream(chunks))
    decreases |chunks|
  {
    hide LineDone, Elapsed, TellsNothing, SilenceGap, Ready, Polled;
    var whole := e.rx + Stream(chunks);
    if |chunks| == 0 {
      assert whole == e.rx;
    } else {
      var c := chunks[0];
      var got := e.rx + c.bytes;
      var last := if |c.bytes| > 0 then c.now else e.lastRxAt;
      assert [] + c.bytes == c.bytes;
      assert whole == got + Stream(chunks[1..]);
      PrefixTellsNothing(got, whole);
      PollSilent(e, s, c);
      StaysReady(e, s, c.bytes, c.now, c.later);
      var e1 := e.(rx := got, lastRxAt := last);
      IsReady(e);
      if |got| >= 3 && Elapsed(c.now, last, SilenceGap(s)) {
        LineDoneEnds(e1, c.later);
        LineDoneTimeless(e1, e.(rx := got), c.later, 0);
      } else {
        SilenceDecides(e1, s, chunks[1..]);
        var f := SilenceFrame(s, got, last, chunks[1..]);
        if f.Some? {
          LineDoneTimeless(e1.(rx := f.value), e.(rx := f.value), 0, 0);
        }
      }
    }
  }

  lemma IsReady(e: Exec)
    requires Ready(e) && e.phase == RxWait
    ensures e.lineIndex < |e.header.lines|
  {}

  // ----- When two splits agree -----

  // Why a frame is refused; None for a valid reply.
  function Refusal(frame: seq<byte>): Option<string> {
    if |frame| < 4 then Some("Response too short")
    else if !TrailerMatches(frame) then Some("Invalid CRC in response")
    else None
  }

  // The current line after it was ended by `frame`.
  lemma LineAfter(e: Exec, frame: seq<byte>, later: u32)
    requires e.lineIndex < |e.header.lines|
    ensures var lines := LineDone(e.(rx := frame), later).header.lines;
            && |lines| == |e.header.lines|
            && var line := e.header.lines[e.lineIndex];
               lines[e.lineIndex] == match Refusal(frame)
                                     case Some(message) => line.(error := message, modbus := None)
                                     case None => line.(modbus := Some(Encoded(frame)))
  {
    hide TrailerMatches, Encoded, Decoded;
  }

  lemma SameFrame(e: Exec, f: seq<byte>, g: seq<byte>)
    requires e.lineIndex < |e.header.lines|
    ensures |LineDone(e.(rx := f), 0).header.lines| == |LineDone(e.(rx := g), 0).header.lines| == |e.header.lines|
    ensures var one, other := LineDone(e.(rx := f), 0), LineDone(e.(rx := g), 0);
            && (Timeless(one) == Timeless(other) <==> f == g || (Refusal(f).Some? && Refusal(f) == Refusal(g)))
            && (Timeless(one) == Timeless(other) <==> one.header.lines[e.lineIndex] == other.header.lines[e.lineIndex])
  {
    hide TrailerMatches, NextLine, Encoded;
    LineAfter(e, f, 0);
    LineAfter(e, g, 0);
    DecodeEncode(f);
    DecodeEncode(g);
  }

  // Two splits of a reply that ends by silence agree exactly when silence cuts them at the same
  // byte, or when both cuts are refused for the same reason.
  lemma SilentSplitsAgree(e: Exec, s: Settings, one: seq<Chunk>, other: seq<Chunk>)
    requires Ready(e) && e.phase == RxWait && e.rx == []
    requires BeforeTimeout(e, s, one) && BeforeTimeout(e, s, other)
    requires Stream(one) == Stream(other) && TellsNothing(Stream(one))
    requires SilenceFrame(s, [], e.lastRxAt, one).Some? && SilenceFrame(s, [], e.lastRxAt, other).Some?
    ensures var f, g := SilenceFrame(s, [], e.lastRxAt, one).value, SilenceFrame(s, [], e.lastRxAt, other).value;
            Timeless(ListenAll(e, s, [], one)) == Timeless(ListenAll(e, s, [], other)) <==>
              f == g || (Refusal(f).Some? && Refusal(f) == Refusal(g))
  {
    hide LineDone, ListenAll, SilenceFrame, Refusal, TellsNothing;
    assert [] + Stream(one) == Stream(one);
    SilenceDecides(e, s, one);
    SilenceDecides(e, s, other);
    SameFrame(e, SilenceFrame(s, [], e.lastRxAt, one).value, SilenceFrame(s, [], e.lastRxAt, other).value);
  }

  // ----- Framing is independent of the split for exactly the replies that tell their length -----

  // `chunks` bring `stream`, before the timeout, and end the line.
  predicate Brings(e: Exec, s: Settings, stream: seq<byte>, chunks: seq<Chunk>)
    requires Ready(e)
  {
    BeforeTimeout(e, s, chunks) && Stream(chunks) == stream && ListenAll(e, s, [], chunks).phase != RxWait
  }

  predicate Agree(e: Exec, s: Settings, one: seq<Chunk>, other: seq<Chunk>)
    requires Ready(e)
  {
    Timeless(ListenAll(e, s, [], one)) == Timeless(ListenAll(e, s, [], other))
  }

  // The reply at once, then silence.
  function AtOnce(e: Exec, s: Settings, reply: seq<byte>): seq<Chunk> {
    var end := Add(e.txDoneAt, SilenceGap(s));
    [Chunk(reply, e.txDoneAt, e.txDoneAt), Chunk([], end, end)]
  }

  // Three bytes of it, silence, and the others only then.
  function CutShort(e: Exec, s: Settings, reply: seq<byte>): seq<Chunk>
    requires |reply| >= 3
  {
    AtOnce(e, s, reply[..3]) + [Chunk(reply[3..], Add(e.txDoneAt, SilenceGap(s)), 0)]
  }

  lemma AddThenSub(t: u32, d: u32)
    ensures Sub(Add(t, d), t) == d && Sub(t, t) == 0
  {
    assert Wrap(t) == t;
    WrapAdd(t, d);
    WrapSub(t + d, t);
  }

  lemma SilenceCuts(e: Exec, s: Settings, part: seq<byte>, more: seq<Chunk>)
    requires |part| >= 3
    ensures SilenceFrame(s, [], e.lastRxAt, AtOnce(e, s, part) + more) == Some(part)
  {
    AddThenSub(e.txDoneAt, SilenceGap(s));
    var end := Add(e.txDoneAt, SilenceGap(s));
    var chunks := AtOnce(e, s, part) + more;
    assert chunks[0] == Chunk(part, e.txDoneAt, e.txDoneAt) && chunks[1..][0] == Chunk([], end, end);
    assert [] + part == part && part + [] == part;
  }

  lemma StreamOfTwo(a: Chunk, b: Chunk)
    ensures Stream([a, b]) == a.bytes + b.bytes
  {
    assert [a, b][1..] == [b] && [b][1..] == [];
    assert Stream([b]) == b.bytes + [] == b.bytes;
  }

  lemma StreamOfThree(a: Chunk, b: Chunk, c: Chunk)
    ensures Stream([a, b, c]) == a.bytes + b.bytes + c.bytes
  {
    assert [a, b, c][1..] == [b, c];
    StreamOfTwo(b, c);
  }

  // For every valid reply that does not tell its length the split does matter: at once it is the
  // answer, with a pause after its third byte it is an error.
  lemma SplitMatters(e: Exec, s: Settings, reply: seq<byte>)
    requires Ready(e) && e.phase == RxWait && e.rx == [] && SilenceGap(s) < s.responseTimeout
    requires ValidReply(reply) && TellsNothing(reply)
    ensures var one, other := AtOnce(e, s, reply), CutShort(e, s, reply);
            && Brings(e, s, reply, one) && Brings(e, s, reply, other) && !Agree(e, s, one, other)
            && var line := e.header.lines[e.lineIndex];
               && |ListenAll(e, s, [], one).header.lines| == |e.header.lines|
               && |ListenAll(e, s, [], other).header.lines| == |e.header.lines|
               && ListenAll(e, s, [], one).header.lines[e.lineIndex] == line.(modbus := Some(Encoded(reply)))
               && ListenAll(e, s, [], other).header.lines[e.lineIndex]
                  == line.(error := "Response too short", modbus := None)
  {
    hide LineDone, ListenAll, SilenceFrame, TrailerMatches, SilenceGap, ExpectedLength, Encoded;
    var one, other := AtOnce(e, s, reply), CutShort(e, s, reply);
    var end := Add(e.txDoneAt, SilenceGap(s));
    AddThenSub(e.txDoneAt, SilenceGap(s));
    StreamOfTwo(one[0], one[1]);
    StreamOfThree(other[0], other[1], other[2]);
    assert other == [other[0], other[1], other[2]];
    assert one + [] == one;
    assert reply[..3] + reply[3..] == reply;
    assert Stream(one) == reply && Stream(other) == reply;
    assert e.rx + Stream(one) == reply && e.rx + Stream(other) == reply;
    SilenceCuts(e, s, reply, []);
    SilenceCuts(e, s, reply[..3], [Chunk(reply[3..], end, 0)]);
    SilenceDecides(e, s, one);
    SilenceDecides(e, s, other);
    LineAfter(e, reply, 0);
    LineAfter(e, reply[..3], 0);
    LineDoneEnds(e.(rx := reply), 0);
    LineDoneEnds(e.(rx := reply[..3]), 0);
  }

  // So the outcome is the same for all splits that end the line exactly when the reply tells its
  // length.
  lemma FramingExact(e: Exec, s: Settings, reply: seq<byte>)
    requires Ready(e) && e.phase == RxWait && e.rx == [] && SilenceGap(s) < s.responseTimeout
    requires ValidReply(reply) && |reply| <= MAX_FRAME_SIZE
    ensures (forall one, other :: Brings(e, s, reply, one) && Brings(e, s, reply, other) ==> Agree(e, s, one, other))
            <==> TellsLength(reply)
  {
    hide ListenAll, Timeless, SilenceGap, TrailerMatches;
    if TellsLength(reply) {
      forall one, other | Brings(e, s, reply, one) && Brings(e, s, reply, other) ensures Agree(e, s, one, other) {
        TwoChunkingsAgree(e, s, one, other);
      }
    } else {
      SplitMatters(e, s, reply);
    }
  }

  // ----- In the lengths of the standard -----

  // As long as its function calls for: an exception 5 bytes, a read 5 and its byte count, a write 8.
  predicate FullLength(reply: seq<byte>) {
    && |reply| >= 5
    && if reply[1] & 0x80 != 0 then |reply| == 5
       else if 1 <= reply[1] <= 4 then |reply| == 5 + reply[2] as int
       else reply[1] in {5, 6, 15, 16} && |reply| == 8
  }

  lemma LengthExpected(reply: seq<byte>, stream: seq<byte>)
    requires FullLength(reply) && |stream| >= 3 && (reply <= stream || stream <= reply)
    ensures ExpectedLength(stream) == |reply|
  {
    assert stream[1] == reply[1] && stream[2] == reply[2];
  }

  // The line ends with such a reply, however its bytes are split before the timeout and whatever
  // follows them: the reply itself becomes the answer, or is refused for its CRC.
  lemma ReplyIsTaken(e: Exec, s: Settings, chunks: seq<Chunk>, reply: seq<byte>)
    requires Ready(e) && e.phase == RxWait && e.rx == [] && BeforeTimeout(e, s, chunks)
    requires FullLength(reply) && reply <= Stream(chunks)
    ensures var e', k := ListenAll(e, s, [], chunks), e.lineIndex;
            && e'.phase in {Gap, Done} && |e'.header.lines| == |e.header.lines|
            && e'.header.lines[k] ==
               if TrailerMatches(reply) then e.header.lines[k].(modbus := Some(Encoded(reply)))
               else e.header.lines[k].(error := "Invalid CRC in response", modbus := None)
  {
    hide LineDone, ListenAll, TrailerMatches, Encoded;
    var stream := Stream(chunks);
    LengthExpected(reply, stream);
    assert stream[..|reply|] == reply;
    ChunkingIrrelevant(e, s, chunks);
    LineAfter(e, reply, 0);
    LineDoneEnds(e.(rx := reply), 0);
  }

  // ... and it does not end before the last byte of it is in.
  lemma ReplyIsAwaited(e: Exec, s: Settings, chunks: seq<Chunk>, reply: seq<byte>)
    requires Ready(e) && e.phase == RxWait && e.rx == [] && BeforeTimeout(e, s, chunks)
    requires FullLength(reply) && Stream(chunks) < reply
    ensures var e' := ListenAll(e, s, [], chunks);
            e'.phase == RxWait && e'.rx == Stream(chunks) && e'.header == e.header && e'.lineIndex == e.lineIndex
  {
    hide LineDone, ListenAll;
    if |Stream(chunks)| >= 3 {
      LengthExpected(reply, Stream(chunks));
    }
    ChunkingIrrelevant(e, s, chunks);
  }

  // A reply that is not complete times out at the first poll responseTimeout or more after the frame
  // left, and not before; the line and all later ones then go without an answer.
  lemma OverdueReply(e: Exec, s: Settings, bytes: seq<byte>, reply: seq<byte>, sent: nat, gate: nat, later: u32)
    requires Ready(e) && e.phase == RxWait && FullLength(reply) && e.rx + bytes < reply
    requires e.txDoneAt == Wrap(sent) && sent <= gate < sent + 0x1_0000_0000
    ensures var p, k := Polled(e, s, bytes, Wrap(gate), later), e.lineIndex;
            if gate - sent < s.responseTimeout then
              p.exec.phase == RxWait && p.exec.rx == e.rx + bytes && p.exec.header == e.header && p.event == Quiet
            else
              && p.exec.phase == Done && p.event == LineFailed && |p.exec.header.lines| == |e.header.lines|
              && p.exec.header.lines[k] == e.header.lines[k].(error := "Response timeout", modbus := None)
              && forall i :: 0 <= i < |e.header.lines| && i != k ==>
                   p.exec.header.lines[i] == if i < k then e.header.lines[i] else e.header.lines[i].(modbus := None)
  {
    hide LineDone, ExpectedLength;
    var got := e.rx + bytes;
    assert |reply| <= 260;
    if |got| >= 3 {
      LengthExpected(reply, got);
    }
    assert bytes[..|bytes|] == bytes;
    WrapSub(gate, sent);
  }
}
