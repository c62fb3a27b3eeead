// The shape of a batch at every moment: which lines are answered, which are still the request's,
// and what a finished batch looks like.

module Batches {

  import opened Options
  import opened Clock
  import opened Crc
  import opened Hex
  import opened Protocol
  import opened Executor

  // The lines as requested, and the CRC-valid reply each executed line has got so far.
  datatype Batch = Batch(request: seq<Line>, answers: map<nat, seq<byte>>)

  predicate AnsweredBy(request: Line, frame: seq<byte>, line: Line) {
    ValidReply(frame) && line == request.(modbus := Some(Encoded(frame)))
  }

  // Lines before n are answered, or carried no frame and are untouched.
  ghost predicate DoneUpTo(b: Batch, lines: seq<Line>, n: nat) {
    && |lines| == |b.request| && n <= |lines|
    && (forall i: nat :: i in b.answers <==> i < n && b.request[i].HasPayload())
    && forall i: nat :: i < n ==>
         if b.request[i].HasPayload() then AnsweredBy(b.request[i], b.answers[i], lines[i])
         else lines[i] == b.request[i]
  }

  ghost predicate UntouchedFrom(b: Batch, lines: seq<Line>, n: nat) {
    |lines| == |b.request| && forall i :: n <= i < |lines| ==> lines[i] == b.request[i]
  }

  predicate IsFailure(message: string) {
    || message == "Response timeout"
    || message == "Invalid CRC in response"
    || message == "Response too short"
    || message == "Invalid Modbus hex string"
  }

  ghost predicate StoppedAt(b: Batch, lines: seq<Line>, k: nat) {
    && k < |b.request| && b.request[k].HasPayload()
    && DoneUpTo(b, lines, k)
    && IsFailure(lines[k].error) && lines[k] == b.request[k].(error := lines[k].error, modbus := None)
    && forall i :: k < i < |lines| ==> lines[i] == b.request[i].(modbus := None)
  }

  ghost predicate IsResult(b: Batch, lines: seq<Line>) {
    DoneUpTo(b, lines, |b.request|) || exists k: nat :: StoppedAt(b, lines, k)
  }

  ghost predicate Shape(b: Batch, e: Exec) {
    && Ready(e)
    && (Busy(e) ==>
          && DoneUpTo(b, e.header.lines, e.lineIndex)
          && UntouchedFrom(b, e.header.lines, e.lineIndex)
          && b.request[e.lineIndex].HasPayload()
          && Decoded(b.request[e.lineIndex].modbus.value) == Some(e.tx))
    && (e.phase == Done ==> IsResult(b, e.header.lines))
  }

  // The batch history after a poll that did `event` in state e.
  function Heard(b: Batch, e: Exec, event: BusEvent): Batch {
    if event.Replied? then b.(answers := b.answers[e.lineIndex := event.frame]) else b
  }

  predicate SameHeader(h: Header, g: Header) { g == h.(lines := g.lines) }

  // ----- Every step keeps the shape -----

  lemma FailedShape(b: Batch, e: Exec, message: string, later: u32)
    requires e.lineIndex < |e.header.lines| && IsFailure(message)
    requires DoneUpTo(b, e.header.lines, e.lineIndex) && UntouchedFrom(b, e.header.lines, e.lineIndex)
    requires b.request[e.lineIndex].HasPayload()
    ensures Shape(b, Failed(e, message, later)) && SameHeader(e.header, Failed(e, message, later).header)
  {
    hide AnsweredBy, IsFailure;
    var lines := Failed(e, message, later).header.lines;
    assert StoppedAt(b, lines, e.lineIndex);
  }

  lemma NextLineShape(b: Batch, e: Exec, later: u32)
    requires e.lineIndex <= |e.header.lines| && |e.rx| <= MAX_FRAME_SIZE
    requires DoneUpTo(b, e.header.lines, e.lineIndex) && UntouchedFrom(b, e.header.lines, e.lineIndex)
    ensures Shape(b, NextLine(e, later)) && SameHeader(e.header, NextLine(e, later).header)
  {
    hide AnsweredBy, SkipFrom;
    var i := SkipFrom(e.header.lines, e.lineIndex);
    var e1 := e.(lineIndex := i);
    assert DoneUpTo(b, e.header.lines, i) by {
      assert forall j: nat :: e.lineIndex <= j < i ==> e.header.lines[j] == b.request[j];
    }
    assert UntouchedFrom(b, e.header.lines, i);
    if i < |e.header.lines| {
      FailedShape(b, e1, "Invalid Modbus hex string", later);
    }
  }

  lemma StartedShape(e: Exec, header: Header, later: u32)
    requires |e.rx| <= MAX_FRAME_SIZE
    ensures Shape(Batch(header.lines, map[]), Started(e, header, later))
    ensures SameHeader(header, Started(e, header, later).header)
  {
    NextLineShape(Batch(header.lines, map[]), e.(header := header, lineIndex := 0, phase := Gap), later);
  }

  lemma AnsweredShape(b: Batch, e: Exec, later: u32)
    requires e.lineIndex < |e.header.lines| && ValidReply(e.rx) && |e.rx| <= MAX_FRAME_SIZE
    requires DoneUpTo(b, e.header.lines, e.lineIndex) && UntouchedFrom(b, e.header.lines, e.lineIndex)
    requires b.request[e.lineIndex].HasPayload()
    ensures Shape(b.(answers := b.answers[e.lineIndex := e.rx]), Answered(e, later))
    ensures SameHeader(e.header, Answered(e, later).header)
  {
    hide NextLine, ValidReply;
    var k := e.lineIndex;
    var lines := e.header.lines;
    var lines' := lines[k := lines[k].(modbus := Some(Encoded(e.rx)))];
    var b' := b.(answers := b.answers[k := e.rx]);
    var e1 := e.(header := e.header.(lines := lines'), gapUntil := Add(later, e.nextGap), lineIndex := k + 1);
    assert DoneUpTo(b', lines', k + 1);
    assert UntouchedFrom(b', lines', k + 1);
    NextLineShape(b', e1, later);
  }

  lemma ListenedShape(b: Batch, e: Exec, s: Settings, uart: seq<byte>, now: u32, later: u32)
    requires Shape(b, e) && e.phase == RxWait
    ensures Shape(Heard(b, e, ReplyEvent(e, s, uart, now)), Listened(e, s, uart, now, later))
    ensures SameHeader(e.header, Listened(e, s, uart, now, later).header)
  {
    hide Failed, Answered, FrameEnd, TrailerMatches, DoneUpTo, UntouchedFrom, IsResult, Elapsed, Decoded;
    var e1 := Received(e, uart, now);
    match FrameEnd(e1, s, now)
    case Some(n) =>
      var e2 := e1.(rx := e1.rx[..n]);
      if |e2.rx| < 4 {
        FailedShape(b, e2, "Response too short", later);
      } else if !TrailerMatches(e2.rx) {
        FailedShape(b, e2, "Invalid CRC in response", later);
      } else {
        AnsweredShape(b, e2, later);
      }
    case None =>
      FailedShape(b, e1, "Response timeout", later);
  }

  lemma PolledShape(b: Batch, e: Exec, s: Settings, uart: seq<byte>, now: u32, later: u32)
    requires Shape(b, e)
    ensures var p := Polled(e, s, uart, now, later);
            Shape(Heard(b, e, p.event), p.exec) && SameHeader(e.header, p.exec.header)
  {
    hide Listened, Reached, DoneUpTo, UntouchedFrom, IsResult, Decoded, ReplyEvent;
    if e.phase == RxWait {
      ListenedShape(b, e, s, uart, now, later);
    }
  }

  // ----- Which line is next -----

  // Line i is the next one with a frame: it waits for the bus with exactly that frame, or, when its
  // text is no frame, ends the batch without an answer from there on.
  predicate TakesUp(lines: seq<Line>, i: nat, e: Exec) {
    && i < |lines| && lines[i].modbus.Some?
    && var frame := Decoded(lines[i].modbus.value);
       if frame.Some? && |frame.value| >= 4 then
         e.phase == Gap && e.lineIndex == i && e.tx == frame.value && e.header.lines == lines
       else
         && e.phase == Done && |e.header.lines| == |lines|
         && e.header.lines[i] == lines[i].(error := "Invalid Modbus hex string", modbus := None)
         && forall j :: 0 <= j < |lines| && j != i ==>
              e.header.lines[j] == if j < i then lines[j] else lines[j].(modbus := None)
  }

  lemma NextFrame(e: Exec, later: u32, i: nat)
    requires e.lineIndex <= i < |e.header.lines| && e.header.lines[i].modbus !in {None, Some("")}
    requires forall j :: e.lineIndex <= j < i ==> e.header.lines[j].modbus in {None, Some("")}
    ensures TakesUp(e.header.lines, i, NextLine(e, later))
  {
    hide Decoded;
    var k := SkipFrom(e.header.lines, e.lineIndex);
    assert forall j :: e.lineIndex <= j < i ==> !e.header.lines[j].HasPayload();
    assert e.header.lines[i].HasPayload();
    assert k == i;
  }

  lemma NoFrame(e: Exec, later: u32)
    requires e.lineIndex <= |e.header.lines|
    requires forall j :: e.lineIndex <= j < |e.header.lines| ==> e.header.lines[j].modbus in {None, Some("")}
    ensures NextLine(e, later).phase == Done && NextLine(e, later).header == e.header
  {
    assert forall j :: e.lineIndex <= j < |e.header.lines| ==> !e.header.lines[j].HasPayload();
    assert SkipFrom(e.header.lines, e.lineIndex) == |e.header.lines|;
  }

  // A batch begins with its first line that carries a frame; without one it is done at once, and the
  // lines come back as they were.
  lemma BeginsWith(e: Exec, header: Header, later: u32, i: nat)
    requires i <= |header.lines| && forall j :: 0 <= j < i ==> header.lines[j].modbus in {None, Some("")}
    requires i < |header.lines| ==> header.lines[i].modbus !in {None, Some("")}
    ensures var e' := Started(e, header, later);
            if i < |header.lines| then TakesUp(header.lines, i, e') else e'.phase == Done && e'.header == header
  {
    hide NextLine, TakesUp;
    var e1 := e.(header := header, lineIndex := 0, phase := Gap);
    if i < |header.lines| { NextFrame(e1, later, i); } else { NoFrame(e1, later); }
  }

  // After an answer the batch goes on with the next line that carries a frame.
  lemma GoesOnWith(e: Exec, later: u32, i: nat)
    requires ValidReply(e.rx) && e.lineIndex < i <= |e.header.lines|
    requires forall j :: e.lineIndex < j < i ==> e.header.lines[j].modbus in {None, Some("")}
    requires i < |e.header.lines| ==> e.header.lines[i].modbus !in {None, Some("")}
    ensures var k, e' := e.lineIndex, LineDone(e, later);
            var lines := e.header.lines[k := e.header.lines[k].(modbus := Some(Encoded(e.rx)))];
            if i < |lines| then TakesUp(lines, i, e') else e'.phase == Done && e'.header.lines == lines
  {
    hide NextLine, TakesUp, TrailerMatches;
    var k := e.lineIndex;
    var lines := e.header.lines[k := e.header.lines[k].(modbus := Some(Encoded(e.rx)))];
    var e1 := e.(header := e.header.(lines := lines), gapUntil := Add(later, e.nextGap), lineIndex := k + 1);
    if i < |lines| { NextFrame(e1, later, i); } else { NoFrame(e1, later); }
  }

  // ----- What the shape means -----

  // A batch never adds, drops or renames a line.
  lemma IdentityKept(b: Batch, e: Exec)
    requires Shape(b, e) && (Busy(e) || e.phase == Done)
    ensures var lines := e.header.lines;
            && |lines| == |b.request|
            && forall i :: 0 <= i < |lines| ==>
                 && lines[i].lineNo == b.request[i].lineNo && lines[i].tag == b.request[i].tag
                 && lines[i].timestamp == b.request[i].timestamp
  {
    hide Decoded;
    if e.phase == Done && !DoneUpTo(b, e.header.lines, |b.request|) {
      var k: nat :| StoppedAt(b, e.header.lines, k);
    }
  }

  // The manager's verdict on a finished run: some line without error carries a frame.
  predicate Delivered(lines: seq<Line>) {
    exists i :: 0 <= i < |lines| && lines[i].error == "" && lines[i].HasPayload()
  }

  // ... says yes exactly when a line whose request carried no error of its own was answered.
  lemma VerdictExact(b: Batch, lines: seq<Line>)
    requires IsResult(b, lines)
    ensures Delivered(lines) <==> exists i :: i in b.answers && i < |b.request| && b.request[i].error == ""
  {
    hide ValidReply, Encoded;
    var n := if DoneUpTo(b, lines, |b.request|) then |b.request| else
      var k: nat :| StoppedAt(b, lines, k); k;
    assert DoneUpTo(b, lines, n);
    if Delivered(lines) {
      var i :| 0 <= i < |lines| && lines[i].error == "" && lines[i].HasPayload();
      assert i < n;
      assert i in b.answers;
    }
    if i :| i in b.answers && i < |b.request| && b.request[i].error == "" {
      assert AnsweredBy(b.request[i], b.answers[i], lines[i]);
      EncodedNonEmpty(b.answers[i]);
    }
  }

  lemma EncodedNonEmpty(frame: seq<byte>)
    requires ValidReply(frame)
    ensures Encoded(frame) != ""
  {}

  // So it never says yes without a CRC-valid reply of this very run, and when no request line
  // carried an error it says yes whenever there was one.
  lemma VerdictSound(b: Batch, lines: seq<Line>)
    requires IsResult(b, lines)
    ensures Delivered(lines) ==> b.answers != map[]
    ensures (forall i :: 0 <= i < |b.request| ==> b.request[i].error == "") ==>
              (Delivered(lines) <==> b.answers != map[])
    ensures forall i :: i in b.answers ==> ValidReply(b.answers[i])
  {
    VerdictExact(b, lines);
    if b.answers != map[] {
      var i :| i in b.answers;
      if !DoneUpTo(b, lines, |b.request|) {
        var k: nat :| StoppedAt(b, lines, k);
        assert i < k;
      }
    }
    forall i | i in b.answers ensures ValidReply(b.answers[i]) {
      if DoneUpTo(b, lines, |b.request|) {
        assert AnsweredBy(b.request[i], b.answers[i], lines[i]);
      } else {
        var k: nat :| StoppedAt(b, lines, k);
        assert AnsweredBy(b.request[i], b.answers[i], lines[i]);
      }
    }
  }

  // In particular never when every answered line carried an error text of its own: such a set is
  // answered, not called delivered, and stays stored.
  lemma PresetErrorBlocks(b: Batch, lines: seq<Line>)
    requires IsResult(b, lines)
    requires forall i :: i in b.answers && i < |b.request| ==> b.request[i].error != ""
    ensures !Delivered(lines)
  {
    hide IsResult, Delivered;
    VerdictExact(b, lines);
  }
}
