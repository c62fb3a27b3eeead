// The non-blocking RTU master: what each of its calls does, and the class that does it.
// millis() is passed in: `now` is the reading a call starts from, `later` its last reading.

module Executor {

  import opened Options
  import opened Clock
  import opened Crc
  import opened Hex
  import opened Protocol

  const MAX_FRAME_SIZE := 300

  type Baud = x: u32 | x > 0 witness 1

  datatype Settings = Settings(responseTimeout: u32, readGap: u32, writeGap: u32, baud: Baud)

  // TRANSMIT is left out: the firmware never rests in it.
  datatype Phase = Idle | Gap | RxWait | Done

  datatype Exec = Exec(phase: Phase, header: Header, lineIndex: nat, tx: seq<byte>, rx: seq<byte>,
                       gapUntil: u32, txDoneAt: u32, lastRxAt: u32, nextGap: u32, errors: u32)

  const FRESH := Exec(Idle, EMPTY_HEADER, 0, [], [], 0, 0, 0, 0, 0)

  predicate Busy(e: Exec) { e.phase == Gap || e.phase == RxWait }

  // Between calls a running batch points at a line with a decoded frame.
  predicate Ready(e: Exec) {
    |e.rx| <= MAX_FRAME_SIZE && (Busy(e) ==> e.lineIndex < |e.header.lines| && |e.tx| >= 4)
  }

  // ----- Running through the lines -----

  function SkipFrom(lines: seq<Line>, i: nat): (r: nat)
    requires i <= |lines|
    ensures i <= r <= |lines|
    ensures forall j :: i <= j < r ==> !lines[j].HasPayload()
    ensures r < |lines| ==> lines[r].HasPayload()
    decreases |lines| - i
  {
    if i == |lines| || lines[i].HasPayload() then i else SkipFrom(lines, i + 1)
  }

  // The failing line gets its error; it and every later line lose their frame.
  function FailedLines(lines: seq<Line>, k: nat, message: string): (r: seq<Line>)
    requires k < |lines|
    ensures |r| == |lines|
    ensures r[k] == lines[k].(error := message, modbus := None)
    ensures forall i :: 0 <= i < |lines| && i != k ==>
                          r[i] == if i < k then lines[i] else lines[i].(modbus := None)
  {
    seq(|lines|, i requires 0 <= i < |lines| =>
      if i < k then lines[i]
      else if i == k then lines[i].(error := message, modbus := None)
      else lines[i].(modbus := None))
  }

  function Finished(e: Exec): Exec { e.(phase := Done, tx := [], rx := []) }

  function Failed(e: Exec, message: string, later: u32): Exec
    requires e.lineIndex < |e.header.lines|
  {
    Finished(e.(errors := Add(e.errors, 1),
                header := e.header.(lines := FailedLines(e.header.lines, e.lineIndex, message)),
                gapUntil := Add(later, e.nextGap)))
  }

  function NextLine(e: Exec, later: u32): Exec
    requires e.lineIndex <= |e.header.lines|
  {
    var e1 := e.(lineIndex := SkipFrom(e.header.lines, e.lineIndex));
    if e1.lineIndex == |e.header.lines| then Finished(e1)
    else
      match Decoded(e.header.lines[e1.lineIndex].modbus.value)
      case Some(frame) =>
        if |frame| >= 4 then e1.(tx := frame, phase := Gap)
        else Failed(e1, "Invalid Modbus hex string", later)
      case None => Failed(e1, "Invalid Modbus hex string", later)
  }

  function Started(e: Exec, header: Header, later: u32): Exec {
    NextLine(e.(header := header, lineIndex := 0, phase := Gap), later)
  }

  // ----- One frame out, one frame in -----

  // GbbConnect2's rule: from function 5 on it is a write, except 23.
  function GapAfter(s: Settings, tx: seq<byte>): u32
    requires |tx| >= 2
  {
    if tx[1] >= 5 && tx[1] != 23 then s.writeGap else s.readGap
  }

  function Transmitted(e: Exec, s: Settings, later: u32): Exec
    requires |e.tx| >= 2
  {
    e.(nextGap := GapAfter(s, e.tx), rx := [], txDoneAt := later, lastRxAt := later, phase := RxWait)
  }

  // 3.5 characters of 11 bits, in ms, at least 5.
  function SilenceGap(s: Settings): u32 {
    var t35 := (39 * 1000 + s.baud / 2) / s.baud + 1;
    if t35 < 5 then 5 else t35
  }

  // The length of the reply that starts with rx; 0 when its function does not tell.
  function ExpectedLength(rx: seq<byte>): (n: nat)
    requires |rx| >= 3
    ensures n <= 260 && (n == 0 || n >= 5)
  {
    if rx[1] & 0x80 != 0 then 5
    else if 1 <= rx[1] <= 4 then 3 + (rx[2] as int) + 2
    else if rx[1] == 5 || rx[1] == 6 || rx[1] == 0x0F || rx[1] == 0x10 then 8
    else 0
  }

  function Answered(e: Exec, later: u32): Exec
    requires e.lineIndex < |e.header.lines|
  {
    var lines := e.header.lines;
    var line := lines[e.lineIndex].(modbus := Some(Encoded(e.rx)));
    NextLine(e.(header := e.header.(lines := lines[e.lineIndex := line]),
                gapUntil := Add(later, e.nextGap), lineIndex := e.lineIndex + 1), later)
  }

  predicate ValidReply(frame: seq<byte>) { |frame| >= 4 && TrailerMatches(frame) }

  function LineDone(e: Exec, later: u32): Exec
    requires e.lineIndex < |e.header.lines|
  {
    if |e.rx| < 4 then Failed(e, "Response too short", later)
    else if !TrailerMatches(e.rx) then Failed(e, "Invalid CRC in response", later)
    else Answered(e, later)
  }

  function Min(a: int, b: int): int { if a < b then a else b }

  function Taken(e: Exec, uart: seq<byte>): nat {
    if |e.rx| < MAX_FRAME_SIZE then Min(|uart|, MAX_FRAME_SIZE - |e.rx|) else 0
  }

  function Received(e: Exec, uart: seq<byte>, now: u32): Exec {
    var n := Taken(e, uart);
    e.(rx := e.rx + uart[..n], lastRxAt := if n > 0 then now else e.lastRxAt)
  }

  // Whether the bytes so far end the reply, and how many of them are the frame.
  function FrameEnd(e: Exec, s: Settings, now: u32): (r: Option<nat>)
    ensures r.Some? ==> r.value <= |e.rx|
  {
    if |e.rx| < 3 then None
    else
      var expected := ExpectedLength(e.rx);
      if expected > 0 then (if |e.rx| >= expected then Some(expected) else None)
      else if Elapsed(now, e.lastRxAt, SilenceGap(s)) then Some(|e.rx|)
      else None
  }

  function Listened(e: Exec, s: Settings, uart: seq<byte>, now: u32, later: u32): Exec
    requires e.lineIndex < |e.header.lines|
  {
    var e1 := Received(e, uart, now);
    match FrameEnd(e1, s, now)
    case Some(n) => LineDone(e1.(rx := e1.rx[..n]), later)
    case None =>
      if Elapsed(now, e.txDoneAt, s.responseTimeout) then Failed(e1, "Response timeout", later) else e1
  }

  // ----- One poll -----

  // What a poll did on the bus, for those who watch it.
  datatype BusEvent = Quiet | Sent(frame: seq<byte>) | Replied(frame: seq<byte>) | LineFailed

  datatype PollResult = PollResult(exec: Exec, uart: seq<byte>, event: BusEvent)

  function ReplyEvent(e: Exec, s: Settings, uart: seq<byte>, now: u32): BusEvent {
    var e1 := Received(e, uart, now);
    match FrameEnd(e1, s, now)
    case Some(n) => if ValidReply(e1.rx[..n]) then Replied(e1.rx[..n]) else LineFailed
    case None => if Elapsed(now, e.txDoneAt, s.responseTimeout) then LineFailed else Quiet
  }

  function Polled(e: Exec, s: Settings, uart: seq<byte>, now: u32, later: u32): PollResult
    requires Ready(e)
  {
    match e.phase
    case Idle => PollResult(e, uart, Quiet)
    case Done => PollResult(e, uart, Quiet)
    case Gap =>
      if Reached(now, e.gapUntil) then PollResult(Transmitted(e, s, later), [], Sent(e.tx))
      else PollResult(e, uart, Quiet)
    case RxWait =>
      PollResult(Listened(e, s, uart, now, later), uart[Taken(e, uart)..], ReplyEvent(e, s, uart, now))
  }

  lemma NextLineReady(e: Exec, later: u32)
    requires e.lineIndex <= |e.header.lines| && |e.rx| <= MAX_FRAME_SIZE
    ensures Ready(NextLine(e, later)) && NextLine(e, later).phase in {Gap, Done}
  {}

  lemma ListenedReady(e: Exec, s: Settings, uart: seq<byte>, now: u32, later: u32)
    requires e.lineIndex < |e.header.lines| && Ready(e) && e.phase == RxWait
    ensures Ready(Listened(e, s, uart, now, later))
  {
    hide NextLine, ExpectedLength, SilenceGap, TrailerMatches, Elapsed;
    var e1 := Received(e, uart, now);
    if FrameEnd(e1, s, now).Some? {
      var e2 := e1.(rx := e1.rx[..FrameEnd(e1, s, now).value]);
      if ValidReply(e2.rx) {
        var lines := e2.header.lines;
        var line := lines[e2.lineIndex].(modbus := Some(Encoded(e2.rx)));
        NextLineReady(e2.(header := e2.header.(lines := lines[e2.lineIndex := line]),
                          gapUntil := Add(later, e2.nextGap), lineIndex := e2.lineIndex + 1), later);
      }
    }
  }

  lemma StaysReady(e: Exec, s: Settings, uart: seq<byte>, now: u32, later: u32)
    requires Ready(e)
    ensures Ready(Polled(e, s, uart, now, later).exec)
  {
    hide Listened, Reached;
    if e.phase == RxWait {
      ListenedReady(e, s, uart, now, later);
    }
  }

  // ----- The class -----

  class Uart {
    var rx: seq<byte>        // received and not yet read
    var sent: seq<seq<byte>> // every frame written

    constructor ()
      ensures rx == [] && sent == []
    {
      rx, sent := [], [];
    }

    predicate Available()
      reads this
    {
      |rx| > 0
    }

    method ReadByte() returns (b: byte)
      requires Available()
      modifies this`rx
      ensures b == old(rx)[0] && rx == old(rx)[1..]
    {
      b := rx[0];
      rx := rx[1..];
    }

    method WriteArray(frame: seq<byte>)
      modifies this`sent
      ensures sent == old(sent) + [frame]
    {
      sent := sent + [frame];
    }
  }

  class ModbusExecutor {
    const uart: Uart
    const settings: Settings
    var phase: Phase
    var header: Header
    var lineIndex: nat
    var tx: seq<byte>
    var rx: seq<byte>
    var gapUntil: u32
    var txDoneAt: u32
    var lastRxAt: u32
    var nextGap: u32
    var errors: u32

    ghost function View(): Exec
      reads this
    {
      Exec(phase, header, lineIndex, tx, rx, gapUntil, txDoneAt, lastRxAt, nextGap, errors)
    }

    constructor (uart: Uart, settings: Settings)
      ensures View() == FRESH && this.uart == uart && this.settings == settings
    {
      this.uart, this.settings := uart, settings;
      phase, header, lineIndex, tx, rx := Idle, EMPTY_HEADER, 0, [], [];
      gapUntil, txDoneAt, lastRxAt, nextGap, errors := 0, 0, 0, 0, 0;
    }

    method Start(header: Header, later: u32)
      modifies this
      ensures View() == Started(old(View()), header, later)
    {
      this.header := header;
      lineIndex := 0;
      phase := Gap;
      StartNextLine(later);
    }

    method TakeResult() returns (header: Header)
      modifies this`phase
      ensures View() == old(View()).(phase := Idle) && header == this.header
    {
      phase := Idle;
      header := this.header;
    }

    method StartNextLine(later: u32)
      requires lineIndex <= |header.lines|
      modifies this
      ensures View() == NextLine(old(View()), later)
    {
      while lineIndex < |header.lines|
            && (header.lines[lineIndex].modbus.None? || header.lines[lineIndex].modbus.value == "")
        invariant lineIndex <= |header.lines|
        invariant View() == old(View()).(lineIndex := lineIndex)
        invariant SkipFrom(header.lines, old(lineIndex)) == SkipFrom(header.lines, lineIndex)
        decreases |header.lines| - lineIndex
      {
        lineIndex := lineIndex + 1;
      }
      if lineIndex >= |header.lines| {
        FinishAll();
        return;
      }
      var frame := HexToBytes(header.lines[lineIndex].modbus.value);
      if frame.None? || |frame.value| < 4 {
        FailLine("Invalid Modbus hex string", later);
        return;
      }
      tx := frame.value;
      phase := Gap;
    }

    method FinishAll()
      modifies this
      ensures View() == Finished(old(View()))
    {
      tx := [];
      rx := [];
      phase := Done;
    }

    method FailLine(message: string, later: u32)
      requires lineIndex < |header.lines|
      modifies this
      ensures View() == Failed(old(View()), message, later)
    {
      errors := Add(errors, 1);
      ghost var was := header.lines;
      header := header.(lines := header.lines[lineIndex := header.lines[lineIndex].(error := message)]);
      var i := lineIndex;
      while i < |header.lines|
        invariant lineIndex <= i <= |header.lines| == |was|
        invariant header == old(header).(lines := header.lines) && errors == Add(old(errors), 1)
        invariant View() == old(View()).(errors := errors, header := header)
        invariant forall j :: 0 <= j < lineIndex ==> header.lines[j] == was[j]
        invariant forall j :: lineIndex <= j < |was| ==>
          header.lines[j] == was[j].(modbus := if j < i then None else was[j].modbus,
                                     error := if j == lineIndex then message else was[j].error)
        decreases |header.lines| - i
      {
        header := header.(lines := header.lines[i := header.lines[i].(modbus := None)]);
        i := i + 1;
      }
      assert header.lines == FailedLines(was, lineIndex, message);
      gapUntil := Add(later, nextGap);
      FinishAll();
    }

    method TransmitCurrent(later: u32)
      requires |tx| >= 2
      modifies this, uart
      ensures View() == Transmitted(old(View()), settings, later)
      ensures uart.rx == [] && uart.sent == old(uart.sent) + [tx]
    {
      while uart.Available()
        invariant View() == old(View()) && uart.sent == old(uart.sent)
        decreases |uart.rx|
      {
        var discard := uart.ReadByte();
      }
      var code := tx[1];
      var isWrite := code >= 5 && code != 23;
      nextGap := if isWrite then settings.writeGap else settings.readGap;
      uart.WriteArray(tx);
      rx := [];
      txDoneAt := later;
      lastRxAt := txDoneAt;
      phase := RxWait;
    }

    method FinishLineOk(later: u32)
      requires lineIndex < |header.lines|
      modifies this
      ensures View() == LineDone(old(View()), later)
    {
      hide NextLine, Failed, Encoded;
      if |rx| < 4 {
        FailLine("Response too short", later);
        return;
      }
      var n := |rx|;
      var crc := ModbusCrc16(rx[..n - 2]);
      var got := LittleEndian(rx[n - 2], rx[n - 1]);
      if crc != got {
        FailLine("Invalid CRC in response", later);
        return;
      }
      var hex := BytesToHex(rx);
      header := header.(lines := header.lines[lineIndex := header.lines[lineIndex].(modbus := Some(hex))]);
      gapUntil := Add(later, nextGap);
      lineIndex := lineIndex + 1;
      StartNextLine(later);
    }

    method Receive(now: u32)
      modifies this, uart
      ensures View() == Received(old(View()), old(uart.rx), now)
      ensures uart.rx == old(uart.rx)[Taken(old(View()), old(uart.rx))..] && uart.sent == old(uart.sent)
    {
      ghost var n: nat := 0;
      while uart.Available() && |rx| < MAX_FRAME_SIZE
        invariant n <= |old(uart.rx)| && uart.rx == old(uart.rx)[n..] && uart.sent == old(uart.sent)
        invariant n > 0 ==> |old(rx)| + n <= MAX_FRAME_SIZE
        invariant View() == old(View()).(rx := old(rx) + old(uart.rx)[..n],
                                         lastRxAt := if n > 0 then now else old(lastRxAt))
        decreases |uart.rx|
      {
        var b := uart.ReadByte();
        rx := rx + [b];
        lastRxAt := now;
        n := n + 1;
      }
    }

    method HandleRx(now: u32, later: u32)
      requires lineIndex < |header.lines|
      modifies this, uart
      ensures View() == Listened(old(View()), settings, old(uart.rx), now, later)
      ensures uart.rx == old(uart.rx)[Taken(old(View()), old(uart.rx))..] && uart.sent == old(uart.sent)
    {
      hide Taken, LineDone, Failed;
      Receive(now);
      if |rx| >= 3 {
        var expected := ExpectedLength(rx);
        if expected > 0 && |rx| >= expected {
          rx := rx[..expected];
          FinishLineOk(later);
          return;
        }
        if expected == 0 && Elapsed(now, lastRxAt, SilenceGap(settings)) {
          assert rx[..|rx|] == rx;
          FinishLineOk(later);
          return;
        }
      }
      if Elapsed(now, txDoneAt, settings.responseTimeout) {
        FailLine("Response timeout", later);
      }
    }

    method Loop(now: u32, later: u32)
      requires Ready(View())
      modifies this, uart
      ensures var p := Polled(old(View()), settings, old(uart.rx), now, later);
              && View() == p.exec && uart.rx == p.uart
              && uart.sent == old(uart.sent) + if p.event.Sent? then [p.event.frame] else []
    {
      match phase {
        case Idle =>
        case Done =>
        case Gap =>
          if Reached(now, gapUntil) {
            TransmitCurrent(later);
          }
        case RxWait =>
          HandleRx(now, later);
      }
    }
  }
}
