// One command and its answer, over whole runs: what goes out is what was asked for, and what is taken
// for the reply is what came in since.

module Exchange {

  import opened Options
  import opened Clock
  import opened Crc
  import opened Hex
  import opened Executor
  import opened Batches
  import opened Stores
  import opened Manager
  import opened Dongle
  import opened System
  import opened Gaps
  import opened Progress
  import opened Framing

  // Every frame that leaves is the decoded text of one line of its batch, at least four bytes long,
  // and it leaves when each line before that one is answered or carried no frame.
  lemma SentIsRequested(board: Board, ws: seq<World>, acts: seq<Action>, i: nat)
    requires Behaviour(board, ws, acts) && i < |acts| && Sends(ws[i], board, acts[i])
    ensures var request, k := ws[i].batch.request, ws[i].dev.exec.lineIndex;
            && k < |request| && request[k].modbus.Some?
            && BusEventOf(ws[i], board, acts[i]).Sent?
            && Decoded(request[k].modbus.value) == Some(BusEventOf(ws[i], board, acts[i]).frame)
            && |BusEventOf(ws[i], board, acts[i]).frame| >= 4
            && forall x: nat :: x in ws[i].batch.answers <==> x < k && request[x].modbus !in {None, Some("")}
  {
    hide Step, Boot, StoreOk, RunIsCurrent, Decoded, AnsweredBy;
    JointAlways(board, ws, acts, i);
    SendsTx(ws[i], board, acts[i]);
  }

  lemma SendsTx(w: World, board: Board, a: Action)
    requires Enabled(w, a) && Sends(w, board, a)
    ensures w.dev.exec.phase == Gap && BusEventOf(w, board, a).frame == w.dev.exec.tx && a.Poll?
    ensures Step(w, board, a).dev.exec.rx == [] && Step(w, board, a).dev.uart == []
  {
    hide Listened, FrameEnd, TrailerMatches, Reached;
  }

  // The bytes that came in since the last frame went out.
  ghost function Arrived(board: Board, ws: seq<World>, acts: seq<Action>, j: nat): seq<byte>
    requires Behaviour(board, ws, acts) && j <= |acts|
  {
    if j == 0 || acts[j - 1].Reboot? then []
    else if !acts[j - 1].Poll? then Arrived(board, ws, acts, j - 1)
    else if Sends(ws[j - 1], board, acts[j - 1]) then []
    else Arrived(board, ws, acts, j - 1) + acts[j - 1].arrived
  }

  lemma QuietPoll(e: Exec, s: Settings, uart: seq<byte>, now: u32, later: u32)
    requires Ready(e)
    ensures var p := Polled(e, s, uart, now, later);
            && (p.exec.phase == RxWait && !p.event.Sent? ==>
                  e.phase == RxWait && p.exec.rx + p.uart == e.rx + uart && p.event == Quiet)
            && (p.event.Sent? ==> e.phase == Gap && p.exec.rx == [] && p.uart == [])
            && (p.event.Replied? ==> e.phase == RxWait && ValidReply(p.event.frame) && |p.event.frame| <= 300
                                     && p.event.frame <= e.rx + uart)
  {
    hide NextLine, Failed, TrailerMatches, ExpectedLength, SilenceGap, Elapsed, Reached, Encoded;
    assert uart[..Taken(e, uart)] + uart[Taken(e, uart)..] == uart;
    if e.phase == RxWait {
      ListenedGap(e, s, uart, now, later);
    }
  }

  lemma StepArrived(w: World, board: Board, a: Action, got: seq<byte>)
    requires Enabled(w, a) && (w.dev.exec.phase == RxWait ==> w.dev.exec.rx + w.dev.uart == got)
    ensures var d' := Step(w, board, a).dev;
            d'.exec.phase == RxWait ==>
              && !a.Reboot?
              && d'.exec.rx + d'.uart == if !a.Poll? then got else if Sends(w, board, a) then [] else got + a.arrived
  {
    hide FieldsHandled, RequestOf, Ticked, PersistTurned, Booted, ResultHandled, ResponseFor, ToStart, SetStarted,
         Polled, Started;
    if a.Poll? {
      QuietPoll(w.dev.exec, board.settings, w.dev.uart + a.arrived, Wrap(a.gate), Wrap(a.done));
      assert w.dev.exec.rx + (w.dev.uart + a.arrived) == w.dev.exec.rx + w.dev.uart + a.arrived;
    } else if a.Dispatch? && ToStart(w.dev).Some? {
      StartedRuns(w.dev.exec, ToStart(w.dev).value, Wrap(a.ms));
    }
  }

  // While a reply is awaited, what was read of it and what still waits in the UART are those bytes.
  lemma {:induction false} ArrivedKnown(board: Board, ws: seq<World>, acts: seq<Action>, j: nat)
    requires Behaviour(board, ws, acts) && j <= |acts|
    ensures ws[j].dev.exec.phase == RxWait ==> ws[j].dev.exec.rx + ws[j].dev.uart == Arrived(board, ws, acts, j)
  {
    hide Step, Enabled, Boot, Sends;
    if j == 0 {
      BootIdle(board, ws[0]);
    } else {
      ArrivedKnown(board, ws, acts, j - 1);
      assert ws[j] == Step(ws[j - 1], board, acts[j - 1]);
      StepArrived(ws[j - 1], board, acts[j - 1], Arrived(board, ws, acts, j - 1));
    }
  }

  // A frame is taken for the answer only if it is CRC-valid and the very first bytes that arrived
  // since the command went out; nothing received before that is ever part of it.
  lemma AnswerIsWhatArrived(board: Board, ws: seq<World>, acts: seq<Action>, j: nat)
    requires Behaviour(board, ws, acts) && j < |acts| && BusEventOf(ws[j], board, acts[j]).Replied?
    ensures acts[j].Poll?
    ensures var frame := BusEventOf(ws[j], board, acts[j]).frame;
            && ValidReply(frame) && |frame| <= 300
            && frame <= Arrived(board, ws, acts, j) + acts[j].arrived
  {
    hide Step, Boot, Sends, Polled, ValidReply;
    var w, a := ws[j], acts[j];
    ArrivedKnown(board, ws, acts, j);
    QuietPoll(w.dev.exec, board.settings, w.dev.uart + a.arrived, Wrap(a.gate), Wrap(a.done));
    assert w.dev.exec.rx + (w.dev.uart + a.arrived) == w.dev.exec.rx + w.dev.uart + a.arrived;
  }

  lemma PollFinds(e: Exec, s: Settings, uart: seq<byte>, reply: seq<byte>, now: u32, later: u32)
    requires Ready(e) && e.phase == RxWait && FullLength(reply) && reply <= e.rx + uart
    ensures Polled(e, s, uart, now, later).event == if TrailerMatches(reply) then Replied(reply) else LineFailed
  {
    hide Listened, TrailerMatches, ExpectedLength, Elapsed;
    var got := e.rx + uart[..Taken(e, uart)];
    assert |reply| <= 260 && |got| >= |reply|;
    assert got <= e.rx + uart;
    LengthExpected(reply, got);
    assert got[..|reply|] == reply;
  }

  // What one poll makes of the bytes `got` since the command went out at `sent`.
  ghost predicate Finds(w: World, board: Board, a: Action, got: seq<byte>, sent: nat, reply: seq<byte>)
    requires Enabled(w, a) && a.Poll?
  {
    var event := BusEventOf(w, board, a);
    && (reply <= got ==> event == if ValidReply(reply) then Replied(reply) else LineFailed)
    && (got < reply && 0 <= a.gate - sent < 0x1_0000_0000 ==>
          event == if a.gate - sent < board.settings.responseTimeout then Quiet else LineFailed)
  }

  lemma PollMakes(w: World, board: Board, a: Action, got: seq<byte>, sent: nat, reply: seq<byte>)
    requires Enabled(w, a) && a.Poll? && w.dev.exec.phase == RxWait && FullLength(reply)
    requires w.dev.exec.rx + w.dev.uart + a.arrived == got && w.dev.exec.txDoneAt == Wrap(sent)
    ensures Finds(w, board, a, got, sent, reply)
  {
    hide Polled, TrailerMatches;
    var uart := w.dev.uart + a.arrived;
    assert w.dev.exec.rx + uart == got;
    if reply <= got {
      PollFinds(w.dev.exec, board.settings, uart, reply, Wrap(a.gate), Wrap(a.done));
    } else if got < reply && sent <= a.gate < sent + 0x1_0000_0000 {
      OverdueReply(w.dev.exec, board.settings, uart, reply, sent, a.gate, Wrap(a.done));
    }
  }

  // While a reply is awaited, a poll makes of the bytes since the command went out exactly this: once
  // they begin with a reply of the length its function calls for, that reply, or a failed line when
  // its CRC is wrong; as long as they are only part of one, nothing before the timeout, and then a
  // failed line.
  lemma ReplyOrTimeout(board: Board, ws: seq<World>, acts: seq<Action>, j: nat, reply: seq<byte>)
    requires Behaviour(board, ws, acts) && j < |acts| && acts[j].Poll? && ws[j].dev.exec.phase == RxWait
    requires FullLength(reply)
    ensures Finds(ws[j], board, acts[j], Arrived(board, ws, acts, j) + acts[j].arrived,
                  SentAt(board, ws, acts, j), reply)
  {
    hide Step, Enabled, Boot, Sends, Finds, FullLength;
    ArrivedKnown(board, ws, acts, j);
    SentKnown(board, ws, acts, j);
    PollMakes(ws[j], board, acts[j], Arrived(board, ws, acts, j) + acts[j].arrived, SentAt(board, ws, acts, j), reply);
  }
}
