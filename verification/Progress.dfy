// Every batch comes to an end: a count of polls that each further poll brings down.

module Progress {

  import opened Options
  import opened Clock
  import opened Crc
  import opened Hex
  import opened Executor
  import opened Stores
  import opened Manager
  import opened Dongle
  import opened System
  import opened Gaps

  // ----- The measure -----

  function Positive(x: int): nat { if x > 0 then x else 0 }

  // One line takes at most this many polls: its gap, its transmission, its reply.
  function PerLine(s: Settings): nat { LongestGap(s) + s.responseTimeout + 3 }

  // How many polls a batch can still take: for the lines after the current one, and for what is
  // left of the gap or the timeout of the current one. `d` is the true deadline, `sent` when the
  // command on the bus was sent, `last` the last poll.
  function Effort(e: Exec, s: Settings, d: int, sent: nat, last: int): nat
    requires Ready(e)
  {
    if !Busy(e) then 0
    else
      var after := |e.header.lines| - e.lineIndex - 1;
      after * PerLine(s) +
      (if e.phase == Gap then s.responseTimeout + 2 + Positive(d - last)
       else 1 + Positive(s.responseTimeout - (last - sent)))
  }

  // The clock has moved since the last poll, and the test this poll makes is not fooled by a wrap.
  predicate Prompt(e: Exec, gate: nat, d: int, sent: nat, last: int) {
    && last < gate
    && (e.phase == Gap ==> gate - d < TWO31)
    && (e.phase == RxWait ==> sent <= gate < sent + TWO32)
  }

  lemma NextLineEffort(e: Exec, s: Settings, later: u32, d: int, sent: nat, last: int, after: nat)
    requires e.lineIndex <= |e.header.lines| && |e.rx| <= MAX_FRAME_SIZE && e.phase == RxWait
    requires d <= last + LongestGap(s) && |e.header.lines| - e.lineIndex == after
    ensures Ready(NextLine(e, later)) && NextLine(e, later).phase != RxWait
    ensures Effort(NextLine(e, later), s, d, sent, last) < after * PerLine(s) + 1
  {
    hide Decoded, FailedLines;
    NextLineReady(e, later);
    var e' := NextLine(e, later);
    if Busy(e') {
      FewerLines(|e'.header.lines| - e'.lineIndex - 1, after - 1, PerLine(s));
      assert (after - 1) * PerLine(s) + PerLine(s) == after * PerLine(s);
    }
  }

  lemma FewerLines(a: nat, b: nat, k: nat)
    requires a <= b
    ensures a * k <= b * k
  {
    assert b * k == a * k + (b - a) * k;
  }

  // A reply that is complete: the line is done, or the batch has failed.
  lemma LineDoneEffort(e: Exec, s: Settings, done: nat, sent: nat)
    requires Ready(e) && e.phase == RxWait && e.nextGap <= LongestGap(s)
    ensures var e' := LineDone(e, Wrap(done));
            && Ready(e') && e'.phase != RxWait
            && Effort(e', s, done + e.nextGap, sent, done) < (|e.header.lines| - e.lineIndex - 1) * PerLine(s) + 1
  {
    hide NextLine, TrailerMatches, FailedLines, Effort, PerLine;
    var after := |e.header.lines| - e.lineIndex - 1;
    FewerLines(0, after, PerLine(s));
    if ValidReply(e.rx) {
      var lines := e.header.lines;
      var line := lines[e.lineIndex].(modbus := Some(Encoded(e.rx)));
      NextLineEffort(e.(header := e.header.(lines := lines[e.lineIndex := line]),
                        gapUntil := Add(Wrap(done), e.nextGap), lineIndex := e.lineIndex + 1),
                     s, Wrap(done), done + e.nextGap, sent, done, after);
    } else {
      DoneEffort(LineDone(e, Wrap(done)), s, done + e.nextGap, sent, done);
    }
  }

  // A poll that hears something or times out.
  lemma ListenedEffort(e: Exec, s: Settings, uart: seq<byte>, gate: nat, done: nat, d: int, sent: nat, last: int)
    requires Ready(e) && e.phase == RxWait && e.txDoneAt == Wrap(sent) && Prompt(e, gate, d, sent, last) && gate <= done
    requires e.nextGap <= LongestGap(s)
    ensures var e' := Listened(e, s, uart, Wrap(gate), Wrap(done));
            var ended := ReplyEvent(e, s, uart, Wrap(gate)) != Quiet;
            && Ready(e')
            && Effort(e', s, if ended then done + e.nextGap else d, sent, done) < Effort(e, s, d, sent, last)
            && (e'.phase == RxWait ==> e'.txDoneAt == e.txDoneAt)
  {
    hide LineDone, FrameEnd, TrailerMatches, FailedLines, Effort, PerLine;
    ListenedReady(e, s, uart, Wrap(gate), Wrap(done));
    var e1 := Received(e, uart, Wrap(gate));
    WrapSub(gate, sent);
    EffortAtLeast(e, s, d, sent, last);
    match FrameEnd(e1, s, Wrap(gate))
    case Some(n) =>
      LineDoneEffort(e1.(rx := e1.rx[..n]), s, done, sent);
    case None =>
      if gate - sent >= s.responseTimeout {
        DoneEffort(Listened(e, s, uart, Wrap(gate), Wrap(done)), s, done + e.nextGap, sent, done);
      } else {
        WaitEffort(e, e1, s, d, sent, last, done);
      }
  }

  lemma EffortAtLeast(e: Exec, s: Settings, d: int, sent: nat, last: int)
    requires Ready(e) && Busy(e)
    ensures Effort(e, s, d, sent, last) >= (|e.header.lines| - e.lineIndex - 1) * PerLine(s) + 1
    ensures (|e.header.lines| - e.lineIndex - 1) * PerLine(s) >= 0
  {
    FewerLines(0, |e.header.lines| - e.lineIndex - 1, PerLine(s));
  }

  lemma DoneEffort(e: Exec, s: Settings, d: int, sent: nat, last: int)
    requires Ready(e) && e.phase == Done
    ensures Effort(e, s, d, sent, last) == 0
  {}

  lemma WaitEffort(e: Exec, e': Exec, s: Settings, d: int, sent: nat, last: int, done: nat)
    requires Ready(e) && Ready(e') && e.phase == RxWait == e'.phase
    requires e'.header == e.header && e'.lineIndex == e.lineIndex
    requires last < done && last - sent < s.responseTimeout
    ensures Effort(e', s, d, sent, done) < Effort(e, s, d, sent, last)
  {}

  // A prompt poll of a running batch brings the measure down.
  lemma PollWorks(e: Exec, s: Settings, uart: seq<byte>, gate: nat, done: nat, d: int, now: nat, sent: nat, last: int)
    requires Ready(e) && Busy(e) && GapsFit(s) && GapKept(e, s, d, now) && now <= gate <= done
    requires e.phase == RxWait ==> e.txDoneAt == Wrap(sent)
    requires Prompt(e, gate, d, sent, last)
    ensures var p := Polled(e, s, uart, Wrap(gate), Wrap(done));
            var ended := p.event.Replied? || p.event.LineFailed?;
            && Ready(p.exec)
            && Effort(p.exec, s, if ended then done + e.nextGap else d, if p.event.Sent? then done else sent, done)
               < Effort(e, s, d, sent, last)
            && (p.exec.phase == RxWait ==> p.exec.txDoneAt == Wrap(if p.event.Sent? then done else sent))
  {
    hide Listened, ReplyEvent, Reached;
    StaysReady(e, s, uart, Wrap(gate), Wrap(done));
    PollGap(e, s, uart, gate, done, d, now);
    if e.phase == RxWait {
      ListenedGap(e, s, uart, Wrap(gate), Wrap(done));
      ListenedEffort(e, s, uart, gate, done, d, sent, last);
    } else if gate >= d {
      LateSends(gate, d);
    }
  }

  lemma LateSends(gate: nat, d: int)
    requires 0 <= gate - d < TWO31
    ensures (gate - d) % TWO32 < TWO31
  {}

  // ----- Every run -----

  ghost function SentAt(board: Board, ws: seq<World>, acts: seq<Action>, j: nat): nat
    requires Behaviour(board, ws, acts) && j <= |acts|
  {
    if j == 0 || acts[j - 1].Reboot? then 0
    else if Sends(ws[j - 1], board, acts[j - 1]) && acts[j - 1].Poll? then acts[j - 1].done
    else SentAt(board, ws, acts, j - 1)
  }

  function LastPoll(acts: seq<Action>, j: nat): int
    requires j <= |acts|
  {
    if j == 0 || acts[j - 1].Reboot? then -1
    else if acts[j - 1].Poll? then acts[j - 1].done
    else LastPoll(acts, j - 1)
  }

  function Polls(acts: seq<Action>, i: nat, j: nat): nat
    requires i <= j <= |acts|
  {
    if i == j then 0 else Polls(acts, i, j - 1) + if acts[j - 1].Poll? then 1 else 0
  }

  ghost function EffortAt(board: Board, ws: seq<World>, acts: seq<Action>, j: nat): nat
    requires Behaviour(board, ws, acts) && j <= |acts|
  {
    if Ready(ws[j].dev.exec) then
      Effort(ws[j].dev.exec, board.settings, Deadline(board, ws, acts, j), SentAt(board, ws, acts, j),
             LastPoll(acts, j))
    else 0
  }

  ghost predicate PromptAt(board: Board, ws: seq<World>, acts: seq<Action>, x: nat)
    requires Behaviour(board, ws, acts) && x < |acts|
  {
    acts[x].Poll? ==>
      Prompt(ws[x].dev.exec, acts[x].gate, Deadline(board, ws, acts, x), SentAt(board, ws, acts, x), LastPoll(acts, x))
  }

  // While a batch runs only polls touch the executor.
  lemma BusyUntouched(w: World, board: Board, a: Action)
    requires Enabled(w, a) && Busy(w.dev.exec) && !a.Poll? && !a.Reboot?
    ensures Step(w, board, a).dev.exec == w.dev.exec
    ensures !EndsCommand(w, board, a) && !FailsAtStart(w, a) && !Sends(w, board, a)
  {
    hide FieldsHandled, RequestOf, Ticked, PersistTurned;
  }

  lemma PollActionWorks(w: World, board: Board, a: Action, d: int, now: nat, sent: nat, last: int)
    requires Enabled(w, a) && a.Poll? && Busy(w.dev.exec) && GapsFit(board.settings)
    requires GapKept(w.dev.exec, board.settings, d, now) && Onward(a, now)
    requires w.dev.exec.phase == RxWait ==> w.dev.exec.txDoneAt == Wrap(sent)
    requires Prompt(w.dev.exec, a.gate, d, sent, last)
    ensures var e' := Step(w, board, a).dev.exec;
            var sent' := if Sends(w, board, a) then a.done else sent;
            && Ready(e')
            && Effort(e', board.settings, DeadlineAfter(w, board, a, d), sent', a.done)
               < Effort(w.dev.exec, board.settings, d, sent, last)
  {
    hide Polled, Effort, GapKept, Prompt;
    PollWorks(w.dev.exec, board.settings, w.dev.uart + a.arrived, a.gate, a.done, d, now, sent, last);
  }

  lemma {:induction false} SentKnown(board: Board, ws: seq<World>, acts: seq<Action>, j: nat)
    requires Behaviour(board, ws, acts) && j <= |acts|
    ensures ws[j].dev.exec.phase == RxWait ==> ws[j].dev.exec.txDoneAt == Wrap(SentAt(board, ws, acts, j))
  {
    hide Step, Enabled, Boot, Sends;
    if j == 0 {
      BootIdle(board, ws[0]);
    } else {
      SentKnown(board, ws, acts, j - 1);
      assert ws[j] == Step(ws[j - 1], board, acts[j - 1]);
      SentStep(ws[j - 1], board, acts[j - 1]);
    }
  }

  lemma BootIdle(board: Board, w: World)
    requires exists nvs, switchOn, io :: w == Boot(board, nvs, switchOn, io)
    ensures w.dev.exec.phase == Idle
  {
    hide Booted;
  }

  lemma SentStep(w: World, board: Board, a: Action)
    requires Enabled(w, a)
    ensures var e, e' := w.dev.exec, Step(w, board, a).dev.exec;
            && (Sends(w, board, a) ==> a.Poll? && e'.txDoneAt == Wrap(a.done))
            && (a.Reboot? ==> e'.phase == Idle)
            && (e'.phase == RxWait && !Sends(w, board, a) ==> e.phase == RxWait && e'.txDoneAt == e.txDoneAt)
  {
    hide FieldsHandled, RequestOf, Ticked, PersistTurned, Booted, ResultHandled, ResponseFor, ToStart, SetStarted,
         Polled, Started;
    if a.Poll? {
      SentPoll(w.dev.exec, board.settings, w.dev.uart + a.arrived, Wrap(a.gate), Wrap(a.done));
    } else if a.Dispatch? && ToStart(w.dev).Some? {
      StartedRuns(w.dev.exec, ToStart(w.dev).value, Wrap(a.ms));
    }
  }

  lemma SentPoll(e: Exec, s: Settings, uart: seq<byte>, now: u32, later: u32)
    requires Ready(e)
    ensures var p := Polled(e, s, uart, now, later);
            && (p.event.Sent? ==> p.exec.txDoneAt == later)
            && (p.exec.phase == RxWait && !p.event.Sent? ==> e.phase == RxWait && p.exec.txDoneAt == e.txDoneAt)
  {
    hide FrameEnd, Elapsed, TrailerMatches, Decoded, FailedLines, Reached;
  }

  // While a batch runs, each poll uses up some of the effort it had at the start.
  lemma {:induction false} BatchEnds(board: Board, ws: seq<World>, acts: seq<Action>, i: nat, j: nat)
    requires Behaviour(board, ws, acts) && UptimeFlows(acts) && GapsFit(board.settings) && i <= j <= |acts|
    requires forall x :: i <= x <= j ==> Busy(ws[x].dev.exec)
    requires forall x :: i <= x < j ==> !acts[x].Reboot?
    requires forall x :: i <= x < j ==> PromptAt(board, ws, acts, x)
    ensures Polls(acts, i, j) + EffortAt(board, ws, acts, j) <= EffortAt(board, ws, acts, i)
    decreases j
  {
    hide Step, Enabled, Boot, Effort, GapKept, Prompt, Sends, DeadlineAfter, Onward;
    if i < j {
      BatchEnds(board, ws, acts, i, j - 1);
      assert PromptAt(board, ws, acts, j - 1);
      EffortStep(board, ws, acts, j - 1);
    }
  }

  lemma EffortStep(board: Board, ws: seq<World>, acts: seq<Action>, x: nat)
    requires Behaviour(board, ws, acts) && UptimeFlows(acts) && GapsFit(board.settings) && x < |acts|
    requires Busy(ws[x].dev.exec) && !acts[x].Reboot? && PromptAt(board, ws, acts, x)
    ensures EffortAt(board, ws, acts, x + 1) + (if acts[x].Poll? then 1 else 0) <= EffortAt(board, ws, acts, x)
  {
    hide Step, Boot, Effort, GapKept, Prompt, Sends, Onward, EndsCommand, FailsAtStart;
    assert ws[x + 1] == Step(ws[x], board, acts[x]);
    if acts[x].Poll? {
      assert OnwardAt(acts, x);
      GapAlways(board, ws, acts, x);
      SentKnown(board, ws, acts, x);
      PollActionWorks(ws[x], board, acts[x], Deadline(board, ws, acts, x), Uptime(acts, x),
                      SentAt(board, ws, acts, x), LastPoll(acts, x));
    } else {
      BusyUntouched(ws[x], board, acts[x]);
    }
  }

  lemma BusyStep(w: World, board: Board, a: Action)
    requires Enabled(w, a) && Busy(w.dev.exec) && !a.Reboot?
    ensures Busy(Step(w, board, a).dev.exec) || Step(w, board, a).dev.exec.phase == Done
  {
    hide Polled, FieldsHandled, RequestOf, Ticked, PersistTurned;
    if a.Poll? {
      PolledPhase(w.dev.exec, board.settings, w.dev.uart + a.arrived, Wrap(a.gate), Wrap(a.done));
    }
  }

  lemma {:induction false} BusyOrDone(board: Board, ws: seq<World>, acts: seq<Action>, i: nat, j: nat)
    requires Behaviour(board, ws, acts) && i <= j <= |acts| && Busy(ws[i].dev.exec)
    requires forall x :: i <= x < j ==> !acts[x].Reboot?
    ensures (forall x :: i <= x <= j ==> Busy(ws[x].dev.exec)) || exists x :: i < x <= j && ws[x].dev.exec.phase == Done
    decreases j
  {
    hide Step, Enabled, Boot;
    if i < j {
      BusyOrDone(board, ws, acts, i, j - 1);
      if Busy(ws[j - 1].dev.exec) {
        assert ws[j] == Step(ws[j - 1], board, acts[j - 1]);
        BusyStep(ws[j - 1], board, acts[j - 1]);
      }
    }
  }

  // So it is done after at most as many polls as it had effort at the start.
  lemma BatchDone(board: Board, ws: seq<World>, acts: seq<Action>, i: nat, j: nat)
    requires Behaviour(board, ws, acts) && UptimeFlows(acts) && GapsFit(board.settings) && i <= j <= |acts|
    requires Busy(ws[i].dev.exec) && forall x :: i <= x < j ==> !acts[x].Reboot?
    requires forall x :: i <= x < j ==> PromptAt(board, ws, acts, x)
    requires Polls(acts, i, j) >= EffortAt(board, ws, acts, i)
    ensures exists x :: i < x <= j && ws[x].dev.exec.phase == Done
  {
    hide Step, Enabled, Boot, Effort, Ready, PromptAt;
    BusyOrDone(board, ws, acts, i, j);
    if forall x :: i <= x <= j ==> Busy(ws[x].dev.exec) {
      BatchEnds(board, ws, acts, i, j);
      JointAlways(board, ws, acts, j);
      JointReady(ws[j]);
      EffortAtLeast(ws[j].dev.exec, board.settings, Deadline(board, ws, acts, j), SentAt(board, ws, acts, j),
                    LastPoll(acts, j));
    }
  }

  // A batch whose deadline is at most one gap away has at most PerLine polls to go for each line.
  lemma EffortBound(e: Exec, s: Settings, d: int, sent: nat, last: int)
    requires Ready(e) && e.phase == Gap && d <= last + 1 + LongestGap(s)
    ensures Effort(e, s, d, sent, last) <= |e.header.lines| * PerLine(s)
  {
    FewerLines(|e.header.lines| - e.lineIndex, |e.header.lines|, PerLine(s));
    var after := |e.header.lines| - e.lineIndex - 1;
    assert after * PerLine(s) + PerLine(s) == (|e.header.lines| - e.lineIndex) * PerLine(s);
  }
}
