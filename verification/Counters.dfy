// The counters the device reports, and the pace of its checks, against the history of the boot.

module Counters {

  import opened Options
  import opened Clock
  import opened Keys
  import opened Protocol
  import opened Crc
  import opened Hex
  import opened Executor
  import opened Batches
  import opened Stores
  import opened Manager
  import opened Dongle
  import opened System
  import opened Cycle
  import opened Deadlines

  function One(b: bool): (n: nat)
    ensures n <= 1
  {
    if b then 1 else 0
  }

  // ----- Sets sent, sets delivered, lines failed -----

  ghost function RunsBy(ws: seq<World>, acts: seq<Action>, j: nat): nat
    requires j <= |acts| < |ws|
  {
    if j == 0 || acts[j - 1].Reboot? then 0
    else RunsBy(ws, acts, j - 1) + One(StartedKey(ws[j - 1], acts[j - 1]) != [])
  }

  ghost function DeliveriesBy(ws: seq<World>, acts: seq<Action>, j: nat): nat
    requires j <= |acts| < |ws|
  {
    if j == 0 || acts[j - 1].Reboot? then 0
    else
      var w, a := ws[j - 1], acts[j - 1];
      DeliveriesBy(ws, acts, j - 1) + One(FinishesRun(w, a) && Delivered(w.dev.exec.header.lines))
  }

  lemma StepCounts(w: World, board: Board, a: Action)
    requires Joint(w) && Enabled(w, a) && !a.Reboot?
    ensures var m, m' := w.dev.mgr, Step(w, board, a).dev.mgr;
            && m'.runs == Add(m.runs, One(StartedKey(w, a) != []))
            && m'.delivered == Add(m.delivered, One(FinishesRun(w, a) && Delivered(w.dev.exec.header.lines)))
  {
    hide Polled, Started, NextKey, Due, Reached, Elapsed, RequestOf, Delivered, StoreOk, Shape, RunIsCurrent, Less,
         PersistTurned, Synced, Removed, Revision, ResponseFor, FieldsHandled, IsInvSetup;
    if a.Cloud? {
      CloudEffectOf(w, board, a);
    }
  }

  // In every reachable state they are the numbers of sets started and of runs delivered since the
  // boot, mod 2^32.
  lemma {:induction false} CountersKnown(board: Board, ws: seq<World>, acts: seq<Action>, j: nat)
    requires Behaviour(board, ws, acts) && j <= |acts|
    ensures ws[j].dev.mgr.runs == RunsBy(ws, acts, j) % 0x1_0000_0000
    ensures ws[j].dev.mgr.delivered == DeliveriesBy(ws, acts, j) % 0x1_0000_0000
  {
    hide Step, Enabled, Boot, Joint, StartedKey, FinishesRun, Delivered;
    if j == 0 {
      BootCounts(board, ws[0]);
    } else {
      var w, a := ws[j - 1], acts[j - 1];
      CountersKnown(board, ws, acts, j - 1);
      JointAlways(board, ws, acts, j - 1);
      assert ws[j] == Step(w, board, a);
      if a.Reboot? {
        RebootCounts(w, board, a);
      } else {
        StepCounts(w, board, a);
        WrapAdd(RunsBy(ws, acts, j - 1), One(StartedKey(w, a) != []));
        WrapAdd(DeliveriesBy(ws, acts, j - 1), One(FinishesRun(w, a) && Delivered(w.dev.exec.header.lines)));
      }
    }
  }

  lemma BootCounts(board: Board, w: World)
    requires exists nvs, switchOn, io :: w == Boot(board, nvs, switchOn, io)
    ensures w.dev.mgr.runs == w.dev.mgr.delivered == w.dev.mgr.lastCheck == w.dev.exec.errors == 0
  {
    hide PersistTurned, Loaded, LoadedSome;
  }

  lemma RebootCounts(w: World, board: Board, a: Action)
    requires Enabled(w, a) && a.Reboot?
    ensures var d' := Step(w, board, a).dev;
            d'.mgr.runs == d'.mgr.delivered == d'.mgr.lastCheck == d'.exec.errors == 0
  {
    hide Boot;
    BootCounts(board, Step(w, board, a));
  }

  // ----- Failed lines -----

  // A line that carried a frame carries none any more.
  ghost predicate Lost(before: seq<Line>, after: seq<Line>) {
    |before| == |after| && exists k :: 0 <= k < |before| && LosesFrame(before[k], after[k])
  }

  predicate LosesFrame(before: Line, after: Line) { before.HasPayload() && after.modbus.None? }

  lemma FailedLoses(lines: seq<Line>, k: nat, message: string)
    requires k < |lines| && lines[k].HasPayload()
    ensures Lost(lines, FailedLines(lines, k, message))
  {
    assert LosesFrame(lines[k], FailedLines(lines, k, message)[k]);
  }

  lemma NextLineErrors(e: Exec, later: u32)
    requires e.lineIndex <= |e.header.lines|
    ensures var e' := NextLine(e, later);
            e'.errors == Add(e.errors, One(Lost(e.header.lines, e'.header.lines)))
  {
    hide Decoded, FailedLines, Lost;
    var k := SkipFrom(e.header.lines, e.lineIndex);
    SameLoses(e.header.lines);
    WrapAdd(e.errors, 0);
    if k < |e.header.lines| {
      FailedLoses(e.header.lines, k, "Invalid Modbus hex string");
    }
  }

  lemma SameLoses(lines: seq<Line>)
    ensures !Lost(lines, lines)
  {}

  lemma AnsweredLoses(lines: seq<Line>, k: nat, hex: string, after: seq<Line>)
    requires k < |lines| && lines[k].HasPayload() && hex != ""
    ensures Lost(lines[k := lines[k].(modbus := Some(hex))], after) <==> Lost(lines, after)
  {
    var lines' := lines[k := lines[k].(modbus := Some(hex))];
    if |after| == |lines| {
      assert forall i :: 0 <= i < |lines| ==> (LosesFrame(lines'[i], after[i]) <==> LosesFrame(lines[i], after[i]));
    }
  }

  lemma LineDoneErrors(e: Exec, later: u32)
    requires e.lineIndex < |e.header.lines| && e.header.lines[e.lineIndex].HasPayload()
    ensures var e' := LineDone(e, later);
            e'.errors == Add(e.errors, One(Lost(e.header.lines, e'.header.lines)))
  {
    hide NextLine, TrailerMatches, Lost, FailedLines;
    var lines, k := e.header.lines, e.lineIndex;
    FailedLoses(lines, k, "Response too short");
    FailedLoses(lines, k, "Invalid CRC in response");
    if ValidReply(e.rx) {
      EncodedNonEmpty(e.rx);
      var lines' := lines[k := lines[k].(modbus := Some(Encoded(e.rx)))];
      var e1 := e.(header := e.header.(lines := lines'), gapUntil := Add(later, e.nextGap), lineIndex := k + 1);
      NextLineErrors(e1, later);
      AnsweredLoses(lines, k, Encoded(e.rx), NextLine(e1, later).header.lines);
    }
  }

  lemma PolledErrors(e: Exec, s: Settings, uart: seq<byte>, now: u32, later: u32)
    requires Ready(e) && (Busy(e) ==> e.header.lines[e.lineIndex].HasPayload())
    ensures var e' := Polled(e, s, uart, now, later).exec;
            e'.errors == Add(e.errors, One(Lost(e.header.lines, e'.header.lines)))
  {
    hide LineDone, FrameEnd, Lost, FailedLines, Elapsed, Reached;
    SameLoses(e.header.lines);
    WrapAdd(e.errors, 0);
    if e.phase == RxWait {
      var e1 := Received(e, uart, now);
      FailedLoses(e.header.lines, e.lineIndex, "Response timeout");
      if FrameEnd(e1, s, now).Some? {
        LineDoneErrors(e1.(rx := e1.rx[..FrameEnd(e1, s, now).value]), later);
      }
    }
  }

  // The lines on the bus before the step: those of a batch that starts with it, or of the one there.
  ghost function LinesBefore(w: World, a: Action): seq<Line> {
    if a.Dispatch? && ToStart(w.dev).Some? then ToStart(w.dev).value.lines else w.dev.exec.header.lines
  }

  ghost function FailuresBy(ws: seq<World>, acts: seq<Action>, j: nat): nat
    requires j <= |acts| < |ws|
  {
    if j == 0 || acts[j - 1].Reboot? then 0
    else
      FailuresBy(ws, acts, j - 1)
      + One(Lost(LinesBefore(ws[j - 1], acts[j - 1]), ws[j].dev.exec.header.lines))
  }

  lemma StepErrors(w: World, board: Board, a: Action)
    requires Joint(w) && Enabled(w, a) && !a.Reboot?
    ensures var e' := Step(w, board, a).dev.exec;
            e'.errors == Add(w.dev.exec.errors, One(Lost(LinesBefore(w, a), e'.header.lines)))
  {
    hide Polled, NextLine, Lost, StoreOk, RunIsCurrent, FieldsHandled, RequestOf, Ticked, PersistTurned, ResultHandled,
         ResponseFor, SetStarted, ToStart;
    SameLoses(w.dev.exec.header.lines);
    WrapAdd(w.dev.exec.errors, 0);
    if a.Poll? {
      PolledErrors(w.dev.exec, board.settings, w.dev.uart + a.arrived, Wrap(a.gate), Wrap(a.done));
    } else if a.Dispatch? && ToStart(w.dev).Some? {
      StartsWhenFree(w.dev);
      NextLineErrors(w.dev.exec.(header := ToStart(w.dev).value, lineIndex := 0, phase := Gap), Wrap(a.ms));
    }
  }

  lemma StartsWhenFree(d: Device)
    requires ToStart(d).Some?
    ensures !Busy(d.exec)
  {}

  // The error counter is the number of times since the boot that lines lost their frames, mod 2^32:
  // one for each batch that stopped at a line.
  lemma {:induction false} ErrorsKnown(board: Board, ws: seq<World>, acts: seq<Action>, j: nat)
    requires Behaviour(board, ws, acts) && j <= |acts|
    ensures ws[j].dev.exec.errors == FailuresBy(ws, acts, j) % 0x1_0000_0000
  {
    hide Step, Enabled, Boot, Joint, Lost, LinesBefore;
    if j == 0 {
      BootCounts(board, ws[0]);
    } else {
      var w, a := ws[j - 1], acts[j - 1];
      ErrorsKnown(board, ws, acts, j - 1);
      JointAlways(board, ws, acts, j - 1);
      assert ws[j] == Step(w, board, a);
      if a.Reboot? {
        RebootCounts(w, board, a);
      } else {
        StepErrors(w, board, a);
        WrapAdd(FailuresBy(ws, acts, j - 1), One(Lost(LinesBefore(w, a), ws[j].dev.exec.header.lines)));
      }
    }
  }

  // ----- Every five seconds -----

  // When the manager last looked, in true uptime: at the first check 5000 ms or more after the one
  // before, by the low 32 bits.
  function LookedAt(acts: seq<Action>, j: nat): nat
    requires j <= |acts|
  {
    if j == 0 || acts[j - 1].Reboot? then 0
    else if acts[j - 1].Check? && (acts[j - 1].ms - LookedAt(acts, j - 1)) % 0x1_0000_0000 >= 5000 then acts[j - 1].ms
    else LookedAt(acts, j - 1)
  }

  lemma CheckLooks(w: World, board: Board, a: Action, looked: nat)
    requires Enabled(w, a) && a.Check? && w.dev.mgr.lastCheck == Wrap(looked)
    ensures var looks := (a.ms - looked) % 0x1_0000_0000 >= 5000;
            && (looks ==> Step(w, board, a).dev.mgr.lastCheck == Wrap(a.ms))
            && (!looks ==> Step(w, board, a) == w)
  {
    hide Due, Reached;
    WrapSub(a.ms, looked);
  }

  lemma OtherLooks(w: World, board: Board, a: Action)
    requires Joint(w) && Enabled(w, a) && !a.Check? && !a.Reboot?
    ensures Step(w, board, a).dev.mgr.lastCheck == w.dev.mgr.lastCheck
  {
    hide Polled, Started, NextKey, RequestOf, Delivered, StoreOk, Shape, RunIsCurrent, Less,
         PersistTurned, Synced, Removed, Revision, ResponseFor, FieldsHandled, IsInvSetup;
    if a.Cloud? {
      CloudEffectOf(w, board, a);
    }
  }

  lemma {:induction false} LookedKnown(board: Board, ws: seq<World>, acts: seq<Action>, j: nat)
    requires Behaviour(board, ws, acts) && j <= |acts|
    ensures ws[j].dev.mgr.lastCheck == Wrap(LookedAt(acts, j))
  {
    hide Step, Enabled, Boot, Joint;
    if j == 0 {
      BootCounts(board, ws[0]);
    } else {
      var w, a := ws[j - 1], acts[j - 1];
      LookedKnown(board, ws, acts, j - 1);
      JointAlways(board, ws, acts, j - 1);
      assert ws[j] == Step(w, board, a);
      if a.Reboot? {
        RebootCounts(w, board, a);
      } else if a.Check? {
        CheckLooks(w, board, a, LookedAt(acts, j - 1));
      } else {
        OtherLooks(w, board, a);
      }
    }
  }

  // A check does nothing at all before 5000 ms have gone by since the manager last looked, and it
  // tests the clock exactly when they have - and the clock is set.
  lemma LooksEveryFiveSeconds(board: Board, ws: seq<World>, acts: seq<Action>, j: nat)
    requires Behaviour(board, ws, acts) && j < |acts| && acts[j].Check?
    ensures var since := acts[j].ms - LookedAt(acts, j);
            && (0 <= since < 5000 ==> ws[j + 1] == ws[j])
            && (0 <= since < 0x1_0000_0000 ==> (Tests(ws[j], acts[j]) <==> since >= 5000 && acts[j].wall.synced))
  {
    hide Step, Boot, LookedAt;
    LookedKnown(board, ws, acts, j);
    CheckLooks(ws[j], board, acts[j], LookedAt(acts, j));
    WrapSub(acts[j].ms, LookedAt(acts, j));
  }
}
