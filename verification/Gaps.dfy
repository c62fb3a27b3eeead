// The pause between two commands on the bus: never cut short, and never drawn out, on a counter
// that wraps and across batches of either kind.

module Gaps {

  import opened Clock
  import opened Crc
  import opened Hex
  import opened Executor
  import opened Stores
  import opened Manager
  import opened Dongle
  import opened System

  // ----- Uptime -----

  // The last reading of the uptime after `a`, given the one before it. A reboot starts anew.
  function UptimeAfter(a: Action, now: nat): nat {
    match a
    case Cloud(_, _, _) => now
    case Result(ms, _, _) => ms
    case Dispatch(ms) => ms
    case Poll(_, done, _) => done
    case Check(_, retryMs, _) => retryMs
    case Toggle(_, _) => now
    case Reboot(_, _) => 0
  }

  function Uptime(acts: seq<Action>, j: nat): nat
    requires j <= |acts|
  {
    if j == 0 then 0 else UptimeAfter(acts[j - 1], Uptime(acts, j - 1))
  }

  predicate Onward(a: Action, now: nat) {
    match a
    case Cloud(_, _, _) => true
    case Result(ms, _, _) => now <= ms
    case Dispatch(ms) => now <= ms
    case Poll(gate, done, _) => now <= gate <= done
    case Check(ms, retryMs, _) => now <= ms <= retryMs
    case Toggle(_, _) => true
    case Reboot(_, _) => true
  }

  predicate OnwardAt(acts: seq<Action>, i: nat)
    requires i < |acts|
  {
    Onward(acts[i], Uptime(acts, i))
  }

  // Between two boots the uptime never runs backwards.
  predicate UptimeFlows(acts: seq<Action>) {
    forall i :: 0 <= i < |acts| ==> OnwardAt(acts, i)
  }

  // ----- The deadline as it is meant -----

  // A command is over: answered, refused or timed out.
  predicate EndsCommand(w: World, board: Board, a: Action)
    requires Enabled(w, a)
  {
    BusEventOf(w, board, a).Replied? || BusEventOf(w, board, a).LineFailed?
  }

  predicate Sends(w: World, board: Board, a: Action)
    requires Enabled(w, a)
  {
    BusEventOf(w, board, a).Sent?
  }

  // A batch whose first frame does not decode is over before anything is sent.
  ghost predicate FailsAtStart(w: World, a: Action) {
    a.Dispatch? && Dispatched(w.dev, Wrap(a.ms)).exec.errors != w.dev.exec.errors
  }

  // The unbounded deadline that gapUntil shows the low 32 bits of.
  ghost function DeadlineAfter(w: World, board: Board, a: Action, d: int): int
    requires Enabled(w, a)
  {
    if a.Reboot? then 0
    else if EndsCommand(w, board, a) then a.done + w.dev.exec.nextGap
    else if FailsAtStart(w, a) then a.ms + w.dev.exec.nextGap
    else d
  }

  ghost function Deadline(board: Board, ws: seq<World>, acts: seq<Action>, j: nat): int
    requires Behaviour(board, ws, acts) && j <= |acts|
  {
    if j == 0 then 0
    else DeadlineAfter(ws[j - 1], board, acts[j - 1], Deadline(board, ws, acts, j - 1))
  }

  // ----- One call of the executor -----

  function LongestGap(s: Settings): u32 { if s.readGap < s.writeGap then s.writeGap else s.readGap }

  predicate GapsFit(s: Settings) { LongestGap(s) <= TWO31 }

  // `d` is the true deadline at uptime `now`.
  predicate GapKept(e: Exec, s: Settings, d: int, now: nat) {
    && e.gapUntil == Wrap(d) && d <= now + e.nextGap && e.nextGap <= LongestGap(s)
    && (e.phase == RxWait ==> d <= now && |e.tx| >= 2 && e.nextGap == GapAfter(s, e.tx))
  }

  lemma NextLineGap(e: Exec, later: u32)
    requires e.lineIndex <= |e.header.lines|
    ensures var e' := NextLine(e, later);
            && e'.nextGap == e.nextGap && e'.phase in {Gap, Done} + {e.phase}
            && (e.phase != RxWait ==> e'.phase != RxWait)
            && (e'.errors == e.errors ==> e'.gapUntil == e.gapUntil)
            && (e'.errors != e.errors ==> e'.gapUntil == Add(later, e.nextGap))
  {}

  lemma ListenedGap(e: Exec, s: Settings, uart: seq<byte>, now: u32, later: u32)
    requires e.lineIndex < |e.header.lines| && e.phase == RxWait && Ready(e)
    ensures var e' := Listened(e, s, uart, now, later);
            var event := ReplyEvent(e, s, uart, now);
            && e'.nextGap == e.nextGap && !event.Sent?
            && (event.Quiet? ==> e'.phase == RxWait && e'.gapUntil == e.gapUntil && e'.tx == e.tx)
            && (!event.Quiet? ==> e'.phase != RxWait && e'.gapUntil == Add(later, e.nextGap))
  {
    hide FrameEnd, TrailerMatches, Elapsed, Decoded, FailedLines;
  }

  // A poll sends exactly when the signed test passes, never before the deadline, and a command
  // that ends leaves the deadline its own gap ahead.
  lemma PollGap(e: Exec, s: Settings, uart: seq<byte>, gate: nat, done: nat, d: int, now: nat)
    requires Ready(e) && GapsFit(s) && GapKept(e, s, d, now) && now <= gate <= done
    ensures var p := Polled(e, s, uart, Wrap(gate), Wrap(done));
            var ended := p.event.Replied? || p.event.LineFailed?;
            && GapKept(p.exec, s, if ended then done + e.nextGap else d, done)
            && (ended ==> e.phase == RxWait)
            && (p.event.Sent? <==> e.phase == Gap && (gate - d) % TWO32 < TWO31)
            && (p.event.Sent? ==> d <= gate && p.event.frame == e.tx)
  {
    hide Listened, ReplyEvent, Reached;
    match e.phase
    case Idle =>
    case Done =>
    case Gap =>
      ReachedExactly(gate, d);
      if gate < d {
        ReachedNear(gate, d);
      }
    case RxWait =>
      ListenedGap(e, s, uart, Wrap(gate), Wrap(done));
      WrapAdd(done, e.nextGap);
  }

  // ----- Every step -----

  lemma DispatchGap(w: World, board: Board, a: Action, d: int, now: nat)
    requires Enabled(w, a) && a.Dispatch? && GapKept(w.dev.exec, board.settings, d, now) && now <= a.ms
    ensures GapKept(Step(w, board, a).dev.exec, board.settings, DeadlineAfter(w, board, a, d), a.ms)
    ensures d <= DeadlineAfter(w, board, a, d) || !FailsAtStart(w, a) || w.dev.exec.phase == RxWait
  {
    hide NextLine, ToStart, SetStarted;
    var e := w.dev.exec;
    WrapAdd(a.ms, e.nextGap);
    if !Busy(e) && ToStart(w.dev).Some? {
      NextLineGap(e.(header := ToStart(w.dev).value, lineIndex := 0, phase := Gap), Wrap(a.ms));
    }
  }

  lemma StepGap(w: World, board: Board, a: Action, d: int, now: nat)
    requires Enabled(w, a) && GapsFit(board.settings) && Onward(a, now)
    requires GapKept(w.dev.exec, board.settings, d, now)
    ensures GapKept(Step(w, board, a).dev.exec, board.settings, DeadlineAfter(w, board, a, d), UptimeAfter(a, now))
    ensures !a.Reboot? ==> d <= DeadlineAfter(w, board, a, d)
    ensures Sends(w, board, a) ==> d <= a.gate
    ensures EndsCommand(w, board, a) ==>
              a.Poll? && |w.dev.exec.tx| >= 2
              && DeadlineAfter(w, board, a, d) == a.done + GapAfter(board.settings, w.dev.exec.tx)
  {
    hide Polled, PersistTurned, Booted, FieldsHandled, ResultHandled, ResponseFor, RequestOf, Dispatched;
    if a.Poll? {
      PollGap(w.dev.exec, board.settings, w.dev.uart + a.arrived, a.gate, a.done, d, now);
    } else if a.Dispatch? {
      DispatchGap(w, board, a, d, now);
      DispatchOnward(w, board, a, d, now);
    }
  }

  lemma DispatchOnward(w: World, board: Board, a: Action, d: int, now: nat)
    requires Enabled(w, a) && a.Dispatch? && GapKept(w.dev.exec, board.settings, d, now) && now <= a.ms
    ensures d <= DeadlineAfter(w, board, a, d)
  {
    hide Started, SetStarted, ToStart;
  }

  // ----- Every run -----

  lemma {:induction false} GapAlways(board: Board, ws: seq<World>, acts: seq<Action>, j: nat)
    requires Behaviour(board, ws, acts) && UptimeFlows(acts) && GapsFit(board.settings) && j <= |acts|
    ensures GapKept(ws[j].dev.exec, board.settings, Deadline(board, ws, acts, j), Uptime(acts, j))
  {
    hide Step, Enabled, Booted, DeadlineAfter, Onward;
    if j > 0 {
      GapAlways(board, ws, acts, j - 1);
      assert OnwardAt(acts, j - 1);
      StepGap(ws[j - 1], board, acts[j - 1], Deadline(board, ws, acts, j - 1), Uptime(acts, j - 1));
    }
  }

  lemma {:induction false} DeadlineGrows(board: Board, ws: seq<World>, acts: seq<Action>, i: nat, j: nat)
    requires Behaviour(board, ws, acts) && UptimeFlows(acts) && GapsFit(board.settings) && i <= j <= |acts|
    requires forall x :: i <= x < j ==> !acts[x].Reboot?
    ensures Deadline(board, ws, acts, i) <= Deadline(board, ws, acts, j)
    decreases j
  {
    hide Step, Enabled, Boot, DeadlineAfter, Onward, GapKept;
    if i < j {
      DeadlineGrows(board, ws, acts, i, j - 1);
      GapAlways(board, ws, acts, j - 1);
      assert OnwardAt(acts, j - 1);
      StepGap(ws[j - 1], board, acts[j - 1], Deadline(board, ws, acts, j - 1), Uptime(acts, j - 1));
    }
  }

  // Every transmission comes at least the gap of each earlier command of the same boot after that
  // command's reply or timeout - the write gap after a function from 5 on that is not 23, the read
  // gap after any other - at any uptime and whatever batches lie between.
  lemma GapSafety(board: Board, ws: seq<World>, acts: seq<Action>, i: nat, j: nat)
    requires Behaviour(board, ws, acts) && UptimeFlows(acts) && GapsFit(board.settings)
    requires i < j < |acts| && forall x :: i <= x < j ==> !acts[x].Reboot?
    requires EndsCommand(ws[i], board, acts[i]) && Sends(ws[j], board, acts[j])
    ensures |ws[i].dev.exec.tx| >= 2 && acts[i].Poll? && acts[j].Poll?
    ensures var tx := ws[i].dev.exec.tx;
            && (tx[1] >= 5 && tx[1] != 23 ==> acts[i].done + board.settings.writeGap <= acts[j].gate)
            && (tx[1] < 5 || tx[1] == 23 ==> acts[i].done + board.settings.readGap <= acts[j].gate)
  {
    hide Step, Boot, DeadlineAfter, Onward, GapKept, Polled;
    assert OnwardAt(acts, i) && OnwardAt(acts, j);
    GapAlways(board, ws, acts, i);
    StepGap(ws[i], board, acts[i], Deadline(board, ws, acts, i), Uptime(acts, i));
    DeadlineGrows(board, ws, acts, i + 1, j);
    GapAlways(board, ws, acts, j);
    StepGap(ws[j], board, acts[j], Deadline(board, ws, acts, j), Uptime(acts, j));
  }

  // A waiting command goes out at a poll exactly when the signed test passes; so at every poll
  // from its deadline on, and up to 2^31 ms past it.
  lemma NeverBlocked(board: Board, ws: seq<World>, acts: seq<Action>, j: nat)
    requires Behaviour(board, ws, acts) && UptimeFlows(acts) && GapsFit(board.settings)
    requires j < |acts| && acts[j].Poll? && ws[j].dev.exec.phase == Gap
    ensures var late := acts[j].gate - Deadline(board, ws, acts, j);
            && (Sends(ws[j], board, acts[j]) <==> late % TWO32 < TWO31)
            && (0 <= late < TWO31 ==> Sends(ws[j], board, acts[j]))
            && (TWO31 <= late < TWO32 ==> !Sends(ws[j], board, acts[j]))
  {
    hide Step, Boot, DeadlineAfter, Polled, GapKept, Sends, BusEventOf, Ready, Deadline, Uptime;
    var d := Deadline(board, ws, acts, j);
    assert OnwardAt(acts, j);
    GapAlways(board, ws, acts, j);
    PollSends(ws[j], board, acts[j], d, Uptime(acts, j));
    WrapRange(acts[j].gate - d);
  }

  lemma PollSends(w: World, board: Board, a: Action, d: int, now: nat)
    requires Enabled(w, a) && a.Poll? && Onward(a, now) && w.dev.exec.phase == Gap
    requires GapsFit(board.settings) && GapKept(w.dev.exec, board.settings, d, now)
    ensures Sends(w, board, a) <==> (a.gate - d) % TWO32 < TWO31
  {
    hide Polled;
    PollGap(w.dev.exec, board.settings, w.dev.uart + a.arrived, a.gate, a.done, d, now);
  }

  // Nothing ends after the command that ended at i, up to j.
  ghost predicate LastEnd(board: Board, ws: seq<World>, acts: seq<Action>, i: nat, j: nat)
    requires Behaviour(board, ws, acts) && i < j <= |acts|
  {
    && EndsCommand(ws[i], board, acts[i])
    && forall x :: i < x < j ==> NothingEnds(ws[x], board, acts[x])
  }

  ghost predicate NothingEnds(w: World, board: Board, a: Action)
    requires Enabled(w, a)
  {
    !a.Reboot? && !EndsCommand(w, board, a) && !FailsAtStart(w, a)
  }

  lemma {:induction false} DeadlineStays(board: Board, ws: seq<World>, acts: seq<Action>, i: nat, j: nat)
    requires Behaviour(board, ws, acts) && i < j <= |acts| && LastEnd(board, ws, acts, i, j)
    ensures Deadline(board, ws, acts, j) == Deadline(board, ws, acts, i + 1)
    decreases j
  {
    hide Step, Enabled, Boot, EndsCommand, FailsAtStart;
    if i + 1 < j {
      DeadlineStays(board, ws, acts, i, j - 1);
      assert NothingEnds(ws[j - 1], board, acts[j - 1]);
    }
  }

  // And no later: the next command leaves at a poll within 2^31 ms of that moment exactly when the
  // gap of the last one is over.
  lemma SentWhenGapOver(board: Board, ws: seq<World>, acts: seq<Action>, i: nat, j: nat)
    requires Behaviour(board, ws, acts) && UptimeFlows(acts) && GapsFit(board.settings)
    requires i < j < |acts| && LastEnd(board, ws, acts, i, j) && acts[j].Poll? && ws[j].dev.exec.phase == Gap
    ensures |ws[i].dev.exec.tx| >= 2 && acts[i].Poll?
    ensures var tx := ws[i].dev.exec.tx;
            var over := acts[i].done + (if tx[1] < 5 || tx[1] == 23 then board.settings.readGap
                                        else board.settings.writeGap);
            -0x8000_0000 <= acts[j].gate - over < 0x8000_0000 ==>
              (Sends(ws[j], board, acts[j]) <==> over <= acts[j].gate)
  {
    hide Step, Boot, DeadlineAfter, Onward, GapKept, Polled, Sends, Ready, EndsCommand, NothingEnds;
    var d := Deadline(board, ws, acts, j);
    assert OnwardAt(acts, i);
    GapAlways(board, ws, acts, i);
    StepGap(ws[i], board, acts[i], Deadline(board, ws, acts, i), Uptime(acts, i));
    DeadlineStays(board, ws, acts, i, j);
    NeverBlocked(board, ws, acts, j);
    NearBelow(acts[j].gate - d);
  }

  lemma NearBelow(late: int)
    ensures -TWO31 <= late < TWO31 ==> (late % TWO32 < TWO31 <==> 0 <= late)
  {}

  lemma WrapRange(late: int)
    ensures 0 <= late < TWO32 ==> late % TWO32 == late
  {}

  // ----- Which gaps the counter can hold -----

  predicate Honoured(gap: u32, done: nat, gate: nat) {
    done <= gate && Reached(Wrap(gate), Wrap(done + gap)) ==> done + gap <= gate
  }

  // The signed test honours a gap at every uptime exactly up to 2^31 ms.
  lemma GapsHonoured(gap: u32)
    ensures (forall done: nat, gate: nat :: Honoured(gap, done, gate)) <==> gap <= TWO31
  {
    hide Reached;
    if gap <= TWO31 {
      forall done: nat, gate: nat ensures Honoured(gap, done, gate) {
        if done <= gate < done + gap {
          ReachedNear(gate, done + gap);
        }
      }
    } else {
      ReachedExactly(0, gap);
      assert !Honoured(gap, 0, 0);
    }
  }
}
