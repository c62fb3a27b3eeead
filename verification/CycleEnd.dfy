// An emergency cycle comes to an end: the passes of loop() it can still take.

module CycleEnd {

  import opened Clock
  import opened Hex
  import opened Protocol
  import opened Executor
  import opened Batches
  import opened Stores
  import opened Manager
  import opened Dongle
  import opened System
  import opened Cycle
  import opened Gaps
  import opened Progress

  // One set takes at most this many polls.
  function PerSet(s: Settings): nat { MAX_LINES_PER_ARRAY * PerLine(s) }

  function PassesFor(keys: nat, s: Settings): nat { keys * (PerSet(s) + 1) }

  // The passes a cycle can still take: for the keys ahead of the walk, and for the batch on the bus.
  ghost function PassesLeft(board: Board, ws: seq<World>, acts: seq<Action>, j: nat): nat
    requires Behaviour(board, ws, acts) && j <= |acts|
  {
    PassesFor(KeysAhead(ws[j].dev.mgr), board.settings) + EffortAt(board, ws, acts, j)
  }

  lemma FewerPasses(a: nat, b: nat, s: Settings)
    requires a <= b
    ensures PassesFor(a, s) <= PassesFor(b, s)
    ensures a < b ==> PassesFor(a, s) + PerSet(s) < PassesFor(b, s)
  {
    FewerLines(a, b, PerSet(s) + 1);
    if a < b {
      FewerLines(a + 1, b, PerSet(s) + 1);
      assert (a + 1) * (PerSet(s) + 1) == a * (PerSet(s) + 1) + PerSet(s) + 1;
    }
  }

  // ----- The deadline stays near -----

  lemma OtherActs(w: World, board: Board, a: Action, d: int)
    requires Enabled(w, a) && !a.Poll? && !a.Dispatch?
    ensures DeadlineAfter(w, board, a, d) == if a.Reboot? then 0 else d
    ensures !Sends(w, board, a)
  {}

  lemma KeptNear(e: Exec, s: Settings, d: int, now: nat)
    requires GapKept(e, s, d, now)
    ensures d <= now + LongestGap(s)
  {}

  lemma {:induction false} DeadlineNear(board: Board, ws: seq<World>, acts: seq<Action>, j: nat)
    requires Behaviour(board, ws, acts) && UptimeFlows(acts) && GapsFit(board.settings) && InPasses(acts)
    requires j <= |acts| && (j > 0 ==> !acts[j - 1].Dispatch?)
    ensures Deadline(board, ws, acts, j) <= LastPoll(acts, j) + 1 + LongestGap(board.settings)
  {
    hide Step, Enabled, Boot, GapKept, DeadlineAfter, LongestGap, GapsFit;
    if j > 0 {
      if acts[j - 1].Poll? {
        GapAlways(board, ws, acts, j);
        KeptNear(ws[j].dev.exec, board.settings, Deadline(board, ws, acts, j), Uptime(acts, j));
      } else {
        OtherActs(ws[j - 1], board, acts[j - 1], Deadline(board, ws, acts, j - 1));
        if !acts[j - 1].Reboot? {
          if j > 1 {
            assert FollowsAt(acts, j - 1);
          }
          DeadlineNear(board, ws, acts, j - 1);
        }
      }
    }
  }

  // ----- A set goes on the bus -----

  lemma StartedEffort(e: Exec, header: Header, now: u32, s: Settings, d: int, sent: nat, last: int)
    requires |header.lines| <= MAX_LINES_PER_ARRAY && |e.rx| <= MAX_FRAME_SIZE && d <= last + 1 + LongestGap(s)
    ensures var e' := Started(e, header, now);
            Ready(e') && (e'.phase == Gap ==> e'.errors == e.errors) && Effort(e', s, d, sent, last) <= PerSet(s)
  {
    hide Decoded, FailedLines, PerLine, Effort, LongestGap;
    var e0 := e.(header := header, lineIndex := 0, phase := Gap);
    NextLineReady(e0, now);
    var e' := Started(e, header, now);
    if e'.phase == Gap {
      EffortBound(e', s, d, sent, last);
      FewerLines(|header.lines|, MAX_LINES_PER_ARRAY, PerLine(s));
    } else {
      DoneEffort(e', s, d, sent, last);
    }
  }

  // A dispatch that keeps the cycle going on a free bus starts a set of at most 50 lines.
  lemma StartsSet(w: World, board: Board, a: Action, d: int, sent: nat, last: int)
    requires Joint(w) && Enabled(w, a) && a.Dispatch? && InCycle(w) && InCycle(Step(w, board, a)) && !Busy(w.dev.exec)
    requires d <= last + 1 + LongestGap(board.settings)
    ensures |StartedKey(w, a)| == 1
    ensures var e' := Step(w, board, a).dev.exec;
            Ready(e') && Effort(e', board.settings, DeadlineAfter(w, board, a, d), sent, last) <= PerSet(board.settings)
  {
    hide Started, RunIsCurrent, RevisionsOk, Effort, PerSet, NextKey, Shape, LongestGap;
    var m := w.dev.mgr;
    var k := NextKey(m).value;
    NextKeyIn(m);
    StartedEffort(w.dev.exec, RunHeader(k, m.store.sets[k]), Wrap(a.ms), board.settings, d, sent, last);
    var e' := Started(w.dev.exec, RunHeader(k, m.store.sets[k]), Wrap(a.ms));
    StartedRuns(w.dev.exec, RunHeader(k, m.store.sets[k]), Wrap(a.ms));
    if e'.phase == Done {
      DoneEffort(e', board.settings, DeadlineAfter(w, board, a, d), sent, last);
    }
  }

  lemma NextKeyIn(m: Mgr)
    requires NextKey(m).Some?
    ensures NextKey(m).value in m.store.sets
  {}

  // ----- Every step of a cycle -----

  lemma IdleEffort(board: Board, ws: seq<World>, acts: seq<Action>, j: nat)
    requires Behaviour(board, ws, acts) && j <= |acts| && !Busy(ws[j].dev.exec)
    ensures EffortAt(board, ws, acts, j) == 0
  {
    hide Step, Enabled, Boot;
  }

  lemma StaysFree(w: World, board: Board, a: Action)
    requires Enabled(w, a) && !Busy(w.dev.exec) && !a.Dispatch?
    ensures !Busy(Step(w, board, a).dev.exec)
  {
    hide FieldsHandled, RequestOf, ResultHandled, ResponseFor, PersistTurned, Ticked, Booted;
  }

  lemma StepSpends(board: Board, ws: seq<World>, acts: seq<Action>, x: nat)
    requires Behaviour(board, ws, acts) && UptimeFlows(acts) && GapsFit(board.settings) && InPasses(acts) && x < |acts|
    requires InCycle(ws[x]) && InCycle(ws[x + 1]) && !acts[x].Reboot? && !AddsKey(ws[x], acts[x])
    requires PromptAt(board, ws, acts, x)
    requires ws[x].dev.mgr.state == Executing ==> !ws[x].dev.mgr.walkFromStart
    ensures PassesLeft(board, ws, acts, x + 1) <= PassesLeft(board, ws, acts, x)
    ensures acts[x].Poll? && Busy(ws[x].dev.exec) ==>
              PassesLeft(board, ws, acts, x + 1) < PassesLeft(board, ws, acts, x)
    ensures acts[x].Dispatch? && !Busy(ws[x + 1].dev.exec) ==>
              PassesLeft(board, ws, acts, x + 1) < PassesLeft(board, ws, acts, x)
  {
    hide Step, Enabled, Boot, Joint, PassesFor, PerSet, KeysAhead, EffortAt, AddsKey, InCycle, PromptAt, StartedKey;
    assert ws[x + 1] == Step(ws[x], board, acts[x]);
    JointAlways(board, ws, acts, x);
    StepShrinks(ws[x], board, acts[x]);
    var s, ahead, ahead' := board.settings, KeysAhead(ws[x].dev.mgr), KeysAhead(ws[x + 1].dev.mgr);
    FewerPasses(ahead', ahead, s);
    if Busy(ws[x].dev.exec) {
      EffortStep(board, ws, acts, x);
      if acts[x].Dispatch? {
        BusyUntouched(ws[x], board, acts[x]);
      }
    } else {
      IdleEffort(board, ws, acts, x);
      if acts[x].Dispatch? {
        if x > 0 {
          assert FollowsAt(acts, x);
        }
        DispatchSpends(board, ws, acts, x);
      } else {
        StaysFree(ws[x], board, acts[x]);
        IdleEffort(board, ws, acts, x + 1);
      }
    }
  }

  lemma DispatchSpends(board: Board, ws: seq<World>, acts: seq<Action>, x: nat)
    requires Behaviour(board, ws, acts) && UptimeFlows(acts) && GapsFit(board.settings) && InPasses(acts) && x < |acts|
    requires acts[x].Dispatch? && InCycle(ws[x]) && InCycle(ws[x + 1]) && !Busy(ws[x].dev.exec)
    requires x > 0 ==> !acts[x - 1].Dispatch?
    ensures |StartedKey(ws[x], acts[x])| == 1
    ensures EffortAt(board, ws, acts, x + 1) <= PerSet(board.settings)
  {
    hide Step, Boot, Joint, PerSet, InCycle, StartedKey, DeadlineAfter, Effort, LongestGap;
    assert ws[x + 1] == Step(ws[x], board, acts[x]);
    JointAlways(board, ws, acts, x);
    DeadlineNear(board, ws, acts, x);
    StartsSet(ws[x], board, acts[x], Deadline(board, ws, acts, x), SentAt(board, ws, acts, x), LastPoll(acts, x));
  }

  // ----- Whole cycles -----

  // Each pass of a cycle to which the cloud adds no key uses up one of those it had at the trigger.
  lemma {:induction false} CycleSpends(board: Board, ws: seq<World>, acts: seq<Action>, i: nat, j: nat)
    requires Behaviour(board, ws, acts) && UptimeFlows(acts) && GapsFit(board.settings) && InPasses(acts)
    requires i < j <= |acts| && TriggeredAt(ws, acts, i) && (j > i + 1 ==> !acts[j - 1].Dispatch?)
    requires forall x :: i < x <= j ==> InCycle(ws[x])
    requires forall x :: i < x < j ==> !AddsKey(ws[x], acts[x])
    requires forall x :: i < x < j ==> PromptAt(board, ws, acts, x)
    ensures Polls(acts, i + 1, j) + PassesLeft(board, ws, acts, j) <= PassesLeft(board, ws, acts, i + 1)
    decreases j
  {
    hide Step, Enabled, Boot, Joint, InCycle, AddsKey, PromptAt, PassesLeft, TriggeredAt;
    IsTrigger(ws, acts, i);
    if j > i + 1 {
      assert FollowsAt(acts, j - 1);
      NotReboot(board, ws, acts, j - 1);
      if acts[j - 1].Poll? {
        assert j - 2 > i;
        assert FollowsAt(acts, j - 2);
        CycleSpends(board, ws, acts, i, j - 2);
        CycleStepSpends(board, ws, acts, i, j - 2);
        CycleStepSpends(board, ws, acts, i, j - 1);
      } else {
        CycleSpends(board, ws, acts, i, j - 1);
        CycleStepSpends(board, ws, acts, i, j - 1);
      }
    }
  }

  lemma CycleStepSpends(board: Board, ws: seq<World>, acts: seq<Action>, i: nat, x: nat)
    requires Behaviour(board, ws, acts) && UptimeFlows(acts) && GapsFit(board.settings) && InPasses(acts)
    requires i < x < |acts| && TriggeredAt(ws, acts, i)
    requires forall y :: i < y <= x + 1 ==> InCycle(ws[y])
    requires !AddsKey(ws[x], acts[x]) && PromptAt(board, ws, acts, x)
    ensures PassesLeft(board, ws, acts, x + 1) <= PassesLeft(board, ws, acts, x)
    ensures acts[x].Poll? && Busy(ws[x].dev.exec) ==>
              PassesLeft(board, ws, acts, x + 1) < PassesLeft(board, ws, acts, x)
    ensures acts[x].Dispatch? && !Busy(ws[x + 1].dev.exec) ==>
              PassesLeft(board, ws, acts, x + 1) < PassesLeft(board, ws, acts, x)
  {
    hide Step, Enabled, Boot, Joint, InCycle, AddsKey, PromptAt, PassesLeft, TriggeredAt, Walk, ClearedUnrun;
    WalkDuring(board, ws, acts, i, x);
    UnderWay(ws[i + 1].dev.mgr.store.sets.Keys - ClearedUnrun(ws, acts, i + 1, x),
             Ran(ws, acts, i + 1, x), ws[x].dev.mgr);
    NotReboot(board, ws, acts, x);
    StepSpends(board, ws, acts, x);
  }

  // So a cycle that the cloud adds no key to is over after at most so many prompt passes: those of
  // the batch already on the bus, and PerSet + 1 for each set stored at the trigger.
  lemma CycleOver(board: Board, ws: seq<World>, acts: seq<Action>, i: nat, j: nat)
    requires Behaviour(board, ws, acts) && UptimeFlows(acts) && GapsFit(board.settings) && InPasses(acts)
    requires i < j <= |acts| && TriggeredAt(ws, acts, i)
    requires forall x :: i < x < j ==> !AddsKey(ws[x], acts[x])
    requires forall x :: i < x < j ==> PromptAt(board, ws, acts, x)
    ensures Polls(acts, i + 1, j) >
              PassesFor(|ws[i + 1].dev.mgr.store.sets.Keys|, board.settings) + EffortAt(board, ws, acts, i + 1)
            ==> exists x :: i + 1 < x <= j && !InCycle(ws[x])
  {
    hide Step, Enabled, Boot, Joint, InCycle, AddsKey, PromptAt, TriggeredAt, KeysAhead, PassesFor, EffortAt, Walk;
    IsTrigger(ws, acts, i);
    TriggerStartsWalk(ws[i], board, acts[i]);
    FromStart(ws[i + 1].dev.mgr);
    if j > i + 1 && forall x :: i < x <= j ==> InCycle(ws[x]) {
      assert FollowsAt(acts, j - 1);
      CycleSpends(board, ws, acts, i, if j > i + 1 && acts[j - 1].Dispatch? then j - 1 else j);
    }
  }
}
