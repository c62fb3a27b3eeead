// A request that waits is served: the passes of loop() until its response is published or dropped.

module Waiting {

  import opened Options
  import opened Clock
  import opened Crc
  import opened Protocol
  import opened Executor
  import opened Batches
  import opened Stores
  import opened Manager
  import opened Dongle
  import opened System
  import opened Cycle
  import opened Gaps
  import opened Progress
  import opened Retries
  import opened CycleEnd

  // The pending request goes on the bus.
  ghost predicate Starts(w: World, a: Action) {
    a.Dispatch? && w.dev.pending.Some? && !Busy(w.dev.exec) && w.dev.mgr.state != Queued
  }

  // A message that takes the pending slot.
  predicate FillsSlot(a: Action) { a.Cloud? && RequestOf(a.payload).Some? }

  // The passes until the bus is free for the cloud: those of a running or coming cycle, and those of
  // the batch on the bus.
  ghost function WaitLeft(board: Board, ws: seq<World>, acts: seq<Action>, j: nat): nat
    requires Behaviour(board, ws, acts) && j <= |acts|
  {
    PassesFor(KeysToRun(ws[j]), board.settings) + EffortAt(board, ws, acts, j)
  }

  function KeysToRun(w: World): nat {
    if InCycle(w) then KeysAhead(w.dev.mgr) else |w.dev.mgr.store.sets.Keys|
  }

  // ----- One step of the wait -----

  // A running set is never at the start of a walk.
  lemma {:induction false} ExecutingWalks(board: Board, ws: seq<World>, acts: seq<Action>, j: nat)
    requires Behaviour(board, ws, acts) && j <= |acts|
    ensures ws[j].dev.mgr.state == Executing ==> !ws[j].dev.mgr.walkFromStart
  {
    hide Step, Enabled, Boot, Joint;
    JointAlways(board, ws, acts, j);
    if j == 0 {
      BootIdle(board, ws[0]);
      IdleNotExecuting(ws[0]);
    } else {
      ExecutingWalks(board, ws, acts, j - 1);
      JointAlways(board, ws, acts, j - 1);
      assert ws[j] == Step(ws[j - 1], board, acts[j - 1]);
      WalksOn(ws[j - 1], board, acts[j - 1]);
    }
  }

  lemma IdleNotExecuting(w: World)
    requires Joint(w) && w.dev.exec.phase == Idle
    ensures w.dev.mgr.state != Executing
  {
    hide Shape, StoreOk, RunIsCurrent;
  }

  lemma WalksOn(w: World, board: Board, a: Action)
    requires Enabled(w, a) && (w.dev.mgr.state == Executing ==> !w.dev.mgr.walkFromStart)
    ensures var m' := Step(w, board, a).dev.mgr; m'.state == Executing ==> !m'.walkFromStart
  {
    hide Polled, PersistTurned, Loaded, LoadedSome, Started, NextKey, Due, ResultStored, ResponseFor,
         FieldsHandled, RequestOf, IsInvSetup;
    if a.Cloud? {
      CloudEffectOf(w, board, a);
    }
  }

  lemma KeepsWaiting(w: World, board: Board, a: Action)
    requires Enabled(w, a) && !Starts(w, a) && !FillsSlot(a) && !a.Reboot?
    ensures Step(w, board, a).dev.pending == w.dev.pending
    ensures a.Cloud? ==> Step(w, board, a).dev.mgr == w.dev.mgr
  {
    hide FieldsHandled, ResultHandled, ResponseFor, PersistTurned, Ticked, Polled, NextKey, Started, SetStarted;
  }

  // Outside a cycle the stored sets stay as they are, and only a check begins one.
  lemma OutsideCycle(w: World, board: Board, a: Action)
    requires Joint(w) && Enabled(w, a) && !InCycle(w) && !FillsSlot(a) && !a.Reboot?
    ensures Step(w, board, a).dev.mgr.store.sets == w.dev.mgr.store.sets
    ensures InCycle(Step(w, board, a)) ==>
              a.Check? && KeysAhead(Step(w, board, a).dev.mgr) == |w.dev.mgr.store.sets.Keys|
  {
    hide Polled, Started, NextKey, Due, FieldsHandled, PersistTurned, ResponseFor, Shape, StoreOk, RunIsCurrent,
         SetStarted;
    if a.Toggle? {
      ToggleKeepsSets(w.dev.mgr.store, a.on, board.codec, a.io);
    }
  }

  lemma WaitStep(board: Board, ws: seq<World>, acts: seq<Action>, x: nat)
    requires Behaviour(board, ws, acts) && UptimeFlows(acts) && GapsFit(board.settings) && InPasses(acts) && x < |acts|
    requires ws[x].dev.pending.Some? && !Starts(ws[x], acts[x]) && !FillsSlot(acts[x]) && !acts[x].Reboot?
    requires PromptAt(board, ws, acts, x) && (InCycle(ws[x]) ==> InCycle(ws[x + 1]))
    ensures WaitLeft(board, ws, acts, x + 1) <= WaitLeft(board, ws, acts, x)
    ensures acts[x].Poll? && Busy(ws[x].dev.exec) ==> WaitLeft(board, ws, acts, x + 1) < WaitLeft(board, ws, acts, x)
    ensures acts[x].Dispatch? && !Busy(ws[x + 1].dev.exec) ==>
              WaitLeft(board, ws, acts, x + 1) < WaitLeft(board, ws, acts, x)
  {
    hide Step, Enabled, Boot, Joint, PassesFor, PerSet, KeysAhead, EffortAt, PromptAt;
    assert ws[x + 1] == Step(ws[x], board, acts[x]);
    JointAlways(board, ws, acts, x);
    if InCycle(ws[x]) {
      ExecutingWalks(board, ws, acts, x);
      StepSpends(board, ws, acts, x);
    } else {
      OutsideCycle(ws[x], board, acts[x]);
      if Busy(ws[x].dev.exec) {
        EffortStep(board, ws, acts, x);
        if acts[x].Dispatch? {
          BusyUntouched(ws[x], board, acts[x]);
        }
      } else {
        StaysFree(ws[x], board, acts[x]);
        IdleEffort(board, ws, acts, x);
        IdleEffort(board, ws, acts, x + 1);
      }
    }
  }

  // ----- The wait is bounded -----

  // From i to j the request waits: nothing starts it, nothing replaces it.
  ghost predicate WaitsFrom(ws: seq<World>, acts: seq<Action>, i: nat, j: nat)
    requires i <= j <= |acts| < |ws|
  {
    && ws[i].dev.pending.Some?
    && forall x :: i <= x < j ==> !Starts(ws[x], acts[x]) && !FillsSlot(acts[x]) && !acts[x].Reboot?
  }

  lemma {:induction false} StillPending(board: Board, ws: seq<World>, acts: seq<Action>, i: nat, j: nat)
    requires Behaviour(board, ws, acts) && i <= j <= |acts| && WaitsFrom(ws, acts, i, j)
    ensures ws[j].dev.pending == ws[i].dev.pending
    decreases j
  {
    hide Step, Enabled, Boot, Starts, FillsSlot;
    if i < j {
      StillPending(board, ws, acts, i, j - 1);
      assert ws[j] == Step(ws[j - 1], board, acts[j - 1]);
      KeepsWaiting(ws[j - 1], board, acts[j - 1]);
    }
  }

  // When a cycle ends while a request waits, the dispatch of the same pass starts it.
  lemma ExitStarts(board: Board, ws: seq<World>, acts: seq<Action>, x: nat)
    requires Behaviour(board, ws, acts) && InPasses(acts) && x < |acts| && ws[x].dev.pending.Some?
    requires !Starts(ws[x], acts[x]) && !FillsSlot(acts[x]) && !acts[x].Reboot?
    requires InCycle(ws[x]) && !InCycle(ws[x + 1])
    ensures acts[x].Result?
    ensures x + 1 < |acts| && !acts[x + 1].Reboot? ==> Starts(ws[x + 1], acts[x + 1])
  {
    hide Step, Enabled, Boot, Joint, FillsSlot, WalkGoesOn;
    assert ws[x + 1] == Step(ws[x], board, acts[x]);
    JointAlways(board, ws, acts, x);
    WalkGoesOnAlways(board, ws, acts, x);
    KeepsWaiting(ws[x], board, acts[x]);
    if x > 0 {
      assert FollowsAt(acts, x);
    }
    if acts[x].Dispatch? {
      DispatchGoesOn(ws[x], board, acts[x]);
    }
    OnlyResultExits(ws[x], board, acts[x]);
    if x + 1 < |acts| {
      assert FollowsAt(acts, x + 1);
    }
  }

  lemma OnlyResultExits(w: World, board: Board, a: Action)
    requires Joint(w) && Enabled(w, a) && InCycle(w) && !InCycle(Step(w, board, a))
    requires !FillsSlot(a) && !a.Reboot? && !a.Dispatch?
    ensures a.Result? && !Busy(Step(w, board, a).dev.exec)
  {
    hide Polled, PersistTurned, ResultHandled, ResponseFor, Due, FieldsHandled, Shape, StoreOk, RunIsCurrent;
  }

  lemma {:induction false} WaitSpends(board: Board, ws: seq<World>, acts: seq<Action>, i: nat, j: nat)
    requires Behaviour(board, ws, acts) && UptimeFlows(acts) && GapsFit(board.settings) && InPasses(acts)
    requires 0 < i <= j <= |acts| && acts[i - 1].Cloud? && (j > i ==> !acts[j - 1].Dispatch?)
    requires WaitsFrom(ws, acts, i, j)
    requires forall x :: i <= x < j ==> PromptAt(board, ws, acts, x)
    requires forall x :: i <= x < j ==> InCycle(ws[x]) ==> InCycle(ws[x + 1])
    ensures Polls(acts, i, j) + WaitLeft(board, ws, acts, j) <= WaitLeft(board, ws, acts, i)
    decreases j
  {
    hide Step, Enabled, Boot, Joint, InCycle, PromptAt, WaitLeft, Starts, FillsSlot;
    if j > i {
      assert FollowsAt(acts, j - 1);
      if acts[j - 1].Poll? {
        assert j - 2 >= i;
        assert FollowsAt(acts, j - 2);
        WaitSpends(board, ws, acts, i, j - 2);
        StillPending(board, ws, acts, i, j - 2);
        StillPending(board, ws, acts, i, j - 1);
        WaitStep(board, ws, acts, j - 2);
        WaitStep(board, ws, acts, j - 1);
      } else {
        WaitSpends(board, ws, acts, i, j - 1);
        StillPending(board, ws, acts, i, j - 1);
        WaitStep(board, ws, acts, j - 1);
      }
    }
  }

  // As long as a request waits, at most WaitLeft passes have gone by since it came.
  lemma WaitBounded(board: Board, ws: seq<World>, acts: seq<Action>, i: nat, j: nat)
    requires Behaviour(board, ws, acts) && UptimeFlows(acts) && GapsFit(board.settings) && InPasses(acts)
    requires 0 < i <= j <= |acts| && acts[i - 1].Cloud? && WaitsFrom(ws, acts, i, j)
    requires forall x :: i <= x < j ==> PromptAt(board, ws, acts, x)
    ensures Polls(acts, i, j) <= WaitLeft(board, ws, acts, i)
  {
    hide Step, Enabled, Boot, Joint, InCycle, PromptAt, WaitLeft, Starts, FillsSlot;
    if j > i {
      forall x | i <= x < j - 1 && InCycle(ws[x]) ensures InCycle(ws[x + 1]) {
        StillPending(board, ws, acts, i, x);
        if !InCycle(ws[x + 1]) {
          ExitStarts(board, ws, acts, x);
        }
      }
      assert FollowsAt(acts, j - 1);
      StillPending(board, ws, acts, i, j - 1);
      if acts[j - 1].Dispatch? {
        WaitSpends(board, ws, acts, i, j - 1);
      } else if InCycle(ws[j - 1]) && !InCycle(ws[j]) {
        ExitStarts(board, ws, acts, j - 1);
        WaitSpends(board, ws, acts, i, j - 1);
      } else {
        WaitSpends(board, ws, acts, i, j);
      }
    }
  }

  // ----- On the bus -----

  // The batch on the bus is that of `request`: the same header, started with the same lines.
  ghost predicate OnBusAs(w: World, request: Header) {
    && w.dev.exec.phase != Idle && SameHeader(request, w.dev.exec.header)
    && w.batch.request == request.lines
  }

  // Its result is taken: it is published, or dropped as too large.
  ghost predicate Serves(w: World, a: Action, request: Header) {
    a.Result? && w.dev.exec.phase == Done && !w.dev.exec.header.emergency && OnBusAs(w, request)
  }

  lemma StartsOnBus(w: World, board: Board, a: Action, d: int, sent: nat, last: int)
    requires Joint(w) && Enabled(w, a) && Starts(w, a) && |w.dev.pending.value.lines| <= MAX_LINES_PER_ARRAY
    requires d <= last + 1 + LongestGap(board.settings)
    ensures var w' := Step(w, board, a);
            && OnBusAs(w', w.dev.pending.value) && Ready(w'.dev.exec)
            && Effort(w'.dev.exec, board.settings, DeadlineAfter(w, board, a, d), sent, last) <= PerSet(board.settings)
  {
    hide Started, Effort, PerSet, NextKey, StoreOk, RunIsCurrent, Shape, LongestGap, SetStarted;
    var h := w.dev.pending.value;
    JointReady(w);
    StartedEffort(w.dev.exec, h, Wrap(a.ms), board.settings, d, sent, last);
    StartedShape(w.dev.exec, h, Wrap(a.ms));
    StartedRuns(w.dev.exec, h, Wrap(a.ms));
    var e' := Started(w.dev.exec, h, Wrap(a.ms));
    if e'.phase == Done {
      DoneEffort(e', board.settings, DeadlineAfter(w, board, a, d), sent, last);
    }
  }

  lemma StaysOnBus(w: World, board: Board, a: Action, request: Header)
    requires Joint(w) && Enabled(w, a) && OnBusAs(w, request) && !request.emergency && !a.Reboot?
    requires !Serves(w, a, request)
    ensures OnBusAs(Step(w, board, a), request)
    ensures w.dev.exec.phase == Done ==> !a.Dispatch? && Step(w, board, a).dev.exec.phase == Done
  {
    hide Polled, FieldsHandled, RequestOf, ResultHandled, PersistTurned, Ticked, StoreOk, RunIsCurrent, DoneUpTo,
         UntouchedFrom, IsResult;
    if a.Poll? {
      PolledShape(w.batch, w.dev.exec, board.settings, w.dev.uart + a.arrived, Wrap(a.gate), Wrap(a.done));
      PolledPhase(w.dev.exec, board.settings, w.dev.uart + a.arrived, Wrap(a.gate), Wrap(a.done));
      DonePolled(w.dev.exec, board.settings, w.dev.uart + a.arrived, Wrap(a.gate), Wrap(a.done));
    }
  }

  lemma DonePolled(e: Exec, s: Settings, uart: seq<byte>, now: u32, later: u32)
    requires Ready(e)
    ensures e.phase == Done ==> Polled(e, s, uart, now, later).exec == e
  {}

  // A finished batch is polled at most once before its result is taken: in the pass that started it.
  lemma PolledWhileDone(board: Board, ws: seq<World>, acts: seq<Action>, x: nat, p: nat, request: Header)
    requires Behaviour(board, ws, acts) && InPasses(acts) && x + 1 < p < |acts| && acts[p].Poll?
    requires !acts[p - 1].Reboot? && !Serves(ws[p - 1], acts[p - 1], request)
    requires OnBusAs(ws[p - 1], request) && !request.emergency
    ensures Busy(ws[p].dev.exec)
  {
    hide Step, Boot, Joint, SameHeader, Serves;
    assert FollowsAt(acts, p);
    assert ws[p] == Step(ws[p - 1], board, acts[p - 1]);
    JointAlways(board, ws, acts, p - 1);
    StaysOnBus(ws[p - 1], board, acts[p - 1], request);
    if Busy(ws[p - 1].dev.exec) {
      BusyUntouched(ws[p - 1], board, acts[p - 1]);
    }
  }

  lemma {:induction false} ServedSpends(board: Board, ws: seq<World>, acts: seq<Action>, x: nat, j: nat,
                                        request: Header)
    requires Behaviour(board, ws, acts) && UptimeFlows(acts) && GapsFit(board.settings) && InPasses(acts)
    requires x < j <= |acts| && OnBusAs(ws[x + 1], request) && !request.emergency
    requires forall y :: x < y < j ==> !acts[y].Reboot? && !Serves(ws[y], acts[y], request)
    requires forall y :: x < y < j ==> PromptAt(board, ws, acts, y)
    ensures OnBusAs(ws[j], request)
    ensures Polls(acts, x + 1, j) + EffortAt(board, ws, acts, j) <=
            EffortAt(board, ws, acts, x + 1) + (if j > x + 1 && !Busy(ws[x + 1].dev.exec) then 1 else 0)
    decreases j
  {
    hide Step, Enabled, Boot, Joint, PromptAt, Serves, EffortAt, SameHeader;
    if j > x + 1 {
      var p := j - 1;
      ServedSpends(board, ws, acts, x, p, request);
      JointAlways(board, ws, acts, p);
      assert ws[j] == Step(ws[p], board, acts[p]);
      assert !Serves(ws[p], acts[p], request);
      StaysOnBus(ws[p], board, acts[p], request);
      if Busy(ws[p].dev.exec) {
        EffortStep(board, ws, acts, p);
      } else {
        IdleEffort(board, ws, acts, p);
        IdleEffort(board, ws, acts, j);
        if acts[p].Poll? && p > x + 1 {
          ServedSpends(board, ws, acts, x, p - 1, request);
          PolledWhileDone(board, ws, acts, x, p, request);
        }
      }
    }
  }

  // ----- Every request -----

  lemma {:induction false} PollsSplit(acts: seq<Action>, i: nat, x: nat, j: nat)
    requires i <= x <= j <= |acts|
    ensures Polls(acts, i, j) == Polls(acts, i, x) + Polls(acts, x, j)
    decreases j
  {
    if x < j {
      PollsSplit(acts, i, x, j - 1);
    }
  }

  lemma {:induction false} FirstStart(ws: seq<World>, acts: seq<Action>, i: nat, j: nat) returns (x: nat)
    requires i <= j <= |acts| < |ws| && exists y :: i <= y < j && Starts(ws[y], acts[y])
    ensures i <= x < j && Starts(ws[x], acts[x])
    ensures forall y :: i <= y < x ==> !Starts(ws[y], acts[y])
    decreases j
  {
    hide Starts;
    if y :| i <= y < j - 1 && Starts(ws[y], acts[y]) {
      x := FirstStart(ws, acts, i, j - 1);
    } else {
      x := j - 1;
    }
  }

  lemma TakesSlot(w: World, board: Board, a: Action, request: Header)
    requires Enabled(w, a) && a.Cloud? && RequestOf(a.payload) == Some(request)
    ensures Step(w, board, a).dev.pending == Some(request) && !request.emergency
    ensures |request.lines| <= MAX_LINES_PER_ARRAY
  {
    hide FieldsHandled, HeaderOf;
    HeaderOfWf(a.payload);
  }

  // From its start to its result a request takes at most PerSet + 1 passes.
  lemma StartedServed(board: Board, ws: seq<World>, acts: seq<Action>, x: nat, j: nat, request: Header)
    requires Behaviour(board, ws, acts) && UptimeFlows(acts) && GapsFit(board.settings) && InPasses(acts)
    requires x < j <= |acts| && Starts(ws[x], acts[x]) && ws[x].dev.pending == Some(request)
    requires !request.emergency && |request.lines| <= MAX_LINES_PER_ARRAY
    requires forall y :: x < y < j ==> !acts[y].Reboot? && !Serves(ws[y], acts[y], request)
    requires forall y :: x < y < j ==> PromptAt(board, ws, acts, y)
    ensures Polls(acts, x + 1, j) <= PerSet(board.settings) + 1
  {
    hide Step, Boot, Joint, PromptAt, Serves, PerSet, OnBusAs, Effort, DeadlineAfter, LongestGap;
    JointAlways(board, ws, acts, x);
    if x > 0 {
      assert FollowsAt(acts, x);
    }
    DeadlineNear(board, ws, acts, x);
    assert ws[x + 1] == Step(ws[x], board, acts[x]);
    StartsOnBus(ws[x], board, acts[x], Deadline(board, ws, acts, x), SentAt(board, ws, acts, x), LastPoll(acts, x));
    ServedSpends(board, ws, acts, x, j, request);
  }

  // The request goes on the bus at x, nothing else does until z, and there its result is taken.
  ghost predicate ServedAt(ws: seq<World>, acts: seq<Action>, request: Header, x: nat, z: nat)
    requires x < z < |acts| < |ws|
  {
    && Starts(ws[x], acts[x]) && ws[x].dev.pending == Some(request)
    && (forall y :: x < y <= z ==> OnBusAs(ws[y], request))
    && Serves(ws[z], acts[z], request)
  }

  lemma {:induction false} FirstServe(ws: seq<World>, acts: seq<Action>, x: nat, j: nat, request: Header)
    returns (z: nat)
    requires x < j <= |acts| < |ws| && exists y :: x < y < j && Serves(ws[y], acts[y], request)
    ensures x < z < j && Serves(ws[z], acts[z], request)
    ensures forall y :: x < y < z ==> !Serves(ws[y], acts[y], request)
    decreases j
  {
    hide Serves;
    if y :| x < y < j - 1 && Serves(ws[y], acts[y], request) {
      z := FirstServe(ws, acts, x, j - 1, request);
    } else {
      z := j - 1;
    }
  }

  // A request that has started is served, or at most PerSet + 1 passes have gone by since.
  lemma ServedOrRecent(board: Board, ws: seq<World>, acts: seq<Action>, x: nat, j: nat, request: Header)
    requires Behaviour(board, ws, acts) && UptimeFlows(acts) && GapsFit(board.settings) && InPasses(acts)
    requires x < j <= |acts| && Starts(ws[x], acts[x]) && ws[x].dev.pending == Some(request)
    requires !request.emergency && |request.lines| <= MAX_LINES_PER_ARRAY
    requires forall y :: x < y < j ==> !acts[y].Reboot?
    requires forall y :: x < y < j ==> PromptAt(board, ws, acts, y)
    ensures Polls(acts, x + 1, j) <= PerSet(board.settings) + 1
            || exists z :: x < z < j && ServedAt(ws, acts, request, x, z)
  {
    hide Step, Enabled, Boot, Joint, PromptAt, PerSet, Starts, Serves, OnBusAs;
    if exists y :: x < y < j && Serves(ws[y], acts[y], request) {
      var z := FirstServe(ws, acts, x, j, request);
      JointAlways(board, ws, acts, x);
      assert ws[x + 1] == Step(ws[x], board, acts[x]);
      OnBusAtStart(ws[x], board, acts[x]);
      forall y | x < y <= z ensures OnBusAs(ws[y], request) {
        ServedSpends(board, ws, acts, x, y, request);
      }
      assert ServedAt(ws, acts, request, x, z);
    } else {
      StartedServed(board, ws, acts, x, j, request);
    }
  }

  lemma OnBusAtStart(w: World, board: Board, a: Action)
    requires Joint(w) && Enabled(w, a) && Starts(w, a)
    ensures OnBusAs(Step(w, board, a), w.dev.pending.value)
  {
    hide Started, NextKey, StoreOk, RunIsCurrent, Shape, SetStarted;
    JointReady(w);
    StartedShape(w.dev.exec, w.dev.pending.value, Wrap(a.ms));
    StartedRuns(w.dev.exec, w.dev.pending.value, Wrap(a.ms));
  }

  // An accepted request that no other replaces before it starts is itself started and served within
  // so many prompt passes: those of a running or coming emergency cycle and of the batch on the bus,
  // and PerSet + 1 of its own.
  lemma RequestServed(board: Board, ws: seq<World>, acts: seq<Action>, i: nat, j: nat, request: Header)
    requires Behaviour(board, ws, acts) && UptimeFlows(acts) && GapsFit(board.settings) && InPasses(acts)
    requires 0 < i <= j <= |acts| && acts[i - 1].Cloud? && RequestOf(acts[i - 1].payload) == Some(request)
    requires forall x :: i <= x < j ==> !acts[x].Reboot?
    requires forall x :: i <= x < j && FillsSlot(acts[x]) ==> exists y :: i <= y < x && Starts(ws[y], acts[y])
    requires forall x :: i <= x < j ==> PromptAt(board, ws, acts, x)
    ensures Polls(acts, i, j) > WaitLeft(board, ws, acts, i) + PerSet(board.settings) + 1
            ==> exists x, z :: i <= x < z < j && ServedAt(ws, acts, request, x, z)
  {
    hide Step, Enabled, Boot, Joint, PromptAt, WaitLeft, PerSet, Starts, FillsSlot, ServedAt;
    assert ws[i] == Step(ws[i - 1], board, acts[i - 1]);
    TakesSlot(ws[i - 1], board, acts[i - 1], request);
    if exists y :: i <= y < j && Starts(ws[y], acts[y]) {
      var x := FirstStart(ws, acts, i, j);
      WaitBounded(board, ws, acts, i, x);
      StillPending(board, ws, acts, i, x);
      ServedOrRecent(board, ws, acts, x, j, request);
      StartNoPoll(ws, acts, i, x, j);
    } else {
      WaitBounded(board, ws, acts, i, j);
    }
  }

  lemma StartNoPoll(ws: seq<World>, acts: seq<Action>, i: nat, x: nat, j: nat)
    requires i <= x < j <= |acts| < |ws| && Starts(ws[x], acts[x])
    ensures Polls(acts, i, j) == Polls(acts, i, x) + Polls(acts, x + 1, j)
  {
    PollsSplit(acts, i, x, j);
    PollsSplit(acts, x, x + 1, j);
  }

  // Being served is a response with the outcome of these very lines: with the log exactly when the
  // request asks for it and the response with it is under the cap, without it when only that is, and
  // none when neither is.
  lemma ServesPublishes(w: World, board: Board, a: Action, request: Header)
    requires Joint(w) && Enabled(w, a) && Serves(w, a, request)
    ensures w.batch.request == request.lines && IsResult(w.batch, w.dev.exec.header.lines)
    ensures var response := request.(lines := w.dev.exec.header.lines);
            var before, after := w.dev.outbox, Step(w, board, a).dev.outbox;
            var full := board.responseSize(response, Some(a.log)) < 5119;
            var bare := board.responseSize(response, None) < 5119;
            var asked := request.sendLastLog.Some? && request.sendLastLog.value != 0;
            && (after == before + [Response(response, Some(a.log))] <==> asked && full)
            && (after == before + [Response(response, None)] <==> !(asked && full) && bare)
            && (after == before <==> !(asked && full) && !bare)
  {
    hide StoreOk, RunIsCurrent, IsResult, DoneUpTo, UntouchedFrom, PublishedBy;
    var response := request.(lines := w.dev.exec.header.lines);
    assert response == w.dev.exec.header;
    OneOfThree(w.dev.outbox, Response(response, Some(a.log)), Response(response, None));
    PublishedResponds(w.dev.(exec := w.dev.exec.(phase := Idle)), board, w.dev.exec.header, a.log);
  }

  lemma OneOfThree(before: seq<Response>, x: Response, y: Response)
    requires x != y
    ensures before + [x] != before + [y] && before + [x] != before && before + [y] != before
  {
    assert (before + [x])[|before|] == x && (before + [y])[|before|] == y;
    assert |before + [x]| == |before| + 1 == |before + [y]|;
  }
}
