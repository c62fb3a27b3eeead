// An emergency send never starts once the cloud has spoken: every entry to QUEUED against all the
// InvSetup messages received so far, across clock syncs, cycles, retries and reboots.

module CloudBack {

  import opened Clock
  import opened Keys
  import opened Protocol
  import opened Executor
  import opened Batches
  import opened Stores
  import opened Manager
  import opened Dongle
  import opened System

  // ----- What really happened -----

  predicate HasWall(a: Action) { a.Cloud? || a.Check? }

  // True time never runs backwards.
  predicate TimeFlows(acts: seq<Action>) {
    forall i, j :: 0 <= i < j < |acts| && HasWall(acts[i]) && HasWall(acts[j]) ==>
                     acts[i].wall.seconds <= acts[j].wall.seconds
  }

  // The true receive time of the last InvSetup among the first j actions, whether or not the
  // device's clock was set; 0 for none.
  function LastInv(acts: seq<Action>, j: nat): nat
    requires j <= |acts|
  {
    if j == 0 then 0
    else if IsInvSetup(acts[j - 1]) then acts[j - 1].wall.seconds
    else LastInv(acts, j - 1)
  }

  ghost predicate EntersQueued(ws: seq<World>, acts: seq<Action>, j: nat)
    requires j < |acts| < |ws|
  {
    acts[j].Check? && ws[j].dev.mgr.state in {Armed, Backoff} && ws[j + 1].dev.mgr.state == Queued
  }

  // The top of the hour in which the episode of index j was triggered.
  ghost function EpisodeHour(ws: seq<World>, acts: seq<Action>, j: nat): int
    requires j <= |acts| < |ws|
  {
    if j == 0 then 0
    else if EntersQueued(ws, acts, j - 1) && ws[j - 1].dev.mgr.state == Armed
    then TopOfHour(acts[j - 1].wall.seconds)
    else EpisodeHour(ws, acts, j - 1)
  }

  // ----- What the device keeps of it -----

  // The stamp is never older than the last InvSetup, unless it is still to be set; and while a
  // retry may follow, none has come since the hour of the trigger began.
  ghost predicate Told(lastInv: nat, hour: int, m: Mgr) {
    && (m.lastInvSetup != 0 ==> lastInv <= m.lastInvSetup || m.invAwaiting)
    && (m.state == Backoff ==> lastInv < hour)
    && (m.state in {Queued, Executing} && !m.cloudBack ==> lastInv < hour)
  }

  lemma CloudTold(w: World, board: Board, a: Action, lastInv: nat, hour: int)
    requires Enabled(w, a) && a.Cloud? && Told(lastInv, hour, w.dev.mgr)
    requires lastInv <= a.wall.seconds
    ensures Told(if IsInvSetup(a) then a.wall.seconds else lastInv, hour, Step(w, board, a).dev.mgr)
  {
    hide Step, IsInvSetup;
    CloudEffectOf(w, board, a);
  }

  lemma ResultTold(w: World, board: Board, a: Action, lastInv: nat, hour: int)
    requires Enabled(w, a) && a.Result? && Joint(w) && Told(lastInv, hour, w.dev.mgr)
    ensures Told(lastInv, hour, Step(w, board, a).dev.mgr)
  {
    hide ResultStored, Delivered, Shape, StoreOk, RunIsCurrent, ResponseFor, Less;
    if FinishesRun(w, a) {
      ResultStoredStamp(w.dev.mgr, w.dev.exec.header.lines, board.codec, a.io);
    }
  }

  lemma ResultStoredStamp(m: Mgr, lines: seq<Line>, codec: Codec, io: NvsIo)
    ensures var m1 := ResultStored(m, lines, codec, io);
            && m1.lastInvSetup == m.lastInvSetup && m1.invAwaiting == m.invAwaiting && m1.cloudBack == m.cloudBack
            && m1.state == m.state
  {
    hide Synced, Delivered, Removed, Revision;
  }

  lemma DispatchTold(w: World, board: Board, a: Action, lastInv: nat, hour: int)
    requires Enabled(w, a) && a.Dispatch? && Told(lastInv, hour, w.dev.mgr)
    ensures Told(lastInv, hour, Step(w, board, a).dev.mgr)
  {
    hide Started, NextKey;
  }

  lemma CheckTold(w: World, board: Board, a: Action, lastInv: nat, hour: int)
    requires Enabled(w, a) && a.Check? && Told(lastInv, hour, w.dev.mgr)
    requires lastInv <= a.wall.seconds
    ensures var m' := Step(w, board, a).dev.mgr;
            var hour' := if w.dev.mgr.state == Armed && m'.state == Queued then TopOfHour(a.wall.seconds) else hour;
            && Told(lastInv, hour', m')
            && (w.dev.mgr.state in {Armed, Backoff} && m'.state == Queued ==> lastInv < hour')
  {
    hide MinuteOf, TopOfHour, Reached, Elapsed;
  }

  lemma OtherTold(w: World, board: Board, a: Action, lastInv: nat, hour: int)
    requires Enabled(w, a) && (a.Poll? || a.Toggle? || a.Reboot?) && Told(lastInv, hour, w.dev.mgr)
    ensures Told(lastInv, hour, Step(w, board, a).dev.mgr)
  {
    hide Polled, PersistTurned, Loaded, LoadedSome;
  }

  lemma {:induction false} LastInvBound(acts: seq<Action>, j: nat)
    requires TimeFlows(acts) && j <= |acts|
    ensures forall x :: 0 <= x < j && IsInvSetup(acts[x]) ==> acts[x].wall.seconds <= LastInv(acts, j)
    ensures forall x :: j <= x < |acts| && HasWall(acts[x]) ==> LastInv(acts, j) <= acts[x].wall.seconds
    ensures LastInv(acts, j) > 0 ==> exists x :: 0 <= x < j && IsInvSetup(acts[x])
  {
    hide RequestOf, CarriesInvSetup;
    if j > 0 {
      LastInvBound(acts, j - 1);
      assert IsInvSetup(acts[j - 1]) ==> HasWall(acts[j - 1]);
    }
  }

  lemma {:induction false} ToldAlways(board: Board, ws: seq<World>, acts: seq<Action>, j: nat)
    requires Behaviour(board, ws, acts) && TimeFlows(acts) && j <= |acts|
    ensures Told(LastInv(acts, j), EpisodeHour(ws, acts, j), ws[j].dev.mgr)
    ensures j > 0 && EntersQueued(ws, acts, j - 1) ==> LastInv(acts, j) < EpisodeHour(ws, acts, j)
  {
    hide Joint, Step, Enabled, IsInvSetup, Told, Boot, TopOfHour;
    if j == 0 {
      BootTold(board, ws[0]);
    } else {
      var w, a := ws[j - 1], acts[j - 1];
      ToldAlways(board, ws, acts, j - 1);
      JointAlways(board, ws, acts, j - 1);
      LastInvBound(acts, j - 1);
      var lastInv, hour := LastInv(acts, j - 1), EpisodeHour(ws, acts, j - 1);
      NoInvSetup(a);
      match a
      case Cloud(_, _, _) => CloudTold(w, board, a, lastInv, hour);
      case Result(_, _, _) => ResultTold(w, board, a, lastInv, hour);
      case Dispatch(_) => DispatchTold(w, board, a, lastInv, hour);
      case Check(_, _, _) => CheckTold(w, board, a, lastInv, hour);
      case Poll(_, _, _) => OtherTold(w, board, a, lastInv, hour);
      case Toggle(_, _) => OtherTold(w, board, a, lastInv, hour);
      case Reboot(_, _) => OtherTold(w, board, a, lastInv, hour);
    }
  }

  lemma NoInvSetup(a: Action)
    ensures IsInvSetup(a) ==> a.Cloud?
  {}

  lemma BootTold(board: Board, w: World)
    requires exists nvs, switchOn, io :: w == Boot(board, nvs, switchOn, io)
    ensures Told(0, 0, w.dev.mgr)
  {
    hide PersistTurned, Loaded, LoadedSome;
  }

  // Whenever a send is triggered or retried, no InvSetup at all has been received since the top of
  // the UTC hour of the episode's original trigger.
  lemma CloudBackSafety(board: Board, ws: seq<World>, acts: seq<Action>, j: nat)
    requires Behaviour(board, ws, acts) && TimeFlows(acts) && j < |acts| && EntersQueued(ws, acts, j)
    ensures forall x :: 0 <= x < j && IsInvSetup(acts[x]) ==>
                          acts[x].wall.seconds < EpisodeHour(ws, acts, j + 1)
    ensures ws[j].dev.mgr.state == Armed ==> EpisodeHour(ws, acts, j + 1) == TopOfHour(acts[j].wall.seconds)
    ensures ws[j].dev.mgr.state == Backoff ==> EpisodeHour(ws, acts, j + 1) == EpisodeHour(ws, acts, j)
  {
    hide Step, Enabled, Boot, TopOfHour, IsInvSetup;
    ToldAlways(board, ws, acts, j + 1);
    LastInvBound(acts, j + 1);
  }

  // ----- Late stamping -----

  // Sets came back from NVS at one of the boots so far.
  ghost predicate Restored(ws: seq<World>, acts: seq<Action>, j: nat)
    requires j <= |acts| < |ws|
  {
    exists x: nat :: x <= j && (x == 0 || acts[x - 1].Reboot?) && ws[x].dev.mgr.bootAwaiting
  }

  ghost predicate Stamped(heard: bool, restored: bool, m: Mgr) {
    m.lastInvSetup != 0 || m.invAwaiting || m.bootAwaiting ==> heard || restored
  }

  lemma StampNeedsCause(w: World, board: Board, a: Action, heard: bool, restored: bool)
    requires Enabled(w, a) && Stamped(heard, restored, w.dev.mgr)
    ensures var m' := Step(w, board, a).dev.mgr;
            Stamped(heard || IsInvSetup(a), restored || (a.Reboot? && m'.bootAwaiting), m')
  {
    hide Synced, Changes, Replaced, RequestOf, Trim, Polled, PersistTurned, Loaded, LoadedSome, Delivered, Removed,
         Started, NextKey, ResponseFor, Due, Reached, Elapsed;
  }

  lemma {:induction false} StampedAlways(board: Board, ws: seq<World>, acts: seq<Action>, j: nat)
    requires Behaviour(board, ws, acts) && TimeFlows(acts) && j <= |acts|
    ensures Stamped(LastInv(acts, j) > 0, Restored(ws, acts, j), ws[j].dev.mgr)
  {
    hide Step, Enabled, Boot, IsInvSetup;
    if j == 0 {
      BootStamped(board, ws[0]);
    } else {
      StampedAlways(board, ws, acts, j - 1);
      StampNeedsCause(ws[j - 1], board, acts[j - 1], LastInv(acts, j - 1) > 0, Restored(ws, acts, j - 1));
      NoInvSetup(acts[j - 1]);
    }
  }

  lemma BootStamped(board: Board, w: World)
    requires exists nvs, switchOn, io :: w == Boot(board, nvs, switchOn, io)
    ensures w.dev.mgr.lastInvSetup == 0 && !w.dev.mgr.invAwaiting
  {
    hide PersistTurned, Loaded, LoadedSome;
  }

  // A device that always knew the true receive times would have fired too: replacing an unknown
  // receive time by the moment of the clock sync only ever delays the trigger. The one trigger
  // without any InvSetup is that of sets restored from NVS at a boot.
  lemma NeverFiresEarly(board: Board, ws: seq<World>, acts: seq<Action>, j: nat)
    requires Behaviour(board, ws, acts) && TimeFlows(acts) && j < |acts|
    requires EntersQueued(ws, acts, j) && ws[j].dev.mgr.state == Armed
    ensures LastInv(acts, j) > 0 ==>
              Due(LastInv(acts, j), board.config.minuteThreshold, acts[j].wall.seconds)
    ensures LastInv(acts, j) == 0 ==> Restored(ws, acts, j)
  {
    hide Boot, MinuteOf, TopOfHour, IsInvSetup, Reached, Elapsed;
    ToldAlways(board, ws, acts, j);
    StampedAlways(board, ws, acts, j);
    assert Due(ws[j].dev.mgr.lastInvSetup, board.config.minuteThreshold, acts[j].wall.seconds);
  }
}
