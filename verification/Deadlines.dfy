// When a silent hour triggers the send: exactly at the first check after the hour's deadline.

module Deadlines {

  import opened Options
  import opened Clock
  import opened Protocol
  import opened Executor
  import opened Batches
  import opened Stores
  import opened Manager
  import opened Dongle
  import opened System
  import opened CloudBack

  // The first second at which an InvSetup at `t` counts as overdue: `threshold` full minutes and
  // one more into the next UTC hour.
  function DueFrom(t: Epoch, threshold: nat): int { TopOfHour(t) + 3600 + 60 * (threshold + 1) }

  lemma HourOf(ts: Epoch)
    ensures TopOfHour(ts) <= ts < TopOfHour(ts) + 3600
    ensures TopOfHour(ts) == 3600 * (ts / 3600)
    ensures 0 <= MinuteOf(ts) <= 59
    ensures 60 * MinuteOf(ts) <= ts - TopOfHour(ts) < 60 * MinuteOf(ts) + 60
  {}

  // Never due before, and due from then to the end of that hour.
  lemma DueWindow(t: Epoch, threshold: nat, ts: Epoch)
    requires threshold <= 58
    ensures Due(t, threshold, ts) ==> DueFrom(t, threshold) <= ts
    ensures DueFrom(t, threshold) <= ts < TopOfHour(t) + 7200 ==> Due(t, threshold, ts)
  {
    hide MinuteOf, TopOfHour;
    HourOf(t);
    HourOf(ts);
  }

  // ----- Which thresholds can fire -----

  // The configuration accepts 0 to 59; 59 disables the emergency sends.
  lemma DuePossible(threshold: nat)
    ensures (exists t: nat, ts: Epoch :: Due(t, threshold, ts)) <==> threshold <= 58
  {
    if threshold <= 58 {
      assert Due(1, threshold, 3600 + 59 * 60);
    } else {
      forall t: nat, ts: Epoch ensures !Due(t, threshold, ts) {
        HourOf(ts);
      }
    }
  }

  lemma {:induction false} Threshold59NeverSends(board: Board, ws: seq<World>, acts: seq<Action>, j: nat)
    requires Behaviour(board, ws, acts) && j <= |acts| && board.config.minuteThreshold >= 59
    ensures ws[j].dev.mgr.state in {Empty, Armed}
  {
    hide Step, Enabled, Boot, Joint;
    if j == 0 {
      BootNotInCycle(board, ws[0]);
    } else {
      Threshold59NeverSends(board, ws, acts, j - 1);
      JointAlways(board, ws, acts, j - 1);
      StaysOut(ws[j - 1], board, acts[j - 1]);
    }
  }

  lemma BootNotInCycle(board: Board, w: World)
    requires exists nvs, switchOn, io :: w == Boot(board, nvs, switchOn, io)
    ensures w.dev.mgr.state in {Empty, Armed}
  {
    hide PersistTurned, Loaded, LoadedSome;
  }

  lemma StaysOut(w: World, board: Board, a: Action)
    requires Joint(w) && Enabled(w, a) && board.config.minuteThreshold >= 59 && w.dev.mgr.state in {Empty, Armed}
    ensures Step(w, board, a).dev.mgr.state in {Empty, Armed}
  {
    hide Polled, PersistTurned, Loaded, LoadedSome, Started, NextKey, Due, Reached, Elapsed, ResponseFor, Shape,
         StoreOk, RunIsCurrent, FieldsHandled, RequestOf, IsInvSetup;
    if a.Cloud? {
      CloudEffectOf(w, board, a);
    } else if a.Check? && a.wall.synced {
      HourOf(a.wall.seconds);
      DuePossible(board.config.minuteThreshold);
    }
  }

  // ----- What the stamp is -----

  // A check that looks at the clock.
  predicate Tests(w: World, a: Action) {
    a.Check? && a.wall.synced && Elapsed(Wrap(a.ms), w.dev.mgr.lastCheck, CHECK_INTERVAL_MS)
  }

  // Whether the stamp is still to be set: after an InvSetup on a clock that was not set, and after
  // a boot that restored sets, up to the first clocked check of an armed device.
  ghost predicate AwaitsAfter(w: World, a: Action, w': World, awaits: bool) {
    if a.Reboot? then w'.dev.mgr.state == Armed
    else if IsInvSetup(a) then !a.wall.synced
    else awaits && !(Tests(w, a) && w.dev.mgr.state == Armed)
  }

  // The stamp is the last InvSetup on a set clock, or that first clocked check; a complete delivery
  // and a reboot forget it.
  ghost function StampAfter(w: World, a: Action, w': World, awaits: bool, stamp: nat): nat {
    if a.Reboot? then 0
    else if IsInvSetup(a) && a.wall.synced then a.wall.seconds
    else if Tests(w, a) && w.dev.mgr.state == Armed && awaits then a.wall.seconds
    else if Completes(w, a, w') then 0
    else stamp
  }

  ghost predicate AwaitsAt(ws: seq<World>, acts: seq<Action>, j: nat)
    requires j <= |acts| < |ws|
  {
    if j == 0 then ws[0].dev.mgr.state == Armed
    else AwaitsAfter(ws[j - 1], acts[j - 1], ws[j], AwaitsAt(ws, acts, j - 1))
  }

  ghost function StampAt(ws: seq<World>, acts: seq<Action>, j: nat): nat
    requires j <= |acts| < |ws|
  {
    if j == 0 then 0
    else StampAfter(ws[j - 1], acts[j - 1], ws[j], AwaitsAt(ws, acts, j - 1), StampAt(ws, acts, j - 1))
  }

  predicate Known(m: Mgr, awaits: bool, stamp: nat) {
    m.lastInvSetup == stamp && ((m.invAwaiting || m.bootAwaiting) <==> awaits)
  }

  lemma CloudKnown(w: World, board: Board, a: Action, awaits: bool, stamp: nat)
    requires Enabled(w, a) && a.Cloud? && Known(w.dev.mgr, awaits, stamp)
    ensures var w' := Step(w, board, a);
            Known(w'.dev.mgr, AwaitsAfter(w, a, w', awaits), StampAfter(w, a, w', awaits, stamp))
  {
    hide Step, IsInvSetup;
    CloudEffectOf(w, board, a);
  }

  lemma ResultKnown(w: World, board: Board, a: Action, awaits: bool, stamp: nat)
    requires Joint(w) && Enabled(w, a) && a.Result? && Known(w.dev.mgr, awaits, stamp)
    ensures var w' := Step(w, board, a);
            Known(w'.dev.mgr, AwaitsAfter(w, a, w', awaits), StampAfter(w, a, w', awaits, stamp))
  {
    hide ResultStored, Delivered, Shape, StoreOk, RunIsCurrent, ResponseFor;
    if FinishesRun(w, a) {
      ResultStoredStamp(w.dev.mgr, w.dev.exec.header.lines, board.codec, a.io);
      ResultStoredAwaiting(w.dev.mgr, w.dev.exec.header.lines, board.codec, a.io);
    }
  }

  lemma ResultStoredAwaiting(m: Mgr, lines: seq<Line>, codec: Codec, io: NvsIo)
    ensures ResultStored(m, lines, codec, io).bootAwaiting == m.bootAwaiting
  {
    hide Synced, Delivered, Removed, Revision;
  }

  lemma CheckKnown(w: World, board: Board, a: Action, awaits: bool, stamp: nat)
    requires Joint(w) && Enabled(w, a) && a.Check? && Known(w.dev.mgr, awaits, stamp)
    ensures var w' := Step(w, board, a);
            Known(w'.dev.mgr, AwaitsAfter(w, a, w', awaits), StampAfter(w, a, w', awaits, stamp))
  {
    hide Due, Reached, Elapsed, Shape, StoreOk, RunIsCurrent;
  }

  lemma OtherKnown(w: World, board: Board, a: Action, awaits: bool, stamp: nat)
    requires Enabled(w, a) && (a.Dispatch? || a.Poll? || a.Toggle?) && Known(w.dev.mgr, awaits, stamp)
    ensures var w' := Step(w, board, a);
            Known(w'.dev.mgr, AwaitsAfter(w, a, w', awaits), StampAfter(w, a, w', awaits, stamp))
  {
    hide Polled, PersistTurned, Started, NextKey;
  }

  lemma BootKnown(board: Board, nvs: Option<Json>, switchOn: bool, io: NvsIo)
    ensures var m := Boot(board, nvs, switchOn, io).dev.mgr; Known(m, m.state == Armed, 0)
  {
    hide PersistTurned, Loaded, LoadedSome;
  }

  // The stamp and the wait for the clock are these, in every reachable state.
  lemma {:induction false} StampKnown(board: Board, ws: seq<World>, acts: seq<Action>, j: nat)
    requires Behaviour(board, ws, acts) && j <= |acts|
    ensures Known(ws[j].dev.mgr, AwaitsAt(ws, acts, j), StampAt(ws, acts, j))
  {
    hide Step, Enabled, Boot, Joint, Known, AwaitsAfter, StampAfter;
    if j == 0 {
      var nvs, switchOn, io :| ws[0] == Boot(board, nvs, switchOn, io);
      BootKnown(board, nvs, switchOn, io);
    } else {
      var w, a := ws[j - 1], acts[j - 1];
      var awaits, stamp := AwaitsAt(ws, acts, j - 1), StampAt(ws, acts, j - 1);
      StampKnown(board, ws, acts, j - 1);
      JointAlways(board, ws, acts, j - 1);
      match a
      case Cloud(_, _, _) => CloudKnown(w, board, a, awaits, stamp);
      case Result(_, _, _) => ResultKnown(w, board, a, awaits, stamp);
      case Dispatch(_) => OtherKnown(w, board, a, awaits, stamp);
      case Poll(_, _, _) => OtherKnown(w, board, a, awaits, stamp);
      case Check(_, _, _) => CheckKnown(w, board, a, awaits, stamp);
      case Toggle(_, _) => OtherKnown(w, board, a, awaits, stamp);
      case Reboot(_, _) => RebootKnown(w, board, a, awaits, stamp);
    }
  }

  lemma RebootKnown(w: World, board: Board, a: Action, awaits: bool, stamp: nat)
    requires Enabled(w, a) && a.Reboot?
    ensures var w' := Step(w, board, a);
            Known(w'.dev.mgr, AwaitsAfter(w, a, w', awaits), StampAfter(w, a, w', awaits, stamp))
  {
    hide Boot;
    BootKnown(board, w.dev.mgr.store.nvs, a.switchOn, a.io);
  }

  // ----- When a check fires -----

  lemma TestFires(w: World, board: Board, a: Action, awaits: bool, stamp: nat)
    requires Joint(w) && Enabled(w, a) && Tests(w, a) && w.dev.mgr.state == Armed && Known(w.dev.mgr, awaits, stamp)
    ensures var fires := !awaits && Due(stamp, board.config.minuteThreshold, a.wall.seconds);
            Step(w, board, a).dev.mgr.state == if fires then Queued else Armed
  {
    hide Due, Elapsed, Shape, StoreOk, RunIsCurrent;
  }

  // In every reachable state, a clocked check of an armed device fires exactly when the stamp is
  // known and overdue.
  lemma FiresWhenDue(board: Board, ws: seq<World>, acts: seq<Action>, j: nat)
    requires Behaviour(board, ws, acts) && j < |acts| && ws[j].dev.mgr.state == Armed && Tests(ws[j], acts[j])
    ensures acts[j].Check?
    ensures var fires := !AwaitsAt(ws, acts, j)
                         && Due(StampAt(ws, acts, j), board.config.minuteThreshold, acts[j].wall.seconds);
            ws[j + 1].dev.mgr.state == if fires then Queued else Armed
  {
    hide Step, Enabled, Boot, Joint, Known, Due, Elapsed, AwaitsAt, StampAt;
    StampKnown(board, ws, acts, j);
    JointAlways(board, ws, acts, j);
    assert ws[j + 1] == Step(ws[j], board, acts[j]);
    TestFires(ws[j], board, acts[j], AwaitsAt(ws, acts, j), StampAt(ws, acts, j));
  }

  // Without a stamp, and with nothing awaited, no send is ever triggered before the next InvSetup
  // or reboot, whatever the cloud stores.
  lemma {:induction false} SilentWithoutStamp(board: Board, ws: seq<World>, acts: seq<Action>, i: nat, j: nat)
    requires Behaviour(board, ws, acts) && i <= j <= |acts|
    requires StampAt(ws, acts, i) == 0 && !AwaitsAt(ws, acts, i) && ws[i].dev.mgr.state in {Empty, Armed}
    requires forall x :: i <= x < j ==> !IsInvSetup(acts[x]) && !acts[x].Reboot?
    ensures ws[j].dev.mgr.state in {Empty, Armed} && StampAt(ws, acts, j) == 0 && !AwaitsAt(ws, acts, j)
    decreases j
  {
    hide Step, Enabled, Boot, Joint, Known, IsInvSetup, Completes;
    if i < j {
      SilentWithoutStamp(board, ws, acts, i, j - 1);
      StampKnown(board, ws, acts, j - 1);
      JointAlways(board, ws, acts, j - 1);
      assert ws[j] == Step(ws[j - 1], board, acts[j - 1]);
      SilentStep(ws[j - 1], board, acts[j - 1]);
    }
  }

  lemma SilentStep(w: World, board: Board, a: Action)
    requires Joint(w) && Enabled(w, a) && w.dev.mgr.state in {Empty, Armed} && Known(w.dev.mgr, false, 0)
    requires !IsInvSetup(a) && !a.Reboot?
    ensures Step(w, board, a).dev.mgr.state in {Empty, Armed}
  {
    hide Polled, PersistTurned, Started, NextKey, Reached, Elapsed, ResponseFor, Shape, StoreOk, RunIsCurrent,
         FieldsHandled, RequestOf, IsInvSetup;
    if a.Cloud? {
      CloudEffectOf(w, board, a);
    }
  }

  // ----- The documented rule -----

  // Past the threshold minute, an InvSetup seen before and none this hour: the device should send.
  // Once an InvSetup was seen, an armed device does as documented at a check exactly when, if the
  // rule says send, its stamp is known, not forgotten, and of an earlier hour. With none ever seen
  // the rule never says send, and only a device that restored sets from NVS does.
  lemma DocumentedRule(board: Board, ws: seq<World>, acts: seq<Action>, j: nat)
    requires Behaviour(board, ws, acts) && TimeFlows(acts) && j < |acts|
    requires ws[j].dev.mgr.state == Armed && Tests(ws[j], acts[j])
    ensures acts[j].Check?
    ensures var ts := acts[j].wall.seconds;
            var says := Due(LastInv(acts, j), board.config.minuteThreshold, ts);
            var sends := ws[j + 1].dev.mgr.state == Queued;
            if LastInv(acts, j) != 0 then
              (sends <==> says) <==>
              (says ==> !AwaitsAt(ws, acts, j) && 0 < StampAt(ws, acts, j) < TopOfHour(ts))
            else
              !says && (sends ==> Restored(ws, acts, j))
  {
    hide Step, Enabled, Boot, IsInvSetup, Elapsed, Reached, MinuteOf, TopOfHour, AwaitsAt, StampAt, Restored;
    FiresWhenDue(board, ws, acts, j);
    if ws[j + 1].dev.mgr.state == Queued {
      NeverFiresEarly(board, ws, acts, j);
    }
  }

  // Everything stored was delivered since the last InvSetup.
  ghost predicate CompletedSince(ws: seq<World>, acts: seq<Action>, j: nat)
    requires j <= |acts| < |ws|
  {
    j > 0 && !IsInvSetup(acts[j - 1])
    && (Completes(ws[j - 1], acts[j - 1], ws[j]) || CompletedSince(ws, acts, j - 1))
  }

  predicate ClockAlwaysSet(acts: seq<Action>) {
    forall i :: 0 <= i < |acts| && HasWall(acts[i]) ==> acts[i].wall.synced
  }

  lemma {:induction false} StampOnSetClock(board: Board, ws: seq<World>, acts: seq<Action>, j: nat)
    requires Behaviour(board, ws, acts) && j <= |acts| && ClockAlwaysSet(acts) && ws[0].dev.mgr.state == Empty
    requires forall x :: 0 <= x < j ==> !acts[x].Reboot?
    ensures !AwaitsAt(ws, acts, j)
    ensures StampAt(ws, acts, j) == if CompletedSince(ws, acts, j) then 0 else LastInv(acts, j)
  {
    hide Step, Enabled, Boot, IsInvSetup, Tests, Completes;
    if j > 0 {
      StampOnSetClock(board, ws, acts, j - 1);
      NoInvSetup(acts[j - 1]);
      InvSetupCompletesNothing(ws[j - 1], acts[j - 1], ws[j]);
    }
  }

  lemma InvSetupCompletesNothing(w: World, a: Action, w': World)
    ensures Completes(w, a, w') ==> a.Result?
  {}

  // So on a clock that is always set, from a boot without stored sets on, the device does as
  // documented at a check exactly when the rule does not say send or not everything was delivered
  // since the last InvSetup: after a complete delivery a new set waits for the next InvSetup.
  lemma DocumentedRuleOnSetClock(board: Board, ws: seq<World>, acts: seq<Action>, j: nat)
    requires Behaviour(board, ws, acts) && j < |acts| && ClockAlwaysSet(acts) && ws[0].dev.mgr.state == Empty
    requires forall x :: 0 <= x < j ==> !acts[x].Reboot?
    requires ws[j].dev.mgr.state == Armed && Tests(ws[j], acts[j])
    ensures acts[j].Check?
    ensures var says := Due(LastInv(acts, j), board.config.minuteThreshold, acts[j].wall.seconds);
            ws[j + 1].dev.mgr.state == Queued <==> says && !CompletedSince(ws, acts, j)
  {
    hide Step, Enabled, Boot, IsInvSetup, Elapsed, MinuteOf, TopOfHour, AwaitsAt, StampAt, CompletedSince;
    FiresWhenDue(board, ws, acts, j);
    StampOnSetClock(board, ws, acts, j);
  }

  // ----- One wait -----

  // Armed from a to j, with a stamp that nothing replaces.
  ghost predicate Waits(ws: seq<World>, acts: seq<Action>, a: nat, j: nat)
    requires a <= j <= |acts| < |ws|
  {
    && StampAt(ws, acts, a) != 0 && !AwaitsAt(ws, acts, a)
    && (forall x :: a <= x <= j ==> ws[x].dev.mgr.state == Armed)
    && (forall x :: a <= x < j ==> !IsInvSetup(acts[x]) && !acts[x].Reboot?)
  }

  // The last check among a..j-1, or `since` before the first one.
  ghost function LastTest(ws: seq<World>, acts: seq<Action>, a: nat, since: nat, j: nat): nat
    requires a <= j <= |acts| < |ws|
    decreases j
  {
    if j == a then since
    else if Tests(ws[j - 1], acts[j - 1]) then acts[j - 1].wall.seconds
    else LastTest(ws, acts, a, since, j - 1)
  }

  // Checks among a..j-1 come at most d seconds apart, the first at most d after `since`.
  ghost predicate ChecksWithin(ws: seq<World>, acts: seq<Action>, a: nat, since: nat, j: nat, d: nat)
    requires a <= j <= |acts| < |ws|
  {
    forall x :: a <= x < j && Tests(ws[x], acts[x]) ==> acts[x].wall.seconds - LastTest(ws, acts, a, since, x) <= d
  }

  lemma {:induction false} StampStays(board: Board, ws: seq<World>, acts: seq<Action>, a: nat, j: nat)
    requires Behaviour(board, ws, acts) && a <= j <= |acts| && Waits(ws, acts, a, j)
    ensures StampAt(ws, acts, j) == StampAt(ws, acts, a) && !AwaitsAt(ws, acts, j)
    decreases j
  {
    hide Step, Enabled, Boot, IsInvSetup, Tests;
    if a < j {
      StampStays(board, ws, acts, a, j - 1);
    }
  }

  // As long as it waits, every check so far came before the deadline.
  lemma {:induction false} NotYet(board: Board, ws: seq<World>, acts: seq<Action>, a: nat, since: nat, j: nat, d: nat)
    requires Behaviour(board, ws, acts) && a <= j <= |acts| && Waits(ws, acts, a, j)
    requires board.config.minuteThreshold <= 58 && d <= 60 && ChecksWithin(ws, acts, a, since, j, d)
    requires since < DueFrom(StampAt(ws, acts, a), board.config.minuteThreshold)
    ensures LastTest(ws, acts, a, since, j) < DueFrom(StampAt(ws, acts, a), board.config.minuteThreshold)
    decreases j
  {
    hide Step, Enabled, Boot, IsInvSetup, Due, TopOfHour, Tests, AwaitsAt, StampAt;
    if a < j {
      NotYet(board, ws, acts, a, since, j - 1, d);
      if Tests(ws[j - 1], acts[j - 1]) {
        StampStays(board, ws, acts, a, j - 1);
        FiresWhenDue(board, ws, acts, j - 1);
        DueWindow(StampAt(ws, acts, a), board.config.minuteThreshold, acts[j - 1].wall.seconds);
        assert acts[j - 1].wall.seconds - LastTest(ws, acts, a, since, j - 1) <= d;
      }
    }
  }

  // A device that is armed before the deadline of its stamp t - however it got there - triggers
  // exactly at its first check at or after DueFrom(t): no earlier than t + 60 (m + 1), and, with
  // checks at most d <= 60 seconds apart, no later than t + 3600 + 60 (m + 1) + d.
  lemma FiresExactly(board: Board, ws: seq<World>, acts: seq<Action>, a: nat, since: nat, j: nat, d: nat)
    requires Behaviour(board, ws, acts) && a <= j < |acts| && Waits(ws, acts, a, j) && Tests(ws[j], acts[j])
    requires since < DueFrom(StampAt(ws, acts, a), board.config.minuteThreshold)
    requires board.config.minuteThreshold <= 58 && d <= 60 && ChecksWithin(ws, acts, a, since, j + 1, d)
    ensures acts[j].Check?
    ensures var t, ts, m := StampAt(ws, acts, a), acts[j].wall.seconds, board.config.minuteThreshold;
            && (ws[j + 1].dev.mgr.state == Queued <==> DueFrom(t, m) <= ts)
            && (ws[j + 1].dev.mgr.state == Queued ==> t + 60 * (m + 1) < ts < DueFrom(t, m) + d)
            && t + 60 * (m + 1) < DueFrom(t, m) <= t + 3600 + 60 * (m + 1)
            && (ws[j + 1].dev.mgr.state != Queued ==> ws[j + 1].dev.mgr.state == Armed)
  {
    hide Step, Enabled, Boot, IsInvSetup, Due, TopOfHour, Tests, AwaitsAt, StampAt;
    NotYet(board, ws, acts, a, since, j, d);
    StampStays(board, ws, acts, a, j);
    FiresWhenDue(board, ws, acts, j);
    DueWindow(StampAt(ws, acts, a), board.config.minuteThreshold, acts[j].wall.seconds);
    HourOf(StampAt(ws, acts, a));
  }
}
