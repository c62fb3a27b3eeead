// The whole device as one transition system, and the invariant that ties its machines together.
//
// An action is one step of the main loop or one callback. Times are unbounded: the firmware sees
// a millisecond count through Wrap, and the wall clock only once it is synced.

module System {

  import opened Options
  import opened Clock
  import opened Crc
  import opened Hex
  import opened Keys
  import opened Protocol
  import opened Executor
  import opened Batches
  import opened Stores
  import opened Manager
  import opened Dongle

  // The true UTC time, and whether the device has it.
  datatype WallClock = WallClock(seconds: Epoch, synced: bool)

  function Reading(wall: WallClock): Option<Epoch> { if wall.synced then Some(wall.seconds) else None }

  datatype Action =
    | Cloud(payload: Payload, wall: WallClock, io: NvsIo)
    | Result(ms: nat, io: NvsIo, log: string)
    | Dispatch(ms: nat)
    | Poll(gate: nat, done: nat, arrived: seq<byte>)
    | Check(ms: nat, retryMs: nat, wall: WallClock)
    | Toggle(on: bool, io: NvsIo)
    | Reboot(switchOn: bool, io: NvsIo)

  // The device with the history of the batch on its bus.
  datatype World = World(dev: Device, batch: Batch)

  const NO_BATCH := Batch([], map[])

  ghost function Boot(board: Board, nvs: Option<Json>, switchOn: bool, io: NvsIo): World {
    World(PoweredOn(board, nvs, switchOn, io), NO_BATCH)
  }

  // loop() takes a result before it starts the next batch.
  predicate Enabled(w: World, a: Action) {
    Ready(w.dev.exec) && (a.Dispatch? ==> w.dev.exec.phase != Done)
  }

  function BusEventOf(w: World, board: Board, a: Action): BusEvent
    requires Enabled(w, a)
  {
    if a.Poll? then Polled(w.dev.exec, board.settings, w.dev.uart + a.arrived, Wrap(a.gate), Wrap(a.done)).event
    else Quiet
  }

  ghost function Step(w: World, board: Board, a: Action): World
    requires Enabled(w, a)
  {
    match a
    case Cloud(payload, wall, io) => w.(dev := CloudArrived(w.dev, board, payload, Reading(wall), io))
    case Result(ms, io, log) => w.(dev := ResultTaken(w.dev, board, Wrap(ms), io, log))
    case Dispatch(ms) =>
      World(Dispatched(w.dev, Wrap(ms)),
            if ToStart(w.dev).Some? then Batch(ToStart(w.dev).value.lines, map[]) else w.batch)
    case Poll(gate, done, arrived) =>
      World(BusPolled(w.dev.(uart := w.dev.uart + arrived), board, Wrap(gate), Wrap(done)),
            Heard(w.batch, w.dev.exec, BusEventOf(w, board, a)))
    case Check(ms, retryMs, wall) =>
      w.(dev := ManagerTicked(w.dev, board, Reading(wall), Wrap(ms), Wrap(retryMs)))
    case Toggle(on, io) => w.(dev := SwitchTurned(w.dev, board, on, io))
    case Reboot(switchOn, io) => Boot(board, w.dev.mgr.store.nvs, switchOn, io)
  }

  // ----- Behaviours -----

  // A run from power-on: one world more than actions.
  ghost predicate Behaviour(board: Board, ws: seq<World>, acts: seq<Action>) {
    && |ws| == |acts| + 1
    && (exists nvs, switchOn, io :: ws[0] == Boot(board, nvs, switchOn, io))
    && forall i :: 0 <= i < |acts| ==> Enabled(ws[i], acts[i]) && ws[i + 1] == Step(ws[i], board, acts[i])
  }

  lemma BytesWait(d: Device, board: Board, uart: seq<byte>, now: u32, start: u32, io: NvsIo, log: string)
    ensures var d1 := ResultTaken(d, board, now, io, log);
            && ResultTaken(d.(uart := uart), board, now, io, log) == d1.(uart := uart)
            && Dispatched(d1.(uart := uart), start) == Dispatched(d1, start).(uart := uart)
            && d1.uart == d.uart && Dispatched(d1, start).uart == d.uart
  {
    hide ResultHandled, Started, SetStarted, NextKey, ResponseFor;
  }

  // One pass of loop() is the four steps in a row.
  lemma LoopIsFourSteps(w: World, board: Board, t: seq<nat>, wall: WallClock, io: NvsIo, log: string,
                        arrived: seq<byte>)
    requires |t| == 6 && Ready(w.dev.exec)
    ensures var w1 := Step(w, board, Result(t[0], io, log));
            && Enabled(w1, Dispatch(t[1]))
            && var w2 := Step(w1, board, Dispatch(t[1]));
               && Enabled(w2, Poll(t[2], t[3], arrived))
               && var w3 := Step(w2, board, Poll(t[2], t[3], arrived));
                  && Enabled(w3, Check(t[4], t[5], wall))
                  && Step(w3, board, Check(t[4], t[5], wall)).dev
                     == LoopPassed(w.dev.(uart := w.dev.uart + arrived), board,
                                   Readings(Wrap(t[0]), Wrap(t[1]), Wrap(t[2]), Wrap(t[3]), Wrap(t[4]), Wrap(t[5])),
                                   Reading(wall), io, log)
  {
    var d1 := ResultTaken(w.dev, board, Wrap(t[0]), io, log);
    ResultReady(w.dev, board, Wrap(t[0]), io, log);
    DispatchedReady(d1, Wrap(t[1]));
    var d2 := Dispatched(d1, Wrap(t[1]));
    var uart := w.dev.uart + arrived;
    BytesWait(w.dev, board, uart, Wrap(t[0]), Wrap(t[1]), io, log);
    StaysReady(d2.exec, board.settings, uart, Wrap(t[2]), Wrap(t[3]));
    hide Polled, ResultTaken, Dispatched, ToStart, Ticked, Ready;
  }

  lemma ResultReady(d: Device, board: Board, now: u32, io: NvsIo, log: string)
    requires Ready(d.exec)
    ensures var d1 := ResultTaken(d, board, now, io, log); Ready(d1.exec) && d1.exec.phase != Done
  {
    hide ResultHandled, ResponseFor;
  }

  // The four parts of a pass follow one another; messages, switch turns and reboots come in between
  // passes, and a reboot may cut one short.
  predicate PassOrder(a: Action, b: Action) {
    b.Reboot? || ((a.Result? <==> b.Dispatch?) && (a.Dispatch? <==> b.Poll?) && (a.Poll? <==> b.Check?))
  }

  predicate FollowsAt(acts: seq<Action>, i: nat)
    requires 0 < i < |acts|
  {
    PassOrder(acts[i - 1], acts[i])
  }

  // The runs in which loop() is never interrupted, as on a single main task.
  predicate InPasses(acts: seq<Action>) {
    && (|acts| > 0 ==> !acts[0].Dispatch? && !acts[0].Poll? && !acts[0].Check?)
    && forall i :: 0 < i < |acts| ==> FollowsAt(acts, i)
  }

  // ----- The joint invariant -----

  // The revision on the bus belongs to its key and to no other.
  ghost predicate RunIsCurrent(m: Mgr) {
    && 1 <= m.currentRevision <= m.store.next
    && forall k :: k in m.store.revisions && m.store.revisions[k] == m.currentRevision ==> k == m.currentKey
  }

  ghost predicate Joint(w: World) {
    var d, m := w.dev, w.dev.mgr;
    && StoreOk(m.store)
    && Shape(w.batch, d.exec)
    && (m.state == Executing <==> d.exec.phase != Idle && d.exec.header.emergency)
    && (m.state == Empty ==> m.store.sets == map[])
    && (m.state in {Armed, Queued, Backoff} ==> m.store.sets != map[])
    && (m.state == Executing ==> RunIsCurrent(m))
    && (d.pending.Some? ==> !d.pending.value.emergency)
  }

  lemma JointAtBoot(board: Board, nvs: Option<Json>, switchOn: bool, io: NvsIo)
    ensures Joint(Boot(board, nvs, switchOn, io))
  {
    hide StoreOk, SetsOf, SetsJson;
    var st := PersistTurned(Reset(nvs), true, board.codec, io);
    assert st.nvs == nvs && st == Reset(nvs).(persist := true);
    LoadedOk(nvs, board.codec, io, true, 0);
    StoreOkReset(nvs);
  }

  lemma StoreOkReset(nvs: Option<Json>)
    ensures StoreOk(Reset(nvs))
  {}

  lemma LinesStoredJoint(m: Mgr, key: string, lines: seq<Line>, codec: Codec, io: NvsIo)
    requires StoreOk(m.store) && NulFree(key) && WfLines(lines)
    requires m.state == Executing ==> RunIsCurrent(m)
    ensures var m' := LinesStored(m, key, lines, codec, io);
            && StoreOk(m'.store)
            && (m'.state == Executing <==> m.state == Executing)
            && (m'.state == Empty ==> m'.store.sets == map[])
            && (m'.state in {Armed, Queued, Backoff} ==> m'.store.sets != map[])
            && (m'.state == Executing ==> RunIsCurrent(m'))
  {
    hide WfSets, WfLines, NulFree, SameContent, Synced;
    ReplacedOk(m.store, key, lines);
    SyncedOk(Replaced(m.store, key, lines), codec, io);
  }

  lemma InvSetupJoint(m: Mgr, wall: Option<Epoch>)
    ensures var m' := InvSetupSeen(m, wall);
            && m'.store == m.store && m'.currentKey == m.currentKey && m'.currentRevision == m.currentRevision
            && (m'.state == m.state || (m.state == Backoff && m'.state == Armed))
  {}

  lemma CloudJoint(w: World, board: Board, a: Action)
    requires Joint(w) && Enabled(w, a) && a.Cloud?
    ensures Joint(Step(w, board, a))
  {
    hide Shape, StoreOk, LinesStored, InvSetupSeen, HeaderOf;
    match RequestOf(a.payload)
    case None =>
    case Some(h) =>
      HeaderOfWf(a.payload);
      KeyNulFree(h);
      var m1 := if CarriesInvSetup(h) then InvSetupSeen(w.dev.mgr, Reading(a.wall)) else w.dev.mgr;
      InvSetupJoint(w.dev.mgr, Reading(a.wall));
      if h.linesOnNoInvSetup.Some? {
        LinesStoredJoint(m1, KeyOf(h), h.linesOnNoInvSetup.value, board.codec, a.io);
      }
  }

  lemma ResultHandledJoint(m: Mgr, cfg: Config, lines: seq<Line>, now: u32, codec: Codec, io: NvsIo)
    requires StoreOk(m.store)
    ensures var m' := ResultHandled(m, cfg, lines, now, codec, io);
            && StoreOk(m'.store) && m'.state in {Queued, Empty, Armed, Backoff}
            && (m'.state == Empty <==> m'.store.sets == map[])
  {
    hide StoreOk, Synced, Delivered, Less;
    RemovedOk(m.store, m.currentKey);
    SyncedStoreOk(Removed(m.store, m.currentKey), codec, io);
    var m1 := ResultStored(m, lines, codec, io);
    if Above(m1.store.sets.Keys, m1.currentKey) != {} {
      var k :| k in Above(m1.store.sets.Keys, m1.currentKey);
      assert k in m1.store.sets;
    }
  }

  lemma ResultJoint(w: World, board: Board, a: Action)
    requires Joint(w) && Enabled(w, a) && a.Result?
    ensures Joint(Step(w, board, a))
  {
    hide StoreOk, ResultHandled, RunIsCurrent, DoneUpTo, UntouchedFrom, IsResult, ResponseFor;
    var m := w.dev.mgr;
    ResultHandledJoint(m, board.config, w.dev.exec.header.lines, Wrap(a.ms), board.codec, a.io);
  }

  lemma SyncedStoreOk(st: Store, codec: Codec, io: NvsIo)
    requires StoreOk(st)
    ensures StoreOk(Synced(st, codec, io))
  {
    hide RevisionsOk, WfSets;
    SyncedOk(st, codec, io);
  }

  lemma DispatchJoint(w: World, board: Board, a: Action)
    requires Joint(w) && Enabled(w, a) && a.Dispatch?
    ensures Joint(Step(w, board, a))
  {
    hide Started, DoneUpTo, UntouchedFrom, IsResult, WfSets, Next, Decoded;
    var d := w.dev;
    if ToStart(d).Some? {
      StartedShape(d.exec, ToStart(d).value, Wrap(a.ms));
      StartedRuns(d.exec, ToStart(d).value, Wrap(a.ms));
    }
  }

  lemma StartedRuns(e: Exec, header: Header, later: u32)
    ensures Started(e, header, later).phase in {Gap, Done}
    ensures Started(e, header, later).header.emergency == header.emergency
  {}

  lemma PollJoint(w: World, board: Board, a: Action)
    requires Joint(w) && Enabled(w, a) && a.Poll?
    ensures Joint(Step(w, board, a))
  {
    hide Polled, DoneUpTo, UntouchedFrom, IsResult, StoreOk, RunIsCurrent, Decoded;
    PolledShape(w.batch, w.dev.exec, board.settings, w.dev.uart + a.arrived, Wrap(a.gate), Wrap(a.done));
    PolledPhase(w.dev.exec, board.settings, w.dev.uart + a.arrived, Wrap(a.gate), Wrap(a.done));
  }

  lemma PolledPhase(e: Exec, s: Settings, uart: seq<byte>, now: u32, later: u32)
    requires Ready(e)
    ensures Polled(e, s, uart, now, later).exec.phase == Idle <==> e.phase == Idle
  {}

  lemma CheckJoint(w: World, board: Board, a: Action)
    requires Joint(w) && Enabled(w, a) && a.Check?
    ensures Joint(Step(w, board, a))
  {
    hide Shape, StoreOk, Due, Reached, Elapsed;
  }

  lemma ToggleJoint(w: World, board: Board, a: Action)
    requires Joint(w) && Enabled(w, a) && a.Toggle?
    ensures Joint(Step(w, board, a))
  {
    hide Shape, StoreOk, SetsJson;
    var st := w.dev.mgr.store;
    StoreOkOnly(st, PersistTurned(st, a.on, board.codec, a.io));
  }

  lemma StoreOkOnly(st: Store, st': Store)
    requires StoreOk(st)
    requires st'.sets == st.sets && st'.revisions == st.revisions && st'.next == st.next
    ensures StoreOk(st')
  {
    hide WfSets, RevisionsOk;
  }

  // Every action keeps the joint invariant.
  lemma StepKeepsJoint(w: World, board: Board, a: Action)
    requires Joint(w) && Enabled(w, a)
    ensures Joint(Step(w, board, a))
  {
    hide Joint, Step, Enabled;
    match a
    case Cloud(_, _, _) => CloudJoint(w, board, a);
    case Result(_, _, _) => ResultJoint(w, board, a);
    case Dispatch(_) => DispatchJoint(w, board, a);
    case Poll(_, _, _) => PollJoint(w, board, a);
    case Check(_, _, _) => CheckJoint(w, board, a);
    case Toggle(_, _) => ToggleJoint(w, board, a);
    case Reboot(switchOn, io) => RebootJoint(w, board, a);
  }

  // ----- What happens to the store -----

  // A result that the manager handles.
  predicate FinishesRun(w: World, a: Action) {
    a.Result? && w.dev.exec.phase == Done && w.dev.exec.header.emergency
  }

  // A result with which everything stored is delivered.
  ghost predicate Completes(w: World, a: Action, w': World) { FinishesRun(w, a) && w'.dev.mgr.state == Empty }

  ghost function StoreAfterCloud(st: Store, payload: Payload, codec: Codec, io: NvsIo): Store {
    if RequestOf(payload).Some? && RequestOf(payload).value.linesOnNoInvSetup.Some? then
      var h := RequestOf(payload).value;
      var st1 := Replaced(st, KeyOf(h), h.linesOnNoInvSetup.value);
      if Changes(st, KeyOf(h), h.linesOnNoInvSetup.value) then Synced(st1, codec, io) else st1
    else st
  }

  lemma CloudStore(w: World, board: Board, a: Action)
    requires Enabled(w, a) && a.Cloud?
    ensures Step(w, board, a).dev.mgr.store == StoreAfterCloud(w.dev.mgr.store, a.payload, board.codec, a.io)
  {
    hide Replaced, Changes, Synced, RequestOf, KeyOf, CarriesInvSetup;
  }

  lemma ResultStore(w: World, board: Board, a: Action)
    requires Enabled(w, a) && a.Result?
    ensures Step(w, board, a).dev.mgr.store ==
            if FinishesRun(w, a) && Delivered(w.dev.exec.header.lines)
               && Revision(w.dev.mgr.store, w.dev.mgr.currentKey) == w.dev.mgr.currentRevision
            then Synced(Removed(w.dev.mgr.store, w.dev.mgr.currentKey), board.codec, a.io)
            else w.dev.mgr.store
  {
    hide Synced, Removed, Revision, Delivered, ResponseFor, Less;
  }

  lemma QuietStore(w: World, board: Board, a: Action)
    requires Enabled(w, a) && (a.Dispatch? || a.Poll? || a.Check?)
    ensures Step(w, board, a).dev.mgr.store == w.dev.mgr.store
  {
    hide Polled, Started, NextKey, Due, Reached, Elapsed;
  }

  lemma ToggleStore(w: World, board: Board, a: Action)
    requires Enabled(w, a) && a.Toggle?
    ensures Step(w, board, a).dev.mgr.store == PersistTurned(w.dev.mgr.store, a.on, board.codec, a.io)
  {
    hide PersistTurned;
  }

  // ----- What a cloud message does to the manager -----

  predicate IsInvSetup(a: Action) {
    a.Cloud? && RequestOf(a.payload).Some? && CarriesInvSetup(RequestOf(a.payload).value)
  }

  // Everything but the sets, with `spoke` for an InvSetup in the message.
  predicate CloudEffect(m: Mgr, m': Mgr, spoke: bool, wall: Option<Epoch>) {
    && m'.retryDelay == m.retryDelay && m'.retryAt == m.retryAt && m'.lastCheck == m.lastCheck
    && m'.walkFromStart == m.walkFromStart && m'.currentKey == m.currentKey
    && m'.currentRevision == m.currentRevision && m'.runs == m.runs && m'.delivered == m.delivered
    && m'.cloudBack == (m.cloudBack || (spoke && m.state in {Queued, Executing}))
    && m'.lastInvSetup == (if spoke && wall.Some? then wall.value else m.lastInvSetup)
    && m'.invAwaiting == (if spoke then wall.None? else m.invAwaiting)
    && m'.bootAwaiting == (m.bootAwaiting && !spoke)
    && (m'.state == Executing <==> m.state == Executing)
    && (m'.state == Backoff ==> m.state == Backoff && !spoke)
    && (m'.state == Queued ==> m.state == Queued)
    && (m.state == Queued ==> m'.state in {Queued, Empty})
  }

  lemma InvSetupEffect(m: Mgr, wall: Option<Epoch>)
    ensures CloudEffect(m, InvSetupSeen(m, wall), true, wall)
    ensures m.state == Queued ==> InvSetupSeen(m, wall).state == Queued
  {}

  lemma LinesStoredEffect(m: Mgr, m1: Mgr, spoke: bool, wall: Option<Epoch>, key: string, lines: seq<Line>,
                          codec: Codec, io: NvsIo)
    requires CloudEffect(m, m1, spoke, wall) && (m.state == Queued ==> m1.state == Queued)
    ensures CloudEffect(m, LinesStored(m1, key, lines, codec, io), spoke, wall)
  {
    hide Synced, Changes, Replaced;
  }

  lemma CloudEffectOf(w: World, board: Board, a: Action)
    requires Enabled(w, a) && a.Cloud?
    ensures CloudEffect(w.dev.mgr, Step(w, board, a).dev.mgr, IsInvSetup(a), Reading(a.wall))
  {
    hide InvSetupSeen, LinesStored, RequestOf, CarriesInvSetup, CloudEffect, KeyOf;
    var m := w.dev.mgr;
    NoEffect(m, Reading(a.wall));
    InvSetupEffect(m, Reading(a.wall));
    match RequestOf(a.payload)
    case None =>
    case Some(h) =>
      var m1 := if CarriesInvSetup(h) then InvSetupSeen(m, Reading(a.wall)) else m;
      if h.linesOnNoInvSetup.Some? {
        LinesStoredEffect(m, m1, CarriesInvSetup(h), Reading(a.wall), KeyOf(h), h.linesOnNoInvSetup.value, board.codec,
                          a.io);
      }
  }

  // The message carries a command set, or the empty one that clears it.
  predicate BringsLines(a: Action) {
    a.Cloud? && RequestOf(a.payload).Some? && RequestOf(a.payload).value.linesOnNoInvSetup.Some?
  }

  function StateAfterCloud(s: State, spoke: bool, listed: bool, empty: bool): State {
    var s1 := if spoke && s == Backoff then Armed else s;
    if !listed then s1
    else if empty then (if s1 == Executing then Executing else Empty)
    else if s1 == Empty then Armed else s1
  }

  lemma CloudStateOf(w: World, board: Board, a: Action)
    requires Enabled(w, a) && a.Cloud?
    ensures var m' := Step(w, board, a).dev.mgr;
            m'.state == StateAfterCloud(w.dev.mgr.state, IsInvSetup(a), BringsLines(a), m'.store.sets == map[])
  {
    hide FieldsHandled, RequestOf, CarriesInvSetup, StateAfterCloud;
    var m := w.dev.mgr;
    match RequestOf(a.payload)
    case None => NoMessageState(m.state, m.store.sets == map[]);
    case Some(h) => FieldsState(m, h, Reading(a.wall), board.codec, a.io);
  }

  lemma NoMessageState(s: State, empty: bool)
    ensures StateAfterCloud(s, false, false, empty) == s
  {}

  lemma FieldsState(m: Mgr, h: Header, wall: Option<Epoch>, codec: Codec, io: NvsIo)
    ensures var m' := FieldsHandled(m, h, wall, codec, io);
            m'.state == StateAfterCloud(m.state, CarriesInvSetup(h), h.linesOnNoInvSetup.Some?, m'.store.sets == map[])
  {
    hide Replaced, Changes, Synced, KeyOf, CarriesInvSetup;
  }

  lemma NoEffect(m: Mgr, wall: Option<Epoch>)
    ensures CloudEffect(m, m, false, wall)
  {}

  lemma RebootJoint(w: World, board: Board, a: Action)
    requires Enabled(w, a) && a.Reboot?
    ensures Joint(Step(w, board, a))
  {
    hide Joint, Boot;
    JointAtBoot(board, w.dev.mgr.store.nvs, a.switchOn, a.io);
  }

  // ... so it holds in every reachable state.
  lemma {:induction false} JointAlways(board: Board, ws: seq<World>, acts: seq<Action>, i: nat)
    requires Behaviour(board, ws, acts) && i < |ws|
    ensures Joint(ws[i])
  {
    hide Joint, Step, Enabled, Boot;
    if i == 0 {
      var nvs, switchOn, io :| ws[0] == Boot(board, nvs, switchOn, io);
      JointAtBoot(board, nvs, switchOn, io);
    } else {
      JointAlways(board, ws, acts, i - 1);
      StepKeepsJoint(ws[i - 1], board, acts[i - 1]);
    }
  }

  lemma JointReady(w: World)
    requires Joint(w)
    ensures Ready(w.dev.exec)
  {}

  // A batch is only ever started on an idle executor, so no result is overwritten; and a cloud
  // request only while no emergency cycle runs.
  lemma StartsFromIdle(board: Board, ws: seq<World>, acts: seq<Action>, i: nat)
    requires Behaviour(board, ws, acts) && i < |acts| && acts[i].Dispatch?
    requires ToStart(ws[i].dev).Some?
    ensures ws[i].dev.exec.phase == Idle
    ensures !ToStart(ws[i].dev).value.emergency ==> ws[i].dev.mgr.state !in {Queued, Executing}
  {
    hide Shape, StoreOk, RunIsCurrent, Step;
    JointAlways(board, ws, acts, i);
  }
}
