// Every cloud request is accounted for, and the responses leave in the order the requests came.

module Requests {

  import opened Options
  import opened Clock
  import opened Protocol
  import opened Executor
  import opened Batches
  import opened Stores
  import opened Manager
  import opened Dongle
  import opened System

  // ----- The journal of one boot -----

  // A published response: which accepted request it answers, and how its batch went on the bus.
  datatype Publication = Publication(id: nat, batch: Batch)

  // `running` is the request the cloud batch on the bus belongs to.
  datatype Journal = Journal(received: nat, rejected: nat, replaced: nat, dropped: nat,
                             accepted: seq<Header>, running: nat, published: seq<Publication>)

  const BLANK := Journal(0, 0, 0, 0, [], 0, [])

  predicate Running(w: World) { w.dev.exec.phase != Idle && !w.dev.exec.header.emergency }

  function CloudNoted(w: World, a: Action, t: Journal): Journal
    requires a.Cloud?
  {
    var t1 := t.(received := t.received + 1);
    match RequestOf(a.payload)
    case None => t1.(rejected := t.rejected + 1)
    case Some(h) =>
      t1.(accepted := t.accepted + [h], replaced := t.replaced + if w.dev.pending.Some? then 1 else 0)
  }

  ghost function ResultNoted(w: World, board: Board, a: Action, t: Journal): Journal
    requires a.Result?
  {
    if w.dev.exec.phase != Done || w.dev.exec.header.emergency then t
    else if ResponseFor(board, w.dev.exec.header, a.log).None? then t.(dropped := t.dropped + 1)
    else t.(published := t.published + [Publication(t.running, w.batch)])
  }

  ghost function Noted(w: World, board: Board, a: Action, t: Journal): Journal {
    match a
    case Cloud(_, _, _) => CloudNoted(w, a, t)
    case Result(_, _, _) => ResultNoted(w, board, a, t)
    case Dispatch(_) =>
      if ToStart(w.dev).Some? && !ToStart(w.dev).value.emergency && |t.accepted| > 0
      then t.(running := |t.accepted| - 1) else t
    case Poll(_, _, _) => t
    case Check(_, _, _) => t
    case Toggle(_, _) => t
    case Reboot(_, _) => BLANK
  }

  ghost function JournalAt(board: Board, ws: seq<World>, acts: seq<Action>, j: nat): Journal
    requires j <= |acts| < |ws|
  {
    if j == 0 then BLANK else Noted(ws[j - 1], board, acts[j - 1], JournalAt(board, ws, acts, j - 1))
  }

  // ----- What the journal says of the device -----

  function Count(b: bool): nat { if b then 1 else 0 }

  predicate Conserved(w: World, t: Journal) {
    && t.received == t.rejected + t.replaced + Count(w.dev.pending.Some?) + Count(Running(w))
                     + |t.published| + t.dropped
    && w.dev.received == Wrap(t.received) && w.dev.handled == Wrap(|t.published|)
    && |w.dev.outbox| == |t.published|
  }

  // `response` is the outcome of executing `request`, and of nothing else.
  ghost predicate Answers(request: Header, batch: Batch, response: Header) {
    && !response.emergency && SameHeader(request, response)
    && batch.request == request.lines && IsResult(batch, response.lines)
  }

  // Ids below this one are neither pending nor still to come.
  function IdsTaken(w: World, t: Journal): int { |t.accepted| - Count(w.dev.pending.Some?) }

  ghost predicate AnsweredInOrder(w: World, t: Journal) {
    && (w.dev.pending.Some? ==> |t.accepted| > 0 && t.accepted[|t.accepted| - 1] == w.dev.pending.value)
    && (Running(w) ==>
          && t.running < IdsTaken(w, t) && SameHeader(t.accepted[t.running], w.dev.exec.header)
          && w.batch.request == t.accepted[t.running].lines)
    && |w.dev.outbox| == |t.published|
    && (forall x, y :: 0 <= x < y < |t.published| ==> t.published[x].id < t.published[y].id)
    && forall x :: 0 <= x < |t.published| ==>
         && t.published[x].id < (if Running(w) then t.running else IdsTaken(w, t))
         && Answers(t.accepted[t.published[x].id], t.published[x].batch, w.dev.outbox[x].header)
  }

  // ----- Every step -----

  lemma CloudKeeps(w: World, board: Board, a: Action, t: Journal)
    requires Joint(w) && Enabled(w, a) && a.Cloud? && Conserved(w, t) && AnsweredInOrder(w, t)
    ensures Conserved(Step(w, board, a), CloudNoted(w, a, t)) && AnsweredInOrder(Step(w, board, a), CloudNoted(w, a, t))
  {
    hide FieldsHandled, RequestOf, Answers, Joint, Ready, SameHeader;
    WrapAdd(t.received, 1);
  }

  lemma ResultKeeps(w: World, board: Board, a: Action, t: Journal)
    requires Joint(w) && Enabled(w, a) && a.Result? && Conserved(w, t) && AnsweredInOrder(w, t)
    ensures Conserved(Step(w, board, a), ResultNoted(w, board, a, t))
    ensures AnsweredInOrder(Step(w, board, a), ResultNoted(w, board, a, t))
  {
    hide ResultHandled, IsResult, StoreOk, RunIsCurrent, Ready, ResponseFor, Wrap;
    WrapAdd(|t.published|, 1);
    ResponseHeader(board, w.dev.exec.header, a.log);
  }

  lemma ResponseHeader(board: Board, header: Header, log: string)
    ensures ResponseFor(board, header, log).Some? ==> ResponseFor(board, header, log).value.header == header
  {}

  lemma DispatchKeeps(w: World, board: Board, a: Action, t: Journal)
    requires Joint(w) && Enabled(w, a) && a.Dispatch? && Conserved(w, t) && AnsweredInOrder(w, t)
    ensures Conserved(Step(w, board, a), Noted(w, board, a, t))
    ensures AnsweredInOrder(Step(w, board, a), Noted(w, board, a, t))
  {
    hide Started, SetStarted, NextKey, Answers, StoreOk, RunIsCurrent, DoneUpTo, UntouchedFrom;
    if ToStart(w.dev).Some? {
      StartedShape(w.dev.exec, ToStart(w.dev).value, Wrap(a.ms));
      StartedRuns(w.dev.exec, ToStart(w.dev).value, Wrap(a.ms));
    }
  }

  lemma PollKeeps(w: World, board: Board, a: Action, t: Journal)
    requires Joint(w) && Enabled(w, a) && a.Poll? && Conserved(w, t) && AnsweredInOrder(w, t)
    ensures Conserved(Step(w, board, a), t) && AnsweredInOrder(Step(w, board, a), t)
  {
    hide Polled, Answers, StoreOk, RunIsCurrent, DoneUpTo, UntouchedFrom;
    PolledShape(w.batch, w.dev.exec, board.settings, w.dev.uart + a.arrived, Wrap(a.gate), Wrap(a.done));
    PolledPhase(w.dev.exec, board.settings, w.dev.uart + a.arrived, Wrap(a.gate), Wrap(a.done));
  }

  lemma OtherKeeps(w: World, board: Board, a: Action, t: Journal)
    requires Enabled(w, a) && (a.Check? || a.Toggle?) && Conserved(w, t) && AnsweredInOrder(w, t)
    ensures Conserved(Step(w, board, a), t) && AnsweredInOrder(Step(w, board, a), t)
  {
    hide Answers, Ticked, PersistTurned, Ready, SameHeader;
  }

  lemma BootKeeps(board: Board, nvs: Option<Json>, switchOn: bool, io: NvsIo)
    ensures Conserved(Boot(board, nvs, switchOn, io), BLANK) && AnsweredInOrder(Boot(board, nvs, switchOn, io), BLANK)
  {
    hide Booted;
  }

  lemma StepKeeps(w: World, board: Board, a: Action, t: Journal)
    requires Joint(w) && Enabled(w, a) && Conserved(w, t) && AnsweredInOrder(w, t)
    ensures Conserved(Step(w, board, a), Noted(w, board, a, t))
    ensures AnsweredInOrder(Step(w, board, a), Noted(w, board, a, t))
  {
    hide Joint, Enabled, Conserved, AnsweredInOrder, CloudArrived, ResultTaken, Dispatched, BusPolled, ManagerTicked,
         SwitchTurned,
         CloudNoted, ResultNoted, Boot;
    match a
    case Cloud(_, _, _) => CloudKeeps(w, board, a, t);
    case Result(_, _, _) => ResultKeeps(w, board, a, t);
    case Dispatch(_) => DispatchKeeps(w, board, a, t);
    case Poll(_, _, _) => PollKeeps(w, board, a, t);
    case Check(_, _, _) => OtherKeeps(w, board, a, t);
    case Toggle(_, _) => OtherKeeps(w, board, a, t);
    case Reboot(switchOn, io) => BootKeeps(board, w.dev.mgr.store.nvs, switchOn, io);
  }

  // ----- Every run -----

  // At every moment since the boot: received = rejected + replaced + pending + on the bus +
  // answered + dropped as oversized, and the device's own counters show these numbers mod 2^32.
  // Each response is the outcome of one accepted request, no two of the same, in acceptance order,
  // and none of them is an emergency result.
  lemma {:induction false} RequestsConserved(board: Board, ws: seq<World>, acts: seq<Action>, j: nat)
    requires Behaviour(board, ws, acts) && j <= |acts|
    ensures Conserved(ws[j], JournalAt(board, ws, acts, j)) && AnsweredInOrder(ws[j], JournalAt(board, ws, acts, j))
  {
    hide Joint, Step, Enabled, Boot, Conserved, AnsweredInOrder, Noted;
    if j == 0 {
      var nvs, switchOn, io :| ws[0] == Boot(board, nvs, switchOn, io);
      BootKeeps(board, nvs, switchOn, io);
    } else {
      RequestsConserved(board, ws, acts, j - 1);
      JointAlways(board, ws, acts, j - 1);
      StepKeeps(ws[j - 1], board, acts[j - 1], JournalAt(board, ws, acts, j - 1));
    }
  }
}
