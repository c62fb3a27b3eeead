// The send cycle is committed: from its trigger to its end it runs every set in key order, and no
// cloud request gets in between.

module Cycle {

  import opened Options
  import opened Clock
  import opened Keys
  import opened Protocol
  import opened Executor
  import opened Batches
  import opened Stores
  import opened Manager
  import opened Dongle
  import opened System

  predicate InCycle(w: World) { w.dev.mgr.state in {Queued, Executing} }

  // The set a step puts on the bus.
  ghost function StartedKey(w: World, a: Action): seq<string> {
    if a.Dispatch? && !Busy(w.dev.exec) && w.dev.mgr.state == Queued && NextKey(w.dev.mgr).Some?
    then [NextKey(w.dev.mgr).value] else []
  }

  // The key a cloud message clears.
  function ClearedBy(a: Action): set<string> {
    if a.Cloud? && RequestOf(a.payload).Some?
       && RequestOf(a.payload).value.linesOnNoInvSetup == Some([])
    then {KeyOf(RequestOf(a.payload).value)} else {}
  }

  // The sets run by actions i..j-1, in order.
  ghost function Ran(ws: seq<World>, acts: seq<Action>, i: nat, j: nat): seq<string>
    requires i <= j <= |acts| < |ws|
  {
    if i == j then [] else Ran(ws, acts, i, j - 1) + StartedKey(ws[j - 1], acts[j - 1])
  }

  // The keys the cloud cleared among actions i..j-1 before their set had run.
  ghost function ClearedUnrun(ws: seq<World>, acts: seq<Action>, i: nat, j: nat): set<string>
    requires i <= j <= |acts| < |ws|
  {
    if i == j then {}
    else ClearedUnrun(ws, acts, i, j - 1) + Unrun(ClearedBy(acts[j - 1]), Ran(ws, acts, i, j - 1))
  }

  function Unrun(keys: set<string>, ran: seq<string>): set<string> { set k | k in keys && k !in ran }

  // Where the walk stands: `ran` lies behind the current key, and whatever is still owed ahead.
  ghost predicate Walk(owed: set<string>, ran: seq<string>, m: Mgr) {
    && Ascending(ran)
    && (m.walkFromStart <==> |ran| == 0)
    && (|ran| > 0 ==> ran[|ran| - 1] == m.currentKey)
    && forall k :: k in owed ==> k in ran || (k in m.store.sets && (m.walkFromStart || Less(m.currentKey, k)))
  }

  ghost predicate Kept(owed: set<string>, ran: seq<string>, m: Mgr) {
    && Ascending(ran)
    && if m.state in {Queued, Executing} then Walk(owed, ran, m) else forall k :: k in owed ==> k in ran
  }

  lemma LinesStoredWalk(m: Mgr, key: string, lines: seq<Line>, codec: Codec, io: NvsIo,
                        owed: set<string>, ran: seq<string>)
    requires m.state in {Queued, Executing} && Walk(owed, ran, m)
    ensures Kept(owed - (if |lines| == 0 then {key} else {}), ran, LinesStored(m, key, lines, codec, io))
  {
    hide Synced, SameContent, Less, Ascending;
    SyncedOk(Replaced(m.store, key, lines), codec, io);
    var kept := LinesStored(m, key, lines, codec, io).store.sets;
    forall k | k in owed && !(|lines| == 0 && k == key) && k !in ran ensures k in kept {
      assert k in m.store.sets;
    }
  }

  lemma CloudKeepsWalk(w: World, board: Board, a: Action, owed: set<string>, ran: seq<string>)
    requires Enabled(w, a) && a.Cloud? && InCycle(w) && Walk(owed, ran, w.dev.mgr)
    ensures Kept(owed - ClearedBy(a), ran, Step(w, board, a).dev.mgr)
  {
    hide LinesStored, RequestOf, Less, Ascending, Trim;
    match RequestOf(a.payload)
    case None =>
    case Some(h) =>
      var m1 := if CarriesInvSetup(h) then InvSetupSeen(w.dev.mgr, Reading(a.wall)) else w.dev.mgr;
      assert m1.state in {Queued, Executing} && Walk(owed, ran, m1);
      if h.linesOnNoInvSetup.Some? {
        LinesStoredWalk(m1, KeyOf(h), h.linesOnNoInvSetup.value, board.codec, a.io, owed, ran);
      }
  }

  lemma DispatchKeepsWalk(w: World, board: Board, a: Action, owed: set<string>, ran: seq<string>)
    requires Joint(w) && Enabled(w, a) && a.Dispatch? && InCycle(w) && Walk(owed, ran, w.dev.mgr)
    ensures Kept(owed, ran + StartedKey(w, a), Step(w, board, a).dev.mgr)
  {
    hide Started, Less, Shape, StoreOk, RunIsCurrent, Ascending, IsFirst;
    var m := w.dev.mgr;
    assert ran + [] == ran;
    if !Busy(w.dev.exec) {
      var keys := if m.walkFromStart then m.store.sets.Keys else Above(m.store.sets.Keys, m.currentKey);
      assert forall l :: l in owed ==> l in ran || l in keys;
      match NextKey(m)
      case None => assert keys == {};
      case Some(k) =>
        AscendingExtends(ran, k);
        FirstBefore(keys, k);
        var ran' := ran + [k];
        assert ran'[|ran'| - 1] == k;
        forall l | l in owed ensures l in ran' || (l in m.store.sets && Less(k, l)) {
          if l in ran {
            assert l in ran';
          } else {
            assert l in keys;
          }
        }
    }
  }

  lemma FirstBefore(keys: set<string>, k: string)
    requires First(keys) == Some(k)
    ensures forall l :: l in keys && l != k ==> Less(k, l)
  {}

  lemma ResultStoredWalk(m: Mgr, lines: seq<Line>, codec: Codec, io: NvsIo, owed: set<string>, ran: seq<string>)
    requires Walk(owed, ran, m) && |ran| > 0
    ensures Walk(owed, ran, ResultStored(m, lines, codec, io))
  {
    hide Synced, Delivered, Less, Ascending;
    SyncedOk(Removed(m.store, m.currentKey), codec, io);
  }

  lemma CycleStepWalk(m: Mgr, cfg: Config, now: u32, owed: set<string>, ran: seq<string>)
    requires Walk(owed, ran, m) && |ran| > 0
    ensures Kept(owed, ran, CycleStep(m, cfg, now))
  {
    hide Less, Ascending;
    forall k | k in owed && k !in ran ensures k in Above(m.store.sets.Keys, m.currentKey) {}
  }

  lemma ResultKeepsWalk(w: World, board: Board, a: Action, owed: set<string>, ran: seq<string>)
    requires Joint(w) && Enabled(w, a) && a.Result? && InCycle(w) && Walk(owed, ran, w.dev.mgr)
    requires w.dev.mgr.state == Executing ==> |ran| > 0
    ensures Kept(owed, ran, Step(w, board, a).dev.mgr)
  {
    hide ResultStored, CycleStep, Less, Shape, StoreOk, RunIsCurrent, Ascending, ResponseFor, Walk;
    WalkAscends(owed, ran, w.dev.mgr);
    if w.dev.exec.phase == Done && w.dev.exec.header.emergency {
      var lines := w.dev.exec.header.lines;
      ResultStoredWalk(w.dev.mgr, lines, board.codec, a.io, owed, ran);
      CycleStepWalk(ResultStored(w.dev.mgr, lines, board.codec, a.io), board.config, Wrap(a.ms), owed, ran);
    }
  }

  lemma WalkAscends(owed: set<string>, ran: seq<string>, m: Mgr)
    requires Walk(owed, ran, m)
    ensures Ascending(ran)
  {}

  lemma StepKeepsWalk(w: World, board: Board, a: Action, owed: set<string>, ran: seq<string>)
    requires Joint(w) && Enabled(w, a) && InCycle(w) && Walk(owed, ran, w.dev.mgr) && !a.Reboot?
    requires w.dev.mgr.state == Executing ==> |ran| > 0
    ensures Kept(owed - Unrun(ClearedBy(a), ran), ran + StartedKey(w, a), Step(w, board, a).dev.mgr)
    ensures Step(w, board, a).dev.mgr.state == Executing ==> |ran + StartedKey(w, a)| > 0
  {
    hide Joint, Kept, Walk, StartedKey, ClearedBy, Step, Enabled;
    StepKeepsUncleared(w, board, a, owed, ran);
    RunStaysRun(owed, ClearedBy(a), ran, ran + StartedKey(w, a), Step(w, board, a).dev.mgr);
  }

  // A set that has run owes nothing more, cleared or not.
  lemma RunStaysRun(owed: set<string>, cleared: set<string>, ran: seq<string>, ran': seq<string>, m: Mgr)
    requires Kept(owed - cleared, ran', m) && ran <= ran'
    ensures Kept(owed - Unrun(cleared, ran), ran', m)
  {
    hide Less, Ascending;
    forall k | k in owed && k !in owed - cleared && k in owed - Unrun(cleared, ran) ensures k in ran' {
      assert k in ran;
    }
  }

  lemma StepKeepsUncleared(w: World, board: Board, a: Action, owed: set<string>, ran: seq<string>)
    requires Joint(w) && Enabled(w, a) && InCycle(w) && Walk(owed, ran, w.dev.mgr) && !a.Reboot?
    requires w.dev.mgr.state == Executing ==> |ran| > 0
    ensures Kept(owed - ClearedBy(a), ran + StartedKey(w, a), Step(w, board, a).dev.mgr)
    ensures Step(w, board, a).dev.mgr.state == Executing ==> |ran + StartedKey(w, a)| > 0
  {
    hide Joint, Kept, Ascending, Less, RequestOf, Walk;
    WalkAscends(owed, ran, w.dev.mgr);
    assert ran + [] == ran && owed - {} == owed;
    ExecutingAfter(w, board, a);
    match a
    case Cloud(_, _, _) => CloudKeepsWalk(w, board, a, owed, ran);
    case Result(_, _, _) => ResultKeepsWalk(w, board, a, owed, ran);
    case Dispatch(_) => DispatchKeepsWalk(w, board, a, owed, ran);
    case Poll(_, _, _) => QuietKeepsWalk(w.dev.mgr, Step(w, board, a).dev.mgr, owed, ran);
    case Check(_, _, _) => QuietKeepsWalk(w.dev.mgr, Step(w, board, a).dev.mgr, owed, ran);
    case Toggle(on, io) =>
      ToggleKeepsSets(w.dev.mgr.store, on, board.codec, io);
      QuietKeepsWalk(w.dev.mgr, Step(w, board, a).dev.mgr, owed, ran);
  }

  lemma QuietKeepsWalk(m: Mgr, m': Mgr, owed: set<string>, ran: seq<string>)
    requires Walk(owed, ran, m) && m.state in {Queued, Executing}
    requires m'.state == m.state && m'.store.sets == m.store.sets
    requires m'.walkFromStart == m.walkFromStart && m'.currentKey == m.currentKey
    ensures Kept(owed, ran, m')
  {}

  // A step is EXECUTING afterwards only if it was before, or started a set.
  lemma ExecutingAfter(w: World, board: Board, a: Action)
    requires Enabled(w, a) && InCycle(w)
    ensures Step(w, board, a).dev.mgr.state == Executing ==> w.dev.mgr.state == Executing || |StartedKey(w, a)| > 0
  {
    hide Synced, Loaded, LoadedSome, Started, RequestOf, ResponseFor, PersistTurned, ResultStored, Changes, Replaced;
  }

  lemma ToggleKeepsSets(st: Store, on: bool, codec: Codec, io: NvsIo)
    ensures PersistTurned(st, on, codec, io).sets == st.sets
  {}

  // ----- Whole cycles -----

  // Action i triggers a cycle.
  ghost predicate TriggeredAt(ws: seq<World>, acts: seq<Action>, i: nat)
    requires i < |acts| < |ws|
  {
    acts[i].Check? && !InCycle(ws[i]) && InCycle(ws[i + 1])
  }

  lemma TriggerStartsWalk(w: World, board: Board, a: Action)
    requires Enabled(w, a) && a.Check? && !InCycle(w) && InCycle(Step(w, board, a))
    ensures var m := Step(w, board, a).dev.mgr; m.state == Queued && Walk(m.store.sets.Keys, [], m)
  {
    hide Due, Reached, Elapsed;
  }

  lemma {:induction false} WalkDuring(board: Board, ws: seq<World>, acts: seq<Action>, i: nat, j: nat)
    requires Behaviour(board, ws, acts) && i < j <= |acts| && TriggeredAt(ws, acts, i)
    requires forall x :: i < x <= j ==> InCycle(ws[x])
    ensures var owed := ws[i + 1].dev.mgr.store.sets.Keys - ClearedUnrun(ws, acts, i + 1, j);
            var ran := Ran(ws, acts, i + 1, j);
            Walk(owed, ran, ws[j].dev.mgr) && (ws[j].dev.mgr.state == Executing ==> |ran| > 0)
    decreases j
  {
    hide Step, Enabled, Walk, Joint, StartedKey, ClearedBy;
    var all := ws[i + 1].dev.mgr.store.sets.Keys;
    if j == i + 1 {
      TriggerStartsWalk(ws[i], board, acts[i]);
      assert all - {} == all;
    } else {
      WalkDuring(board, ws, acts, i, j - 1);
      JointAlways(board, ws, acts, j - 1);
      var owed, ran := all - ClearedUnrun(ws, acts, i + 1, j - 1), Ran(ws, acts, i + 1, j - 1);
      NotReboot(board, ws, acts, j - 1);
      StepKeepsWalk(ws[j - 1], board, acts[j - 1], owed, ran);
      assert owed - Unrun(ClearedBy(acts[j - 1]), ran) == all - ClearedUnrun(ws, acts, i + 1, j);
    }
  }

  lemma NotReboot(board: Board, ws: seq<World>, acts: seq<Action>, j: nat)
    requires Behaviour(board, ws, acts) && j < |acts| && InCycle(ws[j + 1])
    ensures !acts[j].Reboot?
  {
    hide Loaded, LoadedSome, PersistTurned;
  }

  // From its trigger (action i) to the step that ends it (action j, no reboot), a cycle runs sets
  // in strictly ascending key order, every set that was stored at the trigger and that the cloud
  // did not clear before its turn exactly once, and no cloud request is started.
  lemma CycleCommitted(board: Board, ws: seq<World>, acts: seq<Action>, i: nat, j: nat)
    requires Behaviour(board, ws, acts) && i < j < |acts| && TriggeredAt(ws, acts, i)
    requires (forall x :: i < x <= j ==> InCycle(ws[x])) && !InCycle(ws[j + 1]) && !acts[j].Reboot?
    ensures var ran := Ran(ws, acts, i + 1, j + 1);
            && Ascending(ran)
            && (forall x, y :: 0 <= x < y < |ran| ==> ran[x] != ran[y])
            && forall k :: k in ws[i + 1].dev.mgr.store.sets && k !in ClearedUnrun(ws, acts, i + 1, j + 1) ==> k in ran
    ensures forall x :: i < x <= j && acts[x].Dispatch? ==>
              ToStart(ws[x].dev).Some? ==> ToStart(ws[x].dev).value.emergency
  {
    hide Step, Enabled, Walk, Joint, StartedKey, ClearedBy, ToStart, Boot;
    var all := ws[i + 1].dev.mgr.store.sets.Keys;
    WalkDuring(board, ws, acts, i, j);
    JointAlways(board, ws, acts, j);
    StepKeepsWalk(ws[j], board, acts[j], all - ClearedUnrun(ws, acts, i + 1, j), Ran(ws, acts, i + 1, j));
    AscendingDistinct(Ran(ws, acts, i + 1, j + 1));
    forall x | i < x <= j && acts[x].Dispatch? && ToStart(ws[x].dev).Some?
      ensures ToStart(ws[x].dev).value.emergency
    {
      StartsFromIdle(board, ws, acts, x);
    }
  }

  // ----- A cycle ends -----

  // How many keys the walk can still reach.
  function KeysAhead(m: Mgr): nat {
    |if m.walkFromStart then m.store.sets.Keys else Above(m.store.sets.Keys, m.currentKey)|
  }

  // Starting a set leaves strictly fewer keys ahead; with none ahead the cycle is over.
  lemma WalkShrinks(m: Mgr)
    ensures NextKey(m).Some? ==> KeysAhead(SetStarted(m)) < KeysAhead(m)
    ensures NextKey(m).None? <==> KeysAhead(m) == 0
    ensures NextKey(m).None? ==> SetStarted(m).state in {Empty, Armed}
  {
    hide Less;
    var keys := if m.walkFromStart then m.store.sets.Keys else Above(m.store.sets.Keys, m.currentKey);
    if NextKey(m).Some? {
      var k := NextKey(m).value;
      var ahead := Above(m.store.sets.Keys, k);
      LessIrreflexive(k);
      forall l | l in ahead ensures l in keys {
        if !m.walkFromStart { LessTransitive(m.currentKey, k, l); }
      }
      assert ahead <= keys - {k};
      SubsetSmaller(ahead, keys - {k});
    }
  }

  lemma {:induction false} SubsetSmaller(a: set<string>, b: set<string>)
    requires a <= b
    ensures |a| <= |b|
    decreases |a|
  {
    if a != {} {
      var x :| x in a;
      SubsetSmaller(a - {x}, b - {x});
    }
  }

  lemma StoredFewer(m: Mgr, lines: seq<Line>, codec: Codec, io: NvsIo)
    ensures var m1 := ResultStored(m, lines, codec, io);
            && m1.store.sets.Keys <= m.store.sets.Keys
            && m1.walkFromStart == m.walkFromStart && m1.currentKey == m.currentKey
  {
    hide Synced, Delivered, Revision;
    SyncedOk(Removed(m.store, m.currentKey), codec, io);
  }

  lemma CycleStepFrame(m: Mgr, cfg: Config, now: u32)
    ensures var m' := CycleStep(m, cfg, now);
            m'.store == m.store && m'.walkFromStart == m.walkFromStart && m'.currentKey == m.currentKey
  {
    hide Less;
  }

  // The result of a run never puts keys back ahead of the walk.
  lemma ResultShrinks(m: Mgr, cfg: Config, lines: seq<Line>, now: u32, codec: Codec, io: NvsIo)
    requires !m.walkFromStart
    ensures KeysAhead(ResultHandled(m, cfg, lines, now, codec, io)) <= KeysAhead(m)
  {
    hide ResultStored, CycleStep, KeysAhead;
    StoredFewer(m, lines, codec, io);
    CycleStepFrame(ResultStored(m, lines, codec, io), cfg, now);
    FewerAhead(m, ResultHandled(m, cfg, lines, now, codec, io));
  }

  // A message stores a set under a key that had none.
  ghost predicate AddsKey(w: World, a: Action) {
    && a.Cloud? && RequestOf(a.payload).Some? && RequestOf(a.payload).value.linesOnNoInvSetup.Some?
    && |RequestOf(a.payload).value.linesOnNoInvSetup.value| > 0
    && KeyOf(RequestOf(a.payload).value) !in w.dev.mgr.store.sets
  }

  lemma FewerAhead(m: Mgr, m': Mgr)
    requires m'.walkFromStart == m.walkFromStart && m'.currentKey == m.currentKey
    requires m'.store.sets.Keys <= m.store.sets.Keys
    ensures KeysAhead(m') <= KeysAhead(m)
  {
    hide Less;
    SubsetSmaller(m'.store.sets.Keys, m.store.sets.Keys);
    SubsetSmaller(Above(m'.store.sets.Keys, m.currentKey), Above(m.store.sets.Keys, m.currentKey));
  }

  lemma CloudShrinks(w: World, board: Board, a: Action)
    requires Enabled(w, a) && a.Cloud? && !AddsKey(w, a)
    ensures KeysAhead(Step(w, board, a).dev.mgr) <= KeysAhead(w.dev.mgr)
  {
    hide Step, KeysAhead, RequestOf, Trim, Synced, SameContent, IsInvSetup;
    CloudStore(w, board, a);
    CloudEffectOf(w, board, a);
    if RequestOf(a.payload).Some? && RequestOf(a.payload).value.linesOnNoInvSetup.Some? {
      var h := RequestOf(a.payload).value;
      SyncedOk(Replaced(w.dev.mgr.store, KeyOf(h), h.linesOnNoInvSetup.value), board.codec, a.io);
    }
    FewerAhead(w.dev.mgr, Step(w, board, a).dev.mgr);
  }

  // A step of a cycle uses up one key ahead for each set it starts.
  lemma StepShrinks(w: World, board: Board, a: Action)
    requires Joint(w) && Enabled(w, a) && InCycle(w) && InCycle(Step(w, board, a)) && !a.Reboot? && !AddsKey(w, a)
    requires w.dev.mgr.state == Executing ==> !w.dev.mgr.walkFromStart
    ensures |StartedKey(w, a)| + KeysAhead(Step(w, board, a).dev.mgr) <= KeysAhead(w.dev.mgr)
  {
    hide KeysAhead, Joint, AddsKey, Enabled;
    if a.Cloud? {
      CloudShrinks(w, board, a);
    } else if a.Result? {
      ResultStepShrinks(w, board, a);
    } else if a.Dispatch? {
      DispatchShrinks(w, board, a);
    } else {
      OtherShrinks(w, board, a);
    }
  }

  lemma ResultStepShrinks(w: World, board: Board, a: Action)
    requires Joint(w) && Enabled(w, a) && a.Result?
    requires w.dev.mgr.state == Executing ==> !w.dev.mgr.walkFromStart
    ensures KeysAhead(Step(w, board, a).dev.mgr) <= KeysAhead(w.dev.mgr)
  {
    hide KeysAhead, ResultHandled, ResponseFor, StoreOk, Shape, RunIsCurrent;
    if FinishesRun(w, a) {
      ResultShrinks(w.dev.mgr, board.config, w.dev.exec.header.lines, Wrap(a.ms), board.codec, a.io);
    }
  }

  lemma DispatchShrinks(w: World, board: Board, a: Action)
    requires Enabled(w, a) && a.Dispatch? && InCycle(w) && InCycle(Step(w, board, a))
    ensures |StartedKey(w, a)| + KeysAhead(Step(w, board, a).dev.mgr) <= KeysAhead(w.dev.mgr)
  {
    hide KeysAhead, NextKey, Started;
    WalkShrinks(w.dev.mgr);
  }

  lemma OtherShrinks(w: World, board: Board, a: Action)
    requires Enabled(w, a) && (a.Poll? || a.Check? || a.Toggle?) && InCycle(w)
    ensures KeysAhead(Step(w, board, a).dev.mgr) <= KeysAhead(w.dev.mgr)
  {
    hide KeysAhead, Polled, PersistTurned, Due, Reached, Elapsed;
    if a.Toggle? {
      ToggleKeepsSets(w.dev.mgr.store, a.on, board.codec, a.io);
    }
    FewerAhead(w.dev.mgr, Step(w, board, a).dev.mgr);
  }

  // While the cloud adds no key, a cycle starts at most as many runs as sets were stored at its
  // trigger, and the keys still ahead bound what is to come.
  lemma {:induction false} CycleBounded(board: Board, ws: seq<World>, acts: seq<Action>, i: nat, j: nat)
    requires Behaviour(board, ws, acts) && i < j <= |acts| && TriggeredAt(ws, acts, i)
    requires forall x :: i < x <= j ==> InCycle(ws[x])
    requires forall x :: i < x < j ==> !AddsKey(ws[x], acts[x])
    ensures |Ran(ws, acts, i + 1, j)| + KeysAhead(ws[j].dev.mgr) <= |ws[i + 1].dev.mgr.store.sets.Keys|
    decreases j
  {
    hide Step, Enabled, Walk, Joint, StartedKey, AddsKey, Boot, KeysAhead, Less, ClearedUnrun, Kept, TriggeredAt;
    IsTrigger(ws, acts, i);
    if j == i + 1 {
      TriggerStartsWalk(ws[i], board, acts[i]);
      FromStart(ws[j].dev.mgr);
    } else {
      CycleBounded(board, ws, acts, i, j - 1);
      JointAlways(board, ws, acts, j - 1);
      NotReboot(board, ws, acts, j - 1);
      WalkDuring(board, ws, acts, i, j - 1);
      UnderWay(ws[i + 1].dev.mgr.store.sets.Keys - ClearedUnrun(ws, acts, i + 1, j - 1),
               Ran(ws, acts, i + 1, j - 1), ws[j - 1].dev.mgr);
      StepShrinks(ws[j - 1], board, acts[j - 1]);
    }
  }

  lemma IsTrigger(ws: seq<World>, acts: seq<Action>, i: nat)
    requires i < |acts| < |ws| && TriggeredAt(ws, acts, i)
    ensures acts[i].Check? && !InCycle(ws[i]) && InCycle(ws[i + 1])
  {}

  lemma FromStart(m: Mgr)
    requires Walk(m.store.sets.Keys, [], m)
    ensures KeysAhead(m) == |m.store.sets.Keys|
  {}

  lemma UnderWay(owed: set<string>, ran: seq<string>, m: Mgr)
    requires Walk(owed, ran, m)
    ensures |ran| > 0 ==> !m.walkFromStart
  {}
}
