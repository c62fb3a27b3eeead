// Nothing is lost silently and nothing is sent twice: the fate of every revision within one boot.

module Ledger {

  import opened Options
  import opened Keys
  import opened Protocol
  import opened Executor
  import opened Batches
  import opened Stores
  import opened Manager
  import opened Dongle
  import opened System

  ghost predicate Stored(st: Store, r: nat) {
    exists k :: k in st.revisions && st.revisions[k] == r
  }

  // ----- What happened to revisions since the last boot -----

  // The revision whose run a step finds delivered.
  ghost function DeliveredBy(w: World, a: Action): set<nat> {
    if FinishesRun(w, a) && Delivered(w.dev.exec.header.lines) then {w.dev.mgr.currentRevision} else {}
  }

  // The revision a cloud message replaces or clears: the one under the message's own key.
  ghost function SupersededBy(w: World, a: Action): set<nat> {
    if a.Cloud? && RequestOf(a.payload).Some? && RequestOf(a.payload).value.linesOnNoInvSetup.Some? then
      var h := RequestOf(a.payload).value;
      var st := w.dev.mgr.store;
      if KeyOf(h) in st.revisions && Changes(st, KeyOf(h), h.linesOnNoInvSetup.value)
      then {st.revisions[KeyOf(h)]} else {}
    else {}
  }

  ghost function DeliveredRevs(ws: seq<World>, acts: seq<Action>, j: nat): set<nat>
    requires j <= |acts| < |ws|
  {
    if j == 0 || acts[j - 1].Reboot? then {}
    else DeliveredRevs(ws, acts, j - 1) + DeliveredBy(ws[j - 1], acts[j - 1])
  }

  ghost function SupersededRevs(ws: seq<World>, acts: seq<Action>, j: nat): set<nat>
    requires j <= |acts| < |ws|
  {
    if j == 0 || acts[j - 1].Reboot? then {}
    else SupersededRevs(ws, acts, j - 1) + SupersededBy(ws[j - 1], acts[j - 1])
  }

  // ----- The books balance -----

  ghost predicate Balanced(delivered: set<nat>, superseded: set<nat>, st: Store) {
    && (forall r: nat :: 1 <= r <= st.next ==> Stored(st, r) || r in delivered || r in superseded)
    && (forall r :: r in delivered ==> r <= st.next && !Stored(st, r))
  }

  lemma RemovedBalanced(delivered: set<nat>, superseded: set<nat>, st: Store, key: string)
    requires StoreOk(st) && Balanced(delivered, superseded, st) && key in st.revisions
    ensures var r := st.revisions[key]; var st' := Removed(st, key);
            && Balanced(delivered, superseded + {r}, st')
            && Balanced(delivered + {r}, superseded, st')
  {
    hide WfSets;
    var st' := Removed(st, key);
    forall r: nat | Stored(st, r) && r != st.revisions[key] ensures Stored(st', r) {
      var k :| k in st.revisions && st.revisions[k] == r;
      assert k in st'.revisions && st'.revisions[k] == r;
    }
    forall r: nat | Stored(st', r) ensures Stored(st, r) && r != st.revisions[key] {
      var k :| k in st'.revisions && st'.revisions[k] == r;
      assert k in st.revisions && st.revisions[k] == r;
    }
  }

  lemma ReplacedBalanced(delivered: set<nat>, superseded: set<nat>, st: Store, key: string, lines: seq<Line>)
    requires StoreOk(st) && Balanced(delivered, superseded, st)
    ensures var gone := if key in st.revisions && Changes(st, key, lines) then {st.revisions[key]} else {};
            Balanced(delivered, superseded + gone, Replaced(st, key, lines))
  {
    hide WfSets, SameContent;
    assert superseded + {} == superseded;
    var st' := Replaced(st, key, lines);
    if Changes(st, key, lines) {
      if |lines| == 0 {
        RemovedBalanced(delivered, superseded, st, key);
      } else {
        forall r: nat | Stored(st, r) && !(key in st.revisions && r == st.revisions[key]) ensures Stored(st', r) {
          var k :| k in st.revisions && st.revisions[k] == r;
          assert k in st'.revisions && st'.revisions[k] == r;
        }
        assert Stored(st', st.next + 1) by {
          assert key in st'.revisions && st'.revisions[key] == st.next + 1;
        }
        forall r: nat | Stored(st', r) && r <= st.next ensures Stored(st, r) {
          var k :| k in st'.revisions && st'.revisions[k] == r;
          assert k in st.revisions && st.revisions[k] == r;
        }
      }
    }
  }

  lemma SameRevisionsBalanced(delivered: set<nat>, superseded: set<nat>, st: Store, st': Store)
    requires Balanced(delivered, superseded, st)
    requires st'.revisions == st.revisions && st'.next == st.next
    ensures Balanced(delivered, superseded, st')
  {
    forall r: nat ensures Stored(st', r) == Stored(st, r) {}
  }

  lemma CloudBalanced(w: World, board: Board, a: Action, delivered: set<nat>, superseded: set<nat>)
    requires Joint(w) && Enabled(w, a) && a.Cloud? && Balanced(delivered, superseded, w.dev.mgr.store)
    ensures Balanced(delivered, superseded + SupersededBy(w, a), Step(w, board, a).dev.mgr.store)
  {
    hide Step, Balanced, StoreOk, Shape, RunIsCurrent, Synced, Changes, Replaced, RequestOf, Trim;
    CloudStore(w, board, a);
    var st := w.dev.mgr.store;
    assert superseded + {} == superseded;
    if RequestOf(a.payload).Some? && RequestOf(a.payload).value.linesOnNoInvSetup.Some? {
      var h := RequestOf(a.payload).value;
      ReplacedBalanced(delivered, superseded, st, KeyOf(h), h.linesOnNoInvSetup.value);
      var st1 := Replaced(st, KeyOf(h), h.linesOnNoInvSetup.value);
      SyncedOk(st1, board.codec, a.io);
      SameRevisionsBalanced(delivered, superseded + SupersededBy(w, a), st1, Synced(st1, board.codec, a.io));
    }
  }

  lemma ResultBalanced(w: World, board: Board, a: Action, delivered: set<nat>, superseded: set<nat>)
    requires Joint(w) && Enabled(w, a) && a.Result? && Balanced(delivered, superseded, w.dev.mgr.store)
    ensures Balanced(delivered + DeliveredBy(w, a), superseded, Step(w, board, a).dev.mgr.store)
  {
    hide Step, Balanced, StoreOk, Shape, Synced, Delivered, Removed, Revision, RunIsCurrent;
    ResultStore(w, board, a);
    var m := w.dev.mgr;
    assert delivered + {} == delivered;
    if FinishesRun(w, a) && Delivered(w.dev.exec.header.lines) {
      CurrentRevision(m);
      if Revision(m.store, m.currentKey) == m.currentRevision {
        RemovedBalanced(delivered, superseded, m.store, m.currentKey);
        var st1 := Removed(m.store, m.currentKey);
        SyncedOk(st1, board.codec, a.io);
        SameRevisionsBalanced(delivered + DeliveredBy(w, a), superseded, st1, Synced(st1, board.codec, a.io));
      } else {
        DeliveredElsewhere(delivered, superseded, m.store, m.currentRevision);
      }
    }
  }

  lemma CurrentRevision(m: Mgr)
    requires RunIsCurrent(m)
    ensures m.currentRevision <= m.store.next
    ensures Revision(m.store, m.currentKey) == m.currentRevision ==>
              m.currentKey in m.store.revisions && m.store.revisions[m.currentKey] == m.currentRevision
    ensures Revision(m.store, m.currentKey) != m.currentRevision ==> !Stored(m.store, m.currentRevision)
  {}

  lemma DeliveredElsewhere(delivered: set<nat>, superseded: set<nat>, st: Store, r: nat)
    requires Balanced(delivered, superseded, st) && r <= st.next && !Stored(st, r)
    ensures Balanced(delivered + {r}, superseded, st)
  {}

  lemma OtherBalanced(w: World, board: Board, a: Action, delivered: set<nat>, superseded: set<nat>)
    requires Joint(w) && Enabled(w, a) && Balanced(delivered, superseded, w.dev.mgr.store)
    requires a.Dispatch? || a.Poll? || a.Check? || a.Toggle?
    ensures Balanced(delivered, superseded, Step(w, board, a).dev.mgr.store)
  {
    hide Step, Balanced, Joint, SetsJson;
    if a.Toggle? {
      ToggleStore(w, board, a);
    } else {
      QuietStore(w, board, a);
    }
    SameRevisionsBalanced(delivered, superseded, w.dev.mgr.store, Step(w, board, a).dev.mgr.store);
  }

  lemma {:induction false} NumberedAll(keys: seq<string>, r: nat)
    requires Ascending(keys) && 1 <= r <= |keys|
    ensures exists k :: k in Numbered(map[], 0, keys) && Numbered(map[], 0, keys)[k] == r
  {
    hide Less, Numbered;
    NumberedFresh(0, keys);
    assert keys[r - 1] in Numbered(map[], 0, keys);
  }

  lemma BootBalanced(board: Board, nvs: Option<Json>, switchOn: bool, io: NvsIo)
    ensures Balanced({}, {}, Boot(board, nvs, switchOn, io).dev.mgr.store)
  {
    hide SetsOf, Sorted, SetsJson, Numbered, Less;
    var st := Boot(board, nvs, switchOn, io).dev.mgr.store;
    if st.next > 0 {
      var keys := SetsOf(nvs.value, map[]).value.Keys;
      SortedAscends(keys);
      assert st.revisions == Numbered(map[], 0, Sorted(keys)) && st.next == |keys|;
      forall r: nat | 1 <= r <= st.next ensures Stored(st, r) {
        NumberedAll(Sorted(keys), r);
      }
    }
  }

  lemma StepBalanced(w: World, board: Board, a: Action, delivered: set<nat>, superseded: set<nat>)
    requires Joint(w) && Enabled(w, a) && Balanced(delivered, superseded, w.dev.mgr.store) && !a.Reboot?
    ensures Balanced(delivered + DeliveredBy(w, a), superseded + SupersededBy(w, a), Step(w, board, a).dev.mgr.store)
  {
    hide Balanced, Joint, Step, Enabled, RequestOf, Delivered;
    assert delivered + {} == delivered && superseded + {} == superseded;
    match a
    case Cloud(_, _, _) => CloudBalanced(w, board, a, delivered, superseded);
    case Result(_, _, _) => ResultBalanced(w, board, a, delivered, superseded);
    case Dispatch(_) => OtherBalanced(w, board, a, delivered, superseded);
    case Poll(_, _, _) => OtherBalanced(w, board, a, delivered, superseded);
    case Check(_, _, _) => OtherBalanced(w, board, a, delivered, superseded);
    case Toggle(_, _) => OtherBalanced(w, board, a, delivered, superseded);
  }

  // Every revision ever stored since the boot is still stored, or was delivered, or was replaced
  // or cleared by a cloud message for its own key; and no delivered one is stored any more.
  lemma {:induction false} NothingLost(board: Board, ws: seq<World>, acts: seq<Action>, j: nat)
    requires Behaviour(board, ws, acts) && j <= |acts|
    ensures Balanced(DeliveredRevs(ws, acts, j), SupersededRevs(ws, acts, j), ws[j].dev.mgr.store)
  {
    hide Balanced, Joint, Step, Enabled, Boot, DeliveredBy, SupersededBy;
    if j == 0 {
      var nvs, switchOn, io :| ws[0] == Boot(board, nvs, switchOn, io);
      BootBalanced(board, nvs, switchOn, io);
    } else {
      NothingLost(board, ws, acts, j - 1);
      JointAlways(board, ws, acts, j - 1);
      var w, a := ws[j - 1], acts[j - 1];
      if a.Reboot? {
        RebootIsBoot(w, board, a);
        BootBalanced(board, w.dev.mgr.store.nvs, a.switchOn, a.io);
      } else {
        StepBalanced(w, board, a, DeliveredRevs(ws, acts, j - 1), SupersededRevs(ws, acts, j - 1));
      }
    }
  }

  lemma RebootIsBoot(w: World, board: Board, a: Action)
    requires Enabled(w, a) && a.Reboot?
    ensures Step(w, board, a) == Boot(board, w.dev.mgr.store.nvs, a.switchOn, a.io)
  {}

  // ----- Send once -----

  // The revision a step puts on the bus.
  ghost function StartedRevision(w: World, a: Action): Option<nat> {
    if a.Dispatch? && !Busy(w.dev.exec) && w.dev.mgr.state == Queued && NextKey(w.dev.mgr).Some?
    then Some(Revision(w.dev.mgr.store, NextKey(w.dev.mgr).value)) else None
  }

  lemma {:induction false} DeliveredStays(ws: seq<World>, acts: seq<Action>, i: nat, j: nat, r: nat)
    requires i <= j <= |acts| < |ws| && r in DeliveredRevs(ws, acts, i)
    requires forall x :: i <= x < j ==> !acts[x].Reboot?
    ensures r in DeliveredRevs(ws, acts, j)
    decreases j - i
  {
    hide DeliveredBy;
    if i < j {
      DeliveredStays(ws, acts, i + 1, j, r);
    }
  }

  // A delivered revision never goes on the bus again before the next reboot, whatever the cloud
  // clears and stores in between.
  lemma NeverResent(board: Board, ws: seq<World>, acts: seq<Action>, i: nat, j: nat)
    requires Behaviour(board, ws, acts) && i < j < |acts|
    requires forall x :: i <= x < j ==> !acts[x].Reboot?
    requires StartedRevision(ws[j], acts[j]).Some?
    ensures StartedRevision(ws[j], acts[j]).value !in DeliveredBy(ws[i], acts[i])
  {
    hide Step, Enabled, Boot, Shape, RunIsCurrent, WfSets, NextKey, DeliveredBy;
    var st := ws[j].dev.mgr.store;
    NothingLost(board, ws, acts, j);
    JointAlways(board, ws, acts, j);
    var k := NextKey(ws[j].dev.mgr).value;
    NextKeyStored(ws[j].dev.mgr);
    assert Stored(st, st.revisions[k]);
    var r := StartedRevision(ws[j], acts[j]).value;
    if r in DeliveredBy(ws[i], acts[i]) {
      DeliveredStays(ws, acts, i + 1, j, r);
    }
  }

  lemma NextKeyStored(m: Mgr)
    requires NextKey(m).Some?
    ensures NextKey(m).value in m.store.sets
  {}

  // ----- The verdict -----

  // A run is called delivered only if one of its lines got a CRC-valid reply in this very run; and
  // when no stored line carried an error text of its own, whenever one did.
  lemma DeliveredMeansAnswered(board: Board, ws: seq<World>, acts: seq<Action>, i: nat)
    requires Behaviour(board, ws, acts) && i < |acts| && FinishesRun(ws[i], acts[i])
    ensures var b := ws[i].batch;
            && (DeliveredBy(ws[i], acts[i]) != {} ==> b.answers != map[])
            && (forall x :: x in b.answers ==> ValidReply(b.answers[x]))
            && ((forall x :: 0 <= x < |b.request| ==> b.request[x].error == "") ==>
                  (DeliveredBy(ws[i], acts[i]) != {} <==> b.answers != map[]))
  {
    hide Step, Enabled, Boot, StoreOk, RunIsCurrent, IsResult, ValidReply, Delivered;
    JointAlways(board, ws, acts, i);
    VerdictSound(ws[i].batch, ws[i].dev.exec.header.lines);
  }

  // ----- A revision names one content -----

  // Whatever is stored at j under a revision that existed at i was stored there, as it is, at i.
  ghost predicate SameUpTo(old': Store, st: Store) {
    old'.next <= st.next &&
    forall k :: k in st.revisions && k in st.sets && st.revisions[k] <= old'.next ==>
                  k in old'.revisions && old'.revisions[k] == st.revisions[k]
                  && k in old'.sets && old'.sets[k] == st.sets[k]
  }

  lemma ReplacedSame(st: Store, key: string, lines: seq<Line>)
    requires StoreOk(st)
    ensures SameUpTo(st, Replaced(st, key, lines))
  {
    hide WfSets, SameContent;
  }

  lemma RemovedSame(st: Store, key: string)
    requires StoreOk(st)
    ensures SameUpTo(st, Removed(st, key))
  {
    hide WfSets;
  }

  lemma UnchangedSame(st: Store, st1: Store, st2: Store)
    requires SameUpTo(st, st1) && st2.sets == st1.sets && st2.revisions == st1.revisions && st2.next == st1.next
    ensures SameUpTo(st, st2)
  {}

  lemma StoreSame(st: Store)
    requires StoreOk(st)
    ensures SameUpTo(st, st)
  {
    hide WfSets;
  }

  lemma StepSame(w: World, board: Board, a: Action)
    requires Joint(w) && Enabled(w, a) && !a.Reboot?
    ensures SameUpTo(w.dev.mgr.store, Step(w, board, a).dev.mgr.store)
  {
    hide Step, SameUpTo, StoreOk, Shape, RunIsCurrent, Synced, Changes, Replaced, RequestOf, Trim, Removed, Delivered,
         PersistTurned;
    var st := w.dev.mgr.store;
    StoreSame(st);
    if a.Cloud? {
      CloudStore(w, board, a);
      if RequestOf(a.payload).Some? && RequestOf(a.payload).value.linesOnNoInvSetup.Some? {
        var h := RequestOf(a.payload).value;
        var st1 := Replaced(st, KeyOf(h), h.linesOnNoInvSetup.value);
        ReplacedSame(st, KeyOf(h), h.linesOnNoInvSetup.value);
        SyncedOk(st1, board.codec, a.io);
        UnchangedSame(st, st1, Synced(st1, board.codec, a.io));
      }
    } else if a.Result? {
      ResultStore(w, board, a);
      var st1 := Removed(st, w.dev.mgr.currentKey);
      RemovedSame(st, w.dev.mgr.currentKey);
      SyncedOk(st1, board.codec, a.io);
      UnchangedSame(st, st1, Synced(st1, board.codec, a.io));
    } else if a.Toggle? {
      ToggleStore(w, board, a);
      TurnedKeeps(st, a.on, board.codec, a.io);
      UnchangedSame(st, st, PersistTurned(st, a.on, board.codec, a.io));
    } else {
      QuietStore(w, board, a);
    }
  }

  lemma TurnedKeeps(st: Store, on: bool, codec: Codec, io: NvsIo)
    ensures var s := PersistTurned(st, on, codec, io);
            s.sets == st.sets && s.revisions == st.revisions && s.next == st.next
  {}

  lemma SameUpToTransitive(a: Store, b: Store, c: Store)
    requires SameUpTo(a, b) && SameUpTo(b, c) && c.sets.Keys == c.revisions.Keys && b.sets.Keys == b.revisions.Keys
    ensures SameUpTo(a, c)
  {}

  // Within one boot a revision stands for one set of lines under one key.
  lemma {:induction false} RevisionNamesContent(board: Board, ws: seq<World>, acts: seq<Action>, i: nat, j: nat)
    requires Behaviour(board, ws, acts) && i <= j <= |acts|
    requires forall x :: i <= x < j ==> !acts[x].Reboot?
    ensures SameUpTo(ws[i].dev.mgr.store, ws[j].dev.mgr.store)
    decreases j
  {
    hide Step, Enabled, Boot, Shape, RunIsCurrent, WfSets, RevisionsOk, SameUpTo;
    JointAlways(board, ws, acts, j);
    if i == j {
      StoreSame(ws[i].dev.mgr.store);
    } else {
      RevisionNamesContent(board, ws, acts, i, j - 1);
      JointAlways(board, ws, acts, j - 1);
      StepSame(ws[j - 1], board, acts[j - 1]);
      SameUpToTransitive(ws[i].dev.mgr.store, ws[j - 1].dev.mgr.store, ws[j].dev.mgr.store);
    }
  }

  // ----- A run clears only what it ran -----

  // If the revision on the bus is still stored, what is stored is what the batch was started with.
  ghost predicate RunsStored(w: World) {
    var m := w.dev.mgr;
    m.state == Executing && m.currentKey in m.store.revisions
    && m.store.revisions[m.currentKey] == m.currentRevision ==>
      m.currentKey in m.store.sets && m.store.sets[m.currentKey] == w.batch.request
  }

  lemma DispatchRunsStored(w: World, board: Board, a: Action)
    requires Joint(w) && Enabled(w, a) && a.Dispatch? && RunsStored(w)
    ensures RunsStored(Step(w, board, a))
  {
    hide Started, NextKey, Shape, RunIsCurrent, RevisionsOk, WfSets;
  }

  lemma RequestKept(w: World, board: Board, a: Action)
    requires Enabled(w, a) && !a.Dispatch? && !a.Reboot?
    ensures Step(w, board, a).batch.request == w.batch.request
    ensures Step(w, board, a).dev.mgr.state == Executing ==>
              w.dev.mgr.state == Executing && Step(w, board, a).dev.mgr.currentKey == w.dev.mgr.currentKey
              && Step(w, board, a).dev.mgr.currentRevision == w.dev.mgr.currentRevision
  {
    hide Polled, FieldsHandled, RequestOf, ResultStored, ResponseFor, PersistTurned, Due, Less,
         IsInvSetup;
    if a.Cloud? {
      CloudEffectOf(w, board, a);
    }
  }

  lemma SameRunsStored(w: World, w': World)
    requires Joint(w) && RunsStored(w) && SameUpTo(w.dev.mgr.store, w'.dev.mgr.store) && StoreOk(w'.dev.mgr.store)
    requires w'.batch.request == w.batch.request
    requires w'.dev.mgr.state == Executing ==>
               w.dev.mgr.state == Executing && w'.dev.mgr.currentKey == w.dev.mgr.currentKey
               && w'.dev.mgr.currentRevision == w.dev.mgr.currentRevision
    ensures RunsStored(w')
  {
    hide Shape, RevisionsOk, WfSets;
  }

  lemma {:induction false} RunsStoredAlways(board: Board, ws: seq<World>, acts: seq<Action>, j: nat)
    requires Behaviour(board, ws, acts) && j <= |acts|
    ensures RunsStored(ws[j])
  {
    hide Step, Enabled, Boot, RunsStored, Shape, SameUpTo, StoreOk, RunIsCurrent;
    if j == 0 {
      BootRunsNothing(board, ws[0]);
    } else {
      var w, a := ws[j - 1], acts[j - 1];
      RunsStoredAlways(board, ws, acts, j - 1);
      JointAlways(board, ws, acts, j - 1);
      JointAlways(board, ws, acts, j);
      assert ws[j] == Step(w, board, a);
      if a.Dispatch? {
        DispatchRunsStored(w, board, a);
      } else if a.Reboot? {
        RebootIsBoot(w, board, a);
        BootRunsNothing(board, ws[j]);
      } else {
        StepSame(w, board, a);
        RequestKept(w, board, a);
        SameRunsStored(w, ws[j]);
      }
    }
  }

  lemma BootRunsNothing(board: Board, w: World)
    requires exists nvs, switchOn, io :: w == Boot(board, nvs, switchOn, io)
    ensures RunsStored(w)
  {
    hide PersistTurned, Loaded, LoadedSome;
  }

  // A delivered result clears its key exactly when the run's revision is still the stored one, and
  // then the lines it clears are the very lines this batch was started with.
  lemma ClearsWhatItRan(board: Board, ws: seq<World>, acts: seq<Action>, i: nat)
    requires Behaviour(board, ws, acts) && i < |acts|
    requires FinishesRun(ws[i], acts[i]) && Delivered(ws[i].dev.exec.header.lines)
    ensures var m, sets' := ws[i].dev.mgr, ws[i + 1].dev.mgr.store.sets;
            if Revision(m.store, m.currentKey) == m.currentRevision then
              && m.currentKey in m.store.sets && m.store.sets[m.currentKey] == ws[i].batch.request
              && sets' == m.store.sets - {m.currentKey}
            else sets' == m.store.sets
  {
    hide Step, Enabled, Boot, Shape, Delivered, WfSets, RevisionsOk, Synced;
    var m := ws[i].dev.mgr;
    JointAlways(board, ws, acts, i);
    RunsStoredAlways(board, ws, acts, i);
    assert ws[i + 1] == Step(ws[i], board, acts[i]);
    ResultStore(ws[i], board, acts[i]);
    SyncedOk(Removed(m.store, m.currentKey), board.codec, acts[i].io);
  }
}
