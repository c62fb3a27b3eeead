// What is stored is what the cloud last said, key by key.

module Contents {

  import opened Protocol
  import opened Batches
  import opened Stores
  import opened Manager
  import opened Dongle
  import opened System
  import opened Cycle

  // The message carries a set, or the empty one, for this key.
  predicate SpeaksOf(a: Action, key: string) {
    BringsLines(a) && KeyOf(RequestOf(a.payload).value) == key
  }

  // What the last message for the key said, or what the last boot restored under it; [] for nothing.
  ghost function LastFor(ws: seq<World>, acts: seq<Action>, j: nat, key: string): seq<Line>
    requires j <= |acts| < |ws|
  {
    if j == 0 || acts[j - 1].Reboot? then
      (if key in ws[j].dev.mgr.store.sets then ws[j].dev.mgr.store.sets[key] else [])
    else if SpeaksOf(acts[j - 1], key) then RequestOf(acts[j - 1].payload).value.linesOnNoInvSetup.value
    else LastFor(ws, acts, j - 1, key)
  }

  // A run of the key's own set, as it is stored, ends delivered.
  ghost predicate DeliversKey(w: World, a: Action, key: string) {
    && FinishesRun(w, a) && Delivered(w.dev.exec.header.lines)
    && w.dev.mgr.currentKey == key && Revision(w.dev.mgr.store, key) == w.dev.mgr.currentRevision
  }

  // ... and did so since the last message for the key.
  ghost predicate DeliveredSince(ws: seq<World>, acts: seq<Action>, j: nat, key: string)
    requires j <= |acts| < |ws|
  {
    && j > 0 && !acts[j - 1].Reboot? && !SpeaksOf(acts[j - 1], key)
    && (DeliversKey(ws[j - 1], acts[j - 1], key) || DeliveredSince(ws, acts, j - 1, key))
  }

  // The same line numbers and the same frames, in the same places.
  predicate SameFrames(stored: seq<Line>, said: seq<Line>) {
    |stored| == |said|
    && forall i :: 0 <= i < |said| ==> stored[i].lineNo == said[i].lineNo && stored[i].modbus == said[i].modbus
  }

  predicate Holds(sets: Sets, key: string, said: seq<Line>, gone: bool) {
    && (key in sets <==> said != [] && !gone)
    && (key in sets ==> SameFrames(sets[key], said))
  }

  lemma CloudHolds(w: World, board: Board, a: Action, key: string, said: seq<Line>, gone: bool)
    requires Joint(w) && Enabled(w, a) && a.Cloud? && Holds(w.dev.mgr.store.sets, key, said, gone)
    ensures if SpeaksOf(a, key)
            then Holds(Step(w, board, a).dev.mgr.store.sets, key,
                       RequestOf(a.payload).value.linesOnNoInvSetup.value, false)
            else Holds(Step(w, board, a).dev.mgr.store.sets, key, said, gone)
  {
    hide Step, Synced, KeyOf, RequestOf, SameContent, Shape, RunIsCurrent, StoreOk, Replaced;
    CloudStore(w, board, a);
    if BringsLines(a) {
      var h := RequestOf(a.payload).value;
      var lines := h.linesOnNoInvSetup.value;
      var st := w.dev.mgr.store;
      if |lines| > 0 { SetArrives(st, KeyOf(h), lines); } else { EmptySetArrives(st, KeyOf(h)); }
      SyncedOk(Replaced(st, KeyOf(h), lines), board.codec, a.io);
      OthersStay(st.sets, Replaced(st, KeyOf(h), lines).sets, KeyOf(h), key);
    }
  }

  lemma OthersStay(sets: Sets, sets': Sets, changed: string, key: string)
    requires sets' - {changed} == sets - {changed}
    ensures key != changed ==> (key in sets' <==> key in sets) && (key in sets ==> sets'[key] == sets[key])
  {
    if key != changed {
      assert key in sets' <==> key in sets' - {changed};
      assert key in sets <==> key in sets - {changed};
      if key in sets {
        assert (sets' - {changed})[key] == (sets - {changed})[key];
      }
    }
  }

  lemma ResultHolds(w: World, board: Board, a: Action, key: string, said: seq<Line>, gone: bool)
    requires Enabled(w, a) && a.Result? && Holds(w.dev.mgr.store.sets, key, said, gone)
    ensures Holds(Step(w, board, a).dev.mgr.store.sets, key, said, DeliversKey(w, a, key) || gone)
  {
    hide Step, Synced, Delivered, Revision, SameFrames;
    ResultStore(w, board, a);
    SyncedOk(Removed(w.dev.mgr.store, w.dev.mgr.currentKey), board.codec, a.io);
  }

  lemma OtherHolds(w: World, board: Board, a: Action, key: string)
    requires Enabled(w, a) && (a.Dispatch? || a.Poll? || a.Check? || a.Toggle?)
    ensures Step(w, board, a).dev.mgr.store.sets == w.dev.mgr.store.sets
    ensures !SpeaksOf(a, key) && !DeliversKey(w, a, key)
  {
    hide Step, Synced, Delivered, Revision, RequestOf;
    if a.Toggle? {
      ToggleStore(w, board, a);
      ToggleKeepsSets(w.dev.mgr.store, a.on, board.codec, a.io);
    } else {
      QuietStore(w, board, a);
    }
  }

  lemma BootHolds(sets: Sets, key: string)
    requires WfSets(sets)
    ensures Holds(sets, key, if key in sets then sets[key] else [], false)
  {
    hide WfLines, NulFree;
  }

  // In every reachable state a key is stored exactly when the last message for it carried a set -
  // or the boot restored one - that was not delivered since; and it is stored with the line numbers
  // and frames that message carried.
  lemma {:induction false} StoredIsLastSaid(board: Board, ws: seq<World>, acts: seq<Action>, j: nat, key: string)
    requires Behaviour(board, ws, acts) && j <= |acts|
    ensures var sets := ws[j].dev.mgr.store.sets;
            && (key in sets <==> LastFor(ws, acts, j, key) != [] && !DeliveredSince(ws, acts, j, key))
            && (key in sets ==> SameFrames(sets[key], LastFor(ws, acts, j, key)))
  {
    hide Step, Enabled, Boot, Joint, SpeaksOf, DeliversKey, SameFrames;
    if j == 0 || acts[j - 1].Reboot? {
      JointAlways(board, ws, acts, j);
      JointSets(ws[j]);
      BootHolds(ws[j].dev.mgr.store.sets, key);
    } else {
      var w, a := ws[j - 1], acts[j - 1];
      StoredIsLastSaid(board, ws, acts, j - 1, key);
      JointAlways(board, ws, acts, j - 1);
      assert ws[j] == Step(w, board, a);
      if a.Cloud? {
        DeliversNothing(w, a, key);
        CloudHolds(w, board, a, key, LastFor(ws, acts, j - 1, key), DeliveredSince(ws, acts, j - 1, key));
      } else if a.Result? {
        SpeaksOfNothing(a, key);
        ResultHolds(w, board, a, key, LastFor(ws, acts, j - 1, key), DeliveredSince(ws, acts, j - 1, key));
      } else {
        OtherHolds(w, board, a, key);
      }
    }
  }

  lemma DeliversNothing(w: World, a: Action, key: string)
    requires a.Cloud?
    ensures !DeliversKey(w, a, key)
  {}

  lemma SpeaksOfNothing(a: Action, key: string)
    requires !a.Cloud?
    ensures !SpeaksOf(a, key)
  {}

  lemma JointSets(w: World)
    requires Joint(w)
    ensures WfSets(w.dev.mgr.store.sets)
  {
    hide Shape, RunIsCurrent, WfSets;
  }
}
