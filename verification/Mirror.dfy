// The NVS copy of the emergency sets: what it holds after every step, and what a reboot makes of it.

module Mirror {

  import opened Options
  import opened Keys
  import opened Protocol
  import opened Batches
  import opened Stores
  import opened Manager
  import opened Dongle
  import opened System

  // ----- What NVS holds, and what it should hold -----

  // The sets a boot with the switch on would restore.
  ghost function Held(nvs: Option<Json>): Sets {
    if nvs.Some? && SetsOf(nvs.value, map[]).Some? then SetsOf(nvs.value, map[]).value else map[]
  }

  // The document is written whole or not at all.
  ghost predicate FitsCap(sets: Sets, codec: Codec) { codec.size(SetsJson(sets)) < JSON_BUILD_TRUNCATED_SIZE }

  predicate BootsAt(acts: seq<Action>, j: nat)
    requires j <= |acts|
  {
    j == 0 || acts[j - 1].Reboot?
  }

  ghost function KeptAfter(st: Store, codec: Codec, kept: Sets): Sets {
    if !st.persist || st.sets == map[] then map[] else if FitsCap(st.sets, codec) then st.sets else kept
  }

  // What should survive a reboot: the latest content that fitted - or was restored - since the
  // store was last empty or persistence off.
  ghost function Preserved(board: Board, ws: seq<World>, acts: seq<Action>, j: nat): Sets
    requires j <= |acts| < |ws|
  {
    if BootsAt(acts, j) then ws[j].dev.mgr.store.sets
    else KeptAfter(ws[j].dev.mgr.store, board.codec, Preserved(board, ws, acts, j - 1))
  }

  ghost predicate StaleAfter(st: Store, st': Store, codec: Codec, stale: bool) {
    && stale
    && !(st.persist && !st'.persist)
    && !(st'.persist && st'.sets != map[] && FitsCap(st'.sets, codec))
  }

  // A copy the device does not know of: a boot with the switch off leaves one behind, and it stays
  // until persistence is turned off, content that fits is written, or a boot restores it.
  ghost predicate Stale(board: Board, ws: seq<World>, acts: seq<Action>, j: nat)
    requires j <= |acts| < |ws|
  {
    var st := ws[j].dev.mgr.store;
    if BootsAt(acts, j) then !st.persist && Held(st.nvs) != map[]
    else StaleAfter(ws[j - 1].dev.mgr.store, st, board.codec, Stale(board, ws, acts, j - 1))
  }

  // ----- The conditions -----

  ghost predicate NvsWorks(board: Board, ws: seq<World>, acts: seq<Action>)
    requires |ws| == |acts| + 1
  {
    && (exists nvs, switchOn :: ws[0] == Boot(board, nvs, switchOn, ALL_WELL))
    && forall i :: 0 <= i < |acts| ==>
         (acts[i].Cloud? || acts[i].Result? || acts[i].Toggle? || acts[i].Reboot? ==> acts[i].io == ALL_WELL)
  }

  // The hash tells the documents of stored content from those in NVS, and is 0 for none of them.
  ghost predicate HashTells(board: Board, ws: seq<World>) {
    forall i, j :: 0 <= i < |ws| && 0 <= j < |ws| ==> TellsApart(board, ws, i, j)
  }

  ghost predicate TellsApart(board: Board, ws: seq<World>, i: nat, j: nat)
    requires i < |ws| && j < |ws|
  {
    Distinct(board.codec, ws[i].dev.mgr.store.sets, ws[j].dev.mgr.store.nvs)
  }

  ghost predicate Distinct(codec: Codec, sets: Sets, nvs: Option<Json>) {
    var doc := SetsJson(sets);
    && codec.hash(doc) != 0
    && (nvs.Some? ==> codec.hash(nvs.value) != 0 && (codec.hash(doc) == codec.hash(nvs.value) ==> doc == nvs.value))
  }

  // ----- The mirror -----

  ghost predicate Copied(st: Store, codec: Codec, kept: Sets, stale: bool) {
    if stale then
      st.hash == 0 && Held(st.nvs) != map[] && kept == map[]
    else
      && Held(st.nvs) == kept
      && (if st.hash == 0 then kept == map[] else st.persist && st.nvs.Some? && st.hash == codec.hash(st.nvs.value))
  }

  ghost predicate Mirrored(st: Store, codec: Codec, kept: Sets, stale: bool) {
    && Copied(st, codec, kept, stale)
    && KeptAfter(st, codec, kept) == kept
    && (stale ==> !(st.persist && st.sets != map[] && FitsCap(st.sets, codec)))
  }

  lemma HeldDocument(sets: Sets)
    requires WfSets(sets)
    ensures Held(Some(SetsJson(sets))) == sets
  {
    hide SetsOf, SetsJson, WfSets;
    SetsRoundTrip(sets);
  }

  lemma SyncedMirror(st: Store, codec: Codec, kept: Sets, stale: bool)
    requires Copied(st, codec, kept, stale) && WfSets(st.sets) && Distinct(codec, st.sets, st.nvs)
    requires !st.persist ==> kept == map[]
    ensures var st' := Synced(st, codec, ALL_WELL);
            var stale' := stale && !(st.persist && st.sets != map[] && FitsCap(st.sets, codec));
            Mirrored(st', codec, KeptAfter(st, codec, kept), stale')
  {
    hide SetsJson, WfSets, SetsOf;
    HeldDocument(st.sets);
  }

  lemma MirroredOff(st: Store, codec: Codec, kept: Sets, stale: bool)
    requires Mirrored(st, codec, kept, stale)
    ensures !st.persist ==> kept == map[] && st.hash == 0
    ensures Copied(st, codec, kept, stale) && KeptAfter(st, codec, kept) == kept
  {
    hide SetsJson, SetsOf;
  }

  // New content in the same store, and what syncing makes of it.
  lemma ChangedMirror(st: Store, sets: Sets, revisions: map<string, nat>, next: nat, codec: Codec,
                      kept: Sets, stale: bool)
    requires Mirrored(st, codec, kept, stale) && WfSets(sets) && Distinct(codec, sets, st.nvs)
    ensures var st1 := st.(sets := sets, revisions := revisions, next := next);
            var st' := Synced(st1, codec, ALL_WELL);
            && st'.sets == sets && st'.persist == st.persist
            && Mirrored(st', codec, KeptAfter(st', codec, kept), StaleAfter(st, st', codec, stale))
  {
    hide SetsJson, WfSets, SetsOf, Synced, Copied, Mirrored;
    var st1 := st.(sets := sets, revisions := revisions, next := next);
    MirroredOff(st, codec, kept, stale);
    CopiedOnly(st, st1, codec, kept, stale);
    SyncedMirror(st1, codec, kept, stale);
    SyncedOk(st1, codec, ALL_WELL);
  }

  lemma CopiedOnly(st: Store, st1: Store, codec: Codec, kept: Sets, stale: bool)
    requires Copied(st, codec, kept, stale)
    requires st1.nvs == st.nvs && st1.hash == st.hash && st1.persist == st.persist
    ensures Copied(st1, codec, kept, stale)
  {
    hide Held;
  }

  lemma SameMirror(st: Store, codec: Codec, kept: Sets, stale: bool)
    requires Mirrored(st, codec, kept, stale)
    ensures Mirrored(st, codec, KeptAfter(st, codec, kept), StaleAfter(st, st, codec, stale))
  {
    hide Copied, FitsCap;
  }

  lemma TurnedMirror(st: Store, on: bool, codec: Codec, kept: Sets, stale: bool)
    requires StoreOk(st) && Mirrored(st, codec, kept, stale) && Distinct(codec, st.sets, st.nvs)
    ensures var st' := PersistTurned(st, on, codec, ALL_WELL);
            Mirrored(st', codec, KeptAfter(st', codec, kept), StaleAfter(st, st', codec, stale))
  {
    hide SetsJson, WfSets, SetsOf, Synced, RevisionsOk;
    MirroredOff(st, codec, kept, stale);
    if on == st.persist {
      SameMirror(st, codec, kept, stale);
    } else if on {
      var st1 := st.(persist := true, hash := 0);
      SyncedMirror(st1, codec, kept, stale);
      SyncedOk(st1, codec, ALL_WELL);
    }
  }

  // A boot restores what NVS holds when the switch is on, and nothing else; it takes away no
  // document it can read.
  lemma BootMirror(nvs: Option<Json>, switchOn: bool, codec: Codec)
    ensures var m := Booted(nvs, switchOn, codec, ALL_WELL); var st := m.store;
            && st.persist == switchOn && st.sets == (if switchOn then Held(nvs) else map[])
            && st.nvs == (if switchOn && nvs.Some? && SetsOf(nvs.value, map[]).None? then None else nvs)
            && (m.state == Armed <==> st.sets != map[])
    ensures var st := Booted(nvs, switchOn, codec, ALL_WELL).store;
            (st.nvs.Some? ==> codec.hash(st.nvs.value) != 0) ==>
              Mirrored(st, codec, st.sets, !st.persist && Held(st.nvs) != map[])
  {
    hide SetsJson, SetsOf, Sorted, Numbered, Less;
  }

  // ----- Every step -----

  lemma CloudMirror(w: World, board: Board, a: Action, kept: Sets, stale: bool)
    requires Joint(w) && Enabled(w, a) && a.Cloud? && a.io == ALL_WELL
    requires Mirrored(w.dev.mgr.store, board.codec, kept, stale)
    requires Distinct(board.codec, Step(w, board, a).dev.mgr.store.sets, w.dev.mgr.store.nvs)
    ensures var st, st' := w.dev.mgr.store, Step(w, board, a).dev.mgr.store;
            Mirrored(st', board.codec, KeptAfter(st', board.codec, kept), StaleAfter(st, st', board.codec, stale))
  {
    hide Step, Shape, RunIsCurrent, Synced, Changes, Replaced, RequestOf, Trim, Mirrored, KeptAfter, Distinct,
         NulFree, WfLines, StaleAfter, RevisionsOk, WfSets;
    var st := w.dev.mgr.store;
    CloudStore(w, board, a);
    SameMirror(st, board.codec, kept, stale);
    if RequestOf(a.payload).Some? && RequestOf(a.payload).value.linesOnNoInvSetup.Some? {
      var h := RequestOf(a.payload).value;
      var st1 := Replaced(st, KeyOf(h), h.linesOnNoInvSetup.value);
      RequestWf(a.payload);
      ReplacedOk(st, KeyOf(h), h.linesOnNoInvSetup.value);
      ReplacedFrame(st, KeyOf(h), h.linesOnNoInvSetup.value);
      SyncedOk(st1, board.codec, a.io);
      if Changes(st, KeyOf(h), h.linesOnNoInvSetup.value) {
        ChangedMirror(st, st1.sets, st1.revisions, st1.next, board.codec, kept, stale);
      }
    }
  }

  lemma ReplacedFrame(st: Store, key: string, lines: seq<Line>)
    ensures var st1 := Replaced(st, key, lines);
            && st1 == st.(sets := st1.sets, revisions := st1.revisions, next := st1.next)
            && (!Changes(st, key, lines) ==> st1 == st)
  {
    hide SameContent;
  }

  lemma RequestWf(payload: Payload)
    requires RequestOf(payload).Some?
    ensures var h := RequestOf(payload).value;
            NulFree(KeyOf(h)) && (h.linesOnNoInvSetup.Some? ==> WfLines(h.linesOnNoInvSetup.value))
  {
    hide HeaderOf, WfLines, NulFree, Trim;
    HeaderOfWf(payload);
    KeyNulFree(RequestOf(payload).value);
  }

  lemma ResultMirror(w: World, board: Board, a: Action, kept: Sets, stale: bool)
    requires Joint(w) && Enabled(w, a) && a.Result? && a.io == ALL_WELL
    requires Mirrored(w.dev.mgr.store, board.codec, kept, stale)
    requires Distinct(board.codec, Step(w, board, a).dev.mgr.store.sets, w.dev.mgr.store.nvs)
    ensures var st, st' := w.dev.mgr.store, Step(w, board, a).dev.mgr.store;
            Mirrored(st', board.codec, KeptAfter(st', board.codec, kept), StaleAfter(st, st', board.codec, stale))
  {
    hide Step, Shape, RunIsCurrent, Synced, Delivered, Mirrored, KeptAfter, Distinct, Revision, StaleAfter,
         RevisionsOk, WfSets;
    var m := w.dev.mgr;
    ResultStore(w, board, a);
    SameMirror(m.store, board.codec, kept, stale);
    if FinishesRun(w, a) && Delivered(w.dev.exec.header.lines) && Revision(m.store, m.currentKey) == m.currentRevision {
      var st1 := Removed(m.store, m.currentKey);
      RemovedOk(m.store, m.currentKey);
      SyncedOk(st1, board.codec, a.io);
      ChangedMirror(m.store, st1.sets, st1.revisions, st1.next, board.codec, kept, stale);
    }
  }

  lemma QuietMirror(w: World, board: Board, a: Action, kept: Sets, stale: bool)
    requires Enabled(w, a) && (a.Dispatch? || a.Poll? || a.Check?)
    requires Mirrored(w.dev.mgr.store, board.codec, kept, stale)
    ensures var st, st' := w.dev.mgr.store, Step(w, board, a).dev.mgr.store;
            Mirrored(st', board.codec, KeptAfter(st', board.codec, kept), StaleAfter(st, st', board.codec, stale))
  {
    hide Step, Mirrored, KeptAfter, StaleAfter;
    QuietStore(w, board, a);
    SameMirror(w.dev.mgr.store, board.codec, kept, stale);
  }

  lemma ToggleMirror(w: World, board: Board, a: Action, kept: Sets, stale: bool)
    requires Joint(w) && Enabled(w, a) && a.Toggle? && a.io == ALL_WELL
    requires Mirrored(w.dev.mgr.store, board.codec, kept, stale)
    requires Distinct(board.codec, w.dev.mgr.store.sets, w.dev.mgr.store.nvs)
    ensures var st, st' := w.dev.mgr.store, Step(w, board, a).dev.mgr.store;
            Mirrored(st', board.codec, KeptAfter(st', board.codec, kept), StaleAfter(st, st', board.codec, stale))
  {
    hide Step, Mirrored, KeptAfter, Distinct, StoreOk, Shape, RunIsCurrent, PersistTurned, StaleAfter;
    ToggleStore(w, board, a);
    TurnedMirror(w.dev.mgr.store, a.on, board.codec, kept, stale);
  }

  // Every action but a reboot keeps NVS, the hash guard and the preserved content in step.
  lemma StepMirror(w: World, board: Board, a: Action, kept: Sets, stale: bool)
    requires Joint(w) && Enabled(w, a) && !a.Reboot? && Mirrored(w.dev.mgr.store, board.codec, kept, stale)
    requires a.Cloud? || a.Result? || a.Toggle? ==> a.io == ALL_WELL
    requires Distinct(board.codec, w.dev.mgr.store.sets, w.dev.mgr.store.nvs)
    requires Distinct(board.codec, Step(w, board, a).dev.mgr.store.sets, w.dev.mgr.store.nvs)
    ensures var st, st' := w.dev.mgr.store, Step(w, board, a).dev.mgr.store;
            Mirrored(st', board.codec, KeptAfter(st', board.codec, kept), StaleAfter(st, st', board.codec, stale))
  {
    hide Joint, Step, Enabled, Mirrored, KeptAfter, Distinct, StaleAfter;
    match a
    case Cloud(_, _, _) => CloudMirror(w, board, a, kept, stale);
    case Result(_, _, _) => ResultMirror(w, board, a, kept, stale);
    case Dispatch(_) => QuietMirror(w, board, a, kept, stale);
    case Poll(_, _, _) => QuietMirror(w, board, a, kept, stale);
    case Check(_, _, _) => QuietMirror(w, board, a, kept, stale);
    case Toggle(_, _) => ToggleMirror(w, board, a, kept, stale);
  }

  // ----- Every run -----

  lemma BootedAt(board: Board, ws: seq<World>, acts: seq<Action>, j: nat)
    returns (nvs: Option<Json>, switchOn: bool)
    requires Behaviour(board, ws, acts) && NvsWorks(board, ws, acts) && j <= |acts| && BootsAt(acts, j)
    ensures ws[j].dev.mgr == Booted(nvs, switchOn, board.codec, ALL_WELL)
    ensures j > 0 ==> nvs == ws[j - 1].dev.mgr.store.nvs && switchOn == acts[j - 1].switchOn
  {
    hide Booted, Enabled;
    if j == 0 {
      nvs, switchOn :| ws[0] == Boot(board, nvs, switchOn, ALL_WELL);
    } else {
      nvs, switchOn := ws[j - 1].dev.mgr.store.nvs, acts[j - 1].switchOn;
    }
  }

  lemma {:induction false} MirroredAlways(board: Board, ws: seq<World>, acts: seq<Action>, j: nat)
    requires Behaviour(board, ws, acts) && NvsWorks(board, ws, acts) && HashTells(board, ws) && j <= |acts|
    ensures Mirrored(ws[j].dev.mgr.store, board.codec, Preserved(board, ws, acts, j), Stale(board, ws, acts, j))
  {
    hide Joint, Step, Enabled, Boot, Mirrored, KeptAfter, StaleAfter, Booted, Held;
    assert TellsApart(board, ws, j, j);
    if BootsAt(acts, j) {
      var nvs, switchOn := BootedAt(board, ws, acts, j);
      BootMirror(nvs, switchOn, board.codec);
    } else {
      MirroredAlways(board, ws, acts, j - 1);
      JointAlways(board, ws, acts, j - 1);
      assert TellsApart(board, ws, j - 1, j - 1) && TellsApart(board, ws, j, j - 1);
      assert ws[j] == Step(ws[j - 1], board, acts[j - 1]);
      StepMirror(ws[j - 1], board, acts[j - 1], Preserved(board, ws, acts, j - 1), Stale(board, ws, acts, j - 1));
    }
  }

  // For any NVS at power-on and any switch position at each boot: what NVS holds is the preserved
  // content exactly when the copy is not stale; a stale copy holds sets where there should be none.
  lemma NvsMirrors(board: Board, ws: seq<World>, acts: seq<Action>, j: nat)
    requires Behaviour(board, ws, acts) && NvsWorks(board, ws, acts) && HashTells(board, ws) && j <= |acts|
    ensures var held, kept := Held(ws[j].dev.mgr.store.nvs), Preserved(board, ws, acts, j);
            && (held == kept <==> !Stale(board, ws, acts, j))
            && (Stale(board, ws, acts, j) ==> held != map[] && kept == map[])
  {
    hide Step, Enabled, Boot, HashTells, Preserved, Stale, Held, KeptAfter;
    MirroredAlways(board, ws, acts, j);
  }

  // A reboot with the switch on restores what NVS holds, so the preserved content unless the copy
  // is stale; with the switch off it restores nothing and touches nothing. It erases NVS only when
  // the document there cannot be read. The restored content is the very content of the store
  // exactly when that fitted or there was none, if what is preserved fits.
  lemma RebootRestores(board: Board, ws: seq<World>, acts: seq<Action>, j: nat)
    requires Behaviour(board, ws, acts) && NvsWorks(board, ws, acts) && HashTells(board, ws)
    requires j < |acts| && acts[j].Reboot?
    ensures var st, st' := ws[j].dev.mgr.store, ws[j + 1].dev.mgr.store;
            && st'.persist == acts[j].switchOn
            && st'.sets == (if acts[j].switchOn then Held(st.nvs) else map[])
            && (acts[j].switchOn ==> (st'.sets == Preserved(board, ws, acts, j) <==> !Stale(board, ws, acts, j)))
            && (st'.nvs != st.nvs <==> acts[j].switchOn && st.nvs.Some? && SetsOf(st.nvs.value, map[]).None?)
            && (ws[j + 1].dev.mgr.state == Armed <==> st'.sets != map[])
    ensures var st, st', kept := ws[j].dev.mgr.store, ws[j + 1].dev.mgr.store, Preserved(board, ws, acts, j);
            acts[j].switchOn && st.persist && !Stale(board, ws, acts, j)
            && (kept == map[] || FitsCap(kept, board.codec)) ==>
              (st'.sets == st.sets <==> st.sets == map[] || FitsCap(st.sets, board.codec))
  {
    hide Step, Enabled, HashTells, SetsJson, Preserved, Stale, Booted, SetsOf, FitsCap;
    var st := ws[j].dev.mgr.store;
    MirroredAlways(board, ws, acts, j);
    var nvs, switchOn := BootedAt(board, ws, acts, j + 1);
    BootMirror(nvs, switchOn, board.codec);
  }

  // If the switch comes back from every reboot as it was, and power-on left no stale copy, there is
  // never one.
  lemma {:induction false} NeverStale(board: Board, ws: seq<World>, acts: seq<Action>, j: nat)
    requires Behaviour(board, ws, acts) && NvsWorks(board, ws, acts) && HashTells(board, ws) && j <= |acts|
    requires forall i :: 0 <= i < j && acts[i].Reboot? ==> acts[i].switchOn == ws[i].dev.mgr.store.persist
    requires !Stale(board, ws, acts, 0)
    ensures !Stale(board, ws, acts, j)
  {
    hide Step, Enabled, Boot, HashTells, Held, KeptAfter, StaleAfter, Booted, SetsOf;
    if j > 0 {
      NeverStale(board, ws, acts, j - 1);
      if acts[j - 1].Reboot? {
        MirroredAlways(board, ws, acts, j - 1);
        MirroredOff(ws[j - 1].dev.mgr.store, board.codec, Preserved(board, ws, acts, j - 1), false);
        var nvs, switchOn := BootedAt(board, ws, acts, j);
        BootMirror(nvs, switchOn, board.codec);
      } else {
        StaleStays(ws[j - 1].dev.mgr.store, ws[j].dev.mgr.store, board.codec);
      }
    }
  }

  lemma StaleStays(st: Store, st': Store, codec: Codec)
    ensures !StaleAfter(st, st', codec, false)
  {}

  // Whatever the device ever stores survives being written and read, and its sets have 1-50 lines.
  lemma StoredSetsRoundTrip(board: Board, ws: seq<World>, acts: seq<Action>, j: nat)
    requires Behaviour(board, ws, acts) && j <= |acts|
    ensures var sets := ws[j].dev.mgr.store.sets;
            && SetsOf(SetsJson(sets), map[]) == Some(sets)
            && forall k :: k in sets ==> 1 <= |sets[k]| <= MAX_LINES_PER_ARRAY
  {
    hide Step, Enabled, Boot, Shape, RunIsCurrent, RevisionsOk, SetsOf, SetsJson;
    JointAlways(board, ws, acts, j);
    SetsRoundTrip(ws[j].dev.mgr.store.sets);
  }

  // ----- Whatever NVS does -----

  predicate WholeCopy(nvs: Option<Json>, codec: Codec) {
    nvs.Some? ==> codec.size(nvs.value) < JSON_BUILD_TRUNCATED_SIZE
  }

  lemma SyncedWhole(st: Store, codec: Codec, io: NvsIo)
    requires WholeCopy(st.nvs, codec)
    ensures WholeCopy(Synced(st, codec, io).nvs, codec)
  {
    hide SetsJson;
  }

  lemma StepWhole(w: World, board: Board, a: Action)
    requires Enabled(w, a) && WholeCopy(w.dev.mgr.store.nvs, board.codec)
    ensures WholeCopy(Step(w, board, a).dev.mgr.store.nvs, board.codec)
  {
    hide Step, Synced, RequestOf, Trim, Changes, SameContent, Delivered, Revision, WholeCopy, Booted, PersistTurned;
    var st := w.dev.mgr.store;
    if a.Cloud? {
      CloudStore(w, board, a);
      if RequestOf(a.payload).Some? && RequestOf(a.payload).value.linesOnNoInvSetup.Some? {
        var h := RequestOf(a.payload).value;
        SyncedWhole(Replaced(st, KeyOf(h), h.linesOnNoInvSetup.value), board.codec, a.io);
      }
    } else if a.Result? {
      ResultStore(w, board, a);
      SyncedWhole(Removed(st, w.dev.mgr.currentKey), board.codec, a.io);
    } else if a.Toggle? {
      ToggleStore(w, board, a);
      TurnedWhole(st, a.on, board.codec, a.io);
    } else if a.Reboot? {
      RebootStore(w, board, a);
      BootWhole(st.nvs, a.switchOn, board.codec, a.io);
    } else {
      QuietStore(w, board, a);
    }
  }

  lemma RebootStore(w: World, board: Board, a: Action)
    requires Enabled(w, a) && a.Reboot?
    ensures Step(w, board, a).dev.mgr == Booted(w.dev.mgr.store.nvs, a.switchOn, board.codec, a.io)
  {
    hide Booted;
  }

  lemma TurnedWhole(st: Store, on: bool, codec: Codec, io: NvsIo)
    requires WholeCopy(st.nvs, codec)
    ensures WholeCopy(PersistTurned(st, on, codec, io).nvs, codec)
  {
    hide Synced;
    SyncedWhole(st.(persist := true, hash := 0), codec, io);
  }

  lemma BootWhole(nvs: Option<Json>, switchOn: bool, codec: Codec, io: NvsIo)
    requires WholeCopy(nvs, codec)
    ensures WholeCopy(Booted(nvs, switchOn, codec, io).store.nvs, codec)
  {
    hide SetsOf, SetsJson, Sorted, Numbered;
  }

  // NVS never holds a truncated document, whatever its calls do and whatever the documents hash to,
  // if it did not hold one at power-on.
  lemma {:induction false} NeverTruncated(board: Board, ws: seq<World>, acts: seq<Action>, j: nat)
    requires Behaviour(board, ws, acts) && j <= |acts| && WholeCopy(ws[0].dev.mgr.store.nvs, board.codec)
    ensures WholeCopy(ws[j].dev.mgr.store.nvs, board.codec)
  {
    hide Step, Enabled, Boot, WholeCopy;
    if j > 0 {
      NeverTruncated(board, ws, acts, j - 1);
      assert ws[j] == Step(ws[j - 1], board, acts[j - 1]);
      StepWhole(ws[j - 1], board, acts[j - 1]);
    }
  }

  // ----- Where the document comes from -----

  // It is the one of power-on, or that of a content the store once had and that fitted.
  ghost predicate HasOrigin(board: Board, ws: seq<World>, j: nat, nvs: Option<Json>)
    requires j < |ws|
  {
    nvs.Some? ==>
      nvs == ws[0].dev.mgr.store.nvs || exists i :: 0 <= i <= j && IsDocumentOf(board, ws, i, nvs)
  }

  ghost predicate IsDocumentOf(board: Board, ws: seq<World>, i: nat, nvs: Option<Json>)
    requires i < |ws|
  {
    nvs == Some(SetsJson(ws[i].dev.mgr.store.sets)) && FitsCap(ws[i].dev.mgr.store.sets, board.codec)
  }

  lemma SyncedWrites(st: Store, codec: Codec, io: NvsIo)
    ensures var st' := Synced(st, codec, io);
            st'.nvs in {None, st.nvs} || (st'.nvs == Some(SetsJson(st.sets)) && FitsCap(st.sets, codec))
  {
    hide SetsJson;
  }

  lemma TurnedWrites(st: Store, on: bool, codec: Codec, io: NvsIo)
    ensures var st' := PersistTurned(st, on, codec, io);
            st'.nvs in {None, st.nvs} || (st'.nvs == Some(SetsJson(st.sets)) && FitsCap(st.sets, codec))
  {
    hide Synced, SetsJson;
    SyncedWrites(st.(persist := true, hash := 0), codec, io);
  }

  lemma BootWrites(nvs: Option<Json>, switchOn: bool, codec: Codec, io: NvsIo)
    ensures Booted(nvs, switchOn, codec, io).store.nvs in {None, nvs}
  {
    hide SetsOf, SetsJson, Sorted, Numbered;
  }

  lemma StepWrites(w: World, board: Board, a: Action)
    requires Enabled(w, a)
    ensures var st, st' := w.dev.mgr.store, Step(w, board, a).dev.mgr.store;
            st'.nvs in {None, st.nvs} || (st'.nvs == Some(SetsJson(st'.sets)) && FitsCap(st'.sets, board.codec))
  {
    hide Step, Synced, RequestOf, Trim, Changes, SameContent, Delivered, Revision, Booted, PersistTurned, FitsCap,
         SetsJson;
    var st := w.dev.mgr.store;
    if a.Cloud? {
      CloudStore(w, board, a);
      if RequestOf(a.payload).Some? && RequestOf(a.payload).value.linesOnNoInvSetup.Some? {
        var h := RequestOf(a.payload).value;
        SyncedWrites(Replaced(st, KeyOf(h), h.linesOnNoInvSetup.value), board.codec, a.io);
        SyncedOk(Replaced(st, KeyOf(h), h.linesOnNoInvSetup.value), board.codec, a.io);
      }
    } else if a.Result? {
      ResultStore(w, board, a);
      SyncedWrites(Removed(st, w.dev.mgr.currentKey), board.codec, a.io);
      SyncedOk(Removed(st, w.dev.mgr.currentKey), board.codec, a.io);
    } else if a.Toggle? {
      ToggleStore(w, board, a);
      TurnedWrites(st, a.on, board.codec, a.io);
      TurnedSets(st, a.on, board.codec, a.io);
    } else if a.Reboot? {
      RebootStore(w, board, a);
      BootWrites(st.nvs, a.switchOn, board.codec, a.io);
    } else {
      QuietStore(w, board, a);
    }
  }

  lemma TurnedSets(st: Store, on: bool, codec: Codec, io: NvsIo)
    ensures PersistTurned(st, on, codec, io).sets == st.sets
  {
    hide Synced;
    SyncedOk(st.(persist := true, hash := 0), codec, io);
  }

  // Whatever NVS calls do: NVS is empty, holds the document of power-on, or that of a content the
  // store had and that fitted.
  lemma {:induction false} DocumentOrigin(board: Board, ws: seq<World>, acts: seq<Action>, j: nat)
    requires Behaviour(board, ws, acts) && j <= |acts|
    ensures HasOrigin(board, ws, j, ws[j].dev.mgr.store.nvs)
  {
    hide Step, Enabled, Boot, IsDocumentOf;
    if j > 0 {
      DocumentOrigin(board, ws, acts, j - 1);
      assert ws[j] == Step(ws[j - 1], board, acts[j - 1]);
      StepWrites(ws[j - 1], board, acts[j - 1]);
      WrittenNow(board, ws, j);
    }
  }

  lemma WrittenNow(board: Board, ws: seq<World>, j: nat)
    requires j < |ws|
    ensures var st := ws[j].dev.mgr.store;
            st.nvs == Some(SetsJson(st.sets)) && FitsCap(st.sets, board.codec) ==> IsDocumentOf(board, ws, j, st.nvs)
  {}

  // Unless it is that of power-on, a copy that is not stale is the very document of the preserved
  // content.
  lemma DocumentIsPreserved(board: Board, ws: seq<World>, acts: seq<Action>, j: nat)
    requires Behaviour(board, ws, acts) && NvsWorks(board, ws, acts) && HashTells(board, ws) && j <= |acts|
    ensures var nvs := ws[j].dev.mgr.store.nvs;
            nvs.Some? && nvs != ws[0].dev.mgr.store.nvs && !Stale(board, ws, acts, j) ==>
              nvs == Some(SetsJson(Preserved(board, ws, acts, j)))
  {
    hide Step, Enabled, Boot, HashTells, Preserved, Stale, Held, SetsJson, FitsCap, Joint;
    var nvs := ws[j].dev.mgr.store.nvs;
    DocumentOrigin(board, ws, acts, j);
    NvsMirrors(board, ws, acts, j);
    if nvs.Some? && nvs != ws[0].dev.mgr.store.nvs && !Stale(board, ws, acts, j) {
      var i :| 0 <= i <= j && IsDocumentOf(board, ws, i, nvs);
      JointAlways(board, ws, acts, i);
      JointWf(ws[i]);
      HeldDocument(ws[i].dev.mgr.store.sets);
    }
  }

  lemma JointWf(w: World)
    requires Joint(w)
    ensures WfSets(w.dev.mgr.store.sets)
  {
    hide Shape, RunIsCurrent, RevisionsOk;
  }
}
