// What is left in NVS when its calls fail, and which later writes make up for it.

module Faults {

  import opened Options
  import opened Keys
  import opened Protocol
  import opened Batches
  import opened Stores
  import opened Manager
  import opened Dongle
  import opened System
  import opened Mirror

  // One sync after another of the same content, each with its own outcome.
  ghost function SyncedAll(st: Store, codec: Codec, ios: seq<NvsIo>): Store {
    if |ios| == 0 then st else Synced(SyncedAll(st, codec, ios[..|ios| - 1]), codec, ios[|ios| - 1])
  }

  // Content whose document is under the cap and not taken for written already.
  ghost predicate ToWrite(st: Store, codec: Codec) {
    st.persist && st.sets != map[] && codec.size(SetsJson(st.sets)) < 5119
    && codec.hash(SetsJson(st.sets)) != st.hash
  }

  ghost predicate Written(st: Store, codec: Codec) {
    st.nvs == Some(SetsJson(st.sets)) && st.hash == codec.hash(SetsJson(st.sets))
  }

  lemma SyncTries(st: Store, codec: Codec, io: NvsIo)
    requires ToWrite(st, codec) || (st.persist && st.sets != map[] && Written(st, codec))
    ensures var st' := Synced(st, codec, io);
            && st'.sets == st.sets && st'.persist
            && (ToWrite(st', codec) || Written(st', codec)) && (io == ALL_WELL ==> Written(st', codec))
            && (Written(st', codec) <==> Written(st, codec) || (io.open && io.write == Committed))
  {
    hide SetsJson;
  }

  // However many syncs of it were refused, not committed or could not open NVS, the next one whose
  // calls work leaves the document there; and nothing but a commit makes the device take it for
  // written.
  lemma {:induction false} NextSyncWrites(st: Store, codec: Codec, ios: seq<NvsIo>)
    requires ToWrite(st, codec)
    ensures var st' := SyncedAll(st, codec, ios);
            && st'.sets == st.sets && st'.persist && (ToWrite(st', codec) || Written(st', codec))
            && (Written(st', codec) <==> exists i :: 0 <= i < |ios| && ios[i].open && ios[i].write == Committed)
            && Written(Synced(st', codec, ALL_WELL), codec)
  {
    hide Synced, ToWrite, Written;
    PersistsSome(st, codec);
    if |ios| > 0 {
      var init := ios[..|ios| - 1];
      var before := SyncedAll(st, codec, init);
      NextSyncWrites(st, codec, init);
      SyncTries(before, codec, ios[|ios| - 1]);
      if i :| 0 <= i < |init| && init[i].open && init[i].write == Committed {
        assert ios[i] == init[i];
      }
    }
    SyncTries(SyncedAll(st, codec, ios), codec, ALL_WELL);
  }

  lemma PersistsSome(st: Store, codec: Codec)
    requires ToWrite(st, codec)
    ensures st.persist && st.sets != map[] && !Written(st, codec)
  {}

  // But a message only leads to a sync when it changes something: what is stored, sent again, makes
  // up for no failed write, whatever its tags, timestamps and errors.
  lemma ResendWritesNothing(w: World, board: Board, a: Action, h: Header, lines: seq<Line>)
    requires Joint(w) && Enabled(w, a) && a.Cloud? && RequestOf(a.payload) == Some(h)
    requires h.linesOnNoInvSetup == Some(lines) && KeyOf(h) in w.dev.mgr.store.sets
    requires var stored := w.dev.mgr.store.sets[KeyOf(h)];
             |stored| == |lines| && forall i :: 0 <= i < |lines| ==>
               stored[i].lineNo == lines[i].lineNo && stored[i].modbus == lines[i].modbus
    ensures Step(w, board, a).dev.mgr.store == w.dev.mgr.store
  {
    hide Step, Synced, KeyOf, RequestOf, SameContent, Shape, RunIsCurrent, RevisionsOk, WfLines, NulFree;
    CloudStore(w, board, a);
    ContentIs(w.dev.mgr.store.sets[KeyOf(h)], lines);
  }

  // A write that landed without its commit is not noticed: when the content goes back to what was
  // committed before it, the guard takes that for written and NVS keeps the document in between.
  lemma GoingBackIsMissed(st: Store, between: Sets, codec: Codec, landed: bool)
    requires st.persist && st.sets != map[] && Written(st, codec)
    requires ToWrite(st.(sets := between), codec)
    ensures var failing := ALL_WELL.(write := Uncommitted(landed));
            var st1 := Synced(st.(sets := between), codec, failing);
            var st2 := Synced(st1.(sets := st.sets), codec, ALL_WELL);
            && st2.nvs == Some(SetsJson(if landed then between else st.sets))
            && (Written(st2, codec) <==> !landed)
  {
    hide SetsJson;
  }

  // ----- The switch and the boot -----

  // Turning the switch off takes the copy away when NVS opens and erases, and only then; turning it on
  // again writes what fits, whatever the device took for written before.
  lemma OffThenOn(st: Store, codec: Codec, io: NvsIo)
    requires st.persist
    ensures var off := PersistTurned(st, false, codec, io);
            && !off.persist && off.sets == st.sets
            && off.nvs == (if io.open && io.erase then None else st.nvs)
            && (st.sets != map[] && codec.size(SetsJson(st.sets)) < 5119 && codec.hash(SetsJson(st.sets)) != 0 ==>
                  Written(PersistTurned(off, true, codec, ALL_WELL), codec))
  {
    hide SetsJson;
  }

  // A boot restores the copy when the switch is on and NVS opens, tells its length and reads; it
  // erases a copy only when that much worked but reading it, or making sense of it, did not.
  lemma BootWithFaults(nvs: Option<Json>, switchOn: bool, codec: Codec, io: NvsIo)
    ensures var m := Booted(nvs, switchOn, codec, io);
            var makesSense := nvs.Some? && SetsOf(nvs.value, map[]).Some?;
            var looks := switchOn && io.open && io.query;
            && m.store.sets == (if looks && io.read then Held(nvs) else map[])
            && (m.state == Armed <==> m.store.sets != map[])
            && m.store.nvs == (if looks && io.erase && !(io.read && makesSense) then None else nvs)
  {
    hide SetsJson, SetsOf, Sorted, Numbered, Less;
  }
}
