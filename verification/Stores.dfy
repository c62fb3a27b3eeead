// The emergency sets, their revisions and their mirror in NVS.

module Stores {

  import opened Options
  import opened Clock
  import opened Keys
  import opened Protocol

  // How writing the blob ends. After a failed commit the blob may or may not be there.
  datatype Write = Refused | Uncommitted(landed: bool) | Committed

  // How each kind of NVS call ends during an operation: opening, asking for the length of the blob,
  // reading it, erasing it, writing it.
  datatype NvsIo = NvsIo(open: bool, query: bool, read: bool, erase: bool, write: Write)

  const ALL_WELL := NvsIo(true, true, true, true, Committed)

  // The printed size of a document and the hash of its text.
  datatype Codec = Codec(size: Json -> nat, hash: Json -> u32)

  // `nvs` is what the NVS key holds.
  datatype Store = Store(sets: Sets, revisions: map<string, nat>, next: nat,
                         persist: bool, hash: u32, nvs: Option<Json>)

  // RAM after a reset; NVS keeps its content.
  function Reset(nvs: Option<Json>): Store { Store(map[], map[], 0, false, 0, nvs) }

  // ----- Operations -----

  predicate SameLine(a: Line, b: Line) { a.lineNo == b.lineNo && a.modbus == b.modbus }

  // Equal in all that execution looks at.
  predicate SameContent(a: seq<Line>, b: seq<Line>) {
    |a| == |b| && forall i :: 0 <= i < |a| ==> SameLine(a[i], b[i])
  }

  function Removed(st: Store, key: string): Store {
    st.(sets := st.sets - {key}, revisions := st.revisions - {key})
  }

  predicate Changes(st: Store, key: string, lines: seq<Line>) {
    if |lines| == 0 then key in st.sets else !(key in st.sets && SameContent(st.sets[key], lines))
  }

  function Replaced(st: Store, key: string, lines: seq<Line>): Store {
    if !Changes(st, key, lines) then st
    else if |lines| == 0 then Removed(st, key)
    else st.(sets := st.sets[key := lines], revisions := st.revisions[key := st.next + 1], next := st.next + 1)
  }

  function Revision(st: Store, key: string): nat {
    if key in st.revisions then st.revisions[key] else 0
  }

  function Erased(nvs: Option<Json>, io: NvsIo): Option<Json> { if io.erase then None else nvs }

  ghost function Synced(st: Store, codec: Codec, io: NvsIo): Store {
    if !st.persist || !io.open then st
    else if st.sets == map[] then
      if st.hash != 0 then st.(nvs := Erased(st.nvs, io), hash := 0) else st
    else
      var doc := SetsJson(st.sets);
      if codec.size(doc) >= JSON_BUILD_TRUNCATED_SIZE || codec.hash(doc) == st.hash then st
      else
        match io.write
        case Refused => st
        case Uncommitted(landed) => if landed then st.(nvs := Some(doc)) else st
        case Committed => st.(nvs := Some(doc), hash := codec.hash(doc))
  }

  ghost function PersistTurned(st: Store, on: bool, codec: Codec, io: NvsIo): Store {
    if on == st.persist then st
    else if on then Synced(st.(persist := true, hash := 0), codec, io)
    else st.(persist := false, hash := 0, nvs := if io.open then Erased(st.nvs, io) else st.nvs)
  }

  // New revisions for `keys`, in order, after `next`.
  function Numbered(revisions: map<string, nat>, next: nat, keys: seq<string>): map<string, nat> {
    if |keys| == 0 then revisions
    else Numbered(revisions, next, keys[..|keys| - 1])[keys[|keys| - 1] := next + |keys|]
  }

  ghost function Loaded(st: Store, codec: Codec, io: NvsIo): Store {
    if !io.open || !io.query || st.nvs.None? then st
    else if !io.read || SetsOf(st.nvs.value, st.sets).None? then
      st.(sets := map[], nvs := Erased(st.nvs, io))
    else
      var sets := SetsOf(st.nvs.value, st.sets).value;
      st.(sets := sets, hash := codec.hash(st.nvs.value),
          revisions := Numbered(st.revisions, st.next, Sorted(sets.Keys)), next := st.next + |sets.Keys|)
  }

  // What load_from_nvs reports.
  ghost predicate LoadedSome(st: Store, io: NvsIo) {
    io.open && io.query && st.nvs.Some? && io.read && SetsOf(st.nvs.value, st.sets).Some?
    && SetsOf(st.nvs.value, st.sets).value != map[]
  }

  // ----- The class -----

  class EmergencyStore {
    const codec: Codec
    var sets: Sets
    var revisions: map<string, nat>
    var nextRevision: nat
    var persistEnabled: bool
    var persistedHash: u32
    var nvs: Option<Json>

    ghost function View(): Store
      reads this
    {
      Store(sets, revisions, nextRevision, persistEnabled, persistedHash, nvs)
    }

    constructor (codec: Codec, nvs: Option<Json>)
      ensures View() == Reset(nvs) && this.codec == codec
    {
      this.codec, this.nvs := codec, nvs;
      sets, revisions, nextRevision, persistEnabled, persistedHash := map[], map[], 0, false, 0;
    }

    static method SameExecutionContent(a: seq<Line>, b: seq<Line>) returns (same: bool)
      ensures same == SameContent(a, b)
    {
      if |a| != |b| {
        return false;
      }
      for i := 0 to |a|
        invariant forall j :: 0 <= j < i ==> SameLine(a[j], b[j])
      {
        if a[i].lineNo != b[i].lineNo || a[i].modbus != b[i].modbus {
          assert !SameLine(a[i], b[i]);
          return false;
        }
      }
      same := true;
    }

    method SetLines(key: string, lines: seq<Line>) returns (changed: bool)
      modifies this
      ensures View() == Replaced(old(View()), key, lines) && changed == Changes(old(View()), key, lines)
    {
      if |lines| == 0 {
        if key !in sets {
          return false;
        }
        Clear(key);
        return true;
      }
      if key in sets {
        var same := SameExecutionContent(sets[key], lines);
        if same {
          return false;
        }
      }
      sets := sets[key := lines];
      nextRevision := nextRevision + 1;
      revisions := revisions[key := nextRevision];
      changed := true;
    }

    method Clear(key: string)
      modifies this
      ensures View() == Removed(old(View()), key)
    {
      sets := sets - {key};
      revisions := revisions - {key};
    }

    method RevisionOf(key: string) returns (revision: nat)
      ensures revision == Revision(View(), key)
    {
      revision := if key in revisions then revisions[key] else 0;
    }

    method SyncNvs(io: NvsIo)
      modifies this
      ensures View() == Synced(old(View()), codec, io)
    {
      if !persistEnabled || !io.open {
        return;
      }
      if sets == map[] {
        if persistedHash != 0 {
          if io.erase { nvs := None; }
          persistedHash := 0;
        }
        return;
      }
      var doc := BuildEmergencySets(sets);
      if codec.size(doc) >= JSON_BUILD_TRUNCATED_SIZE {
        return;
      }
      var hash := codec.hash(doc);
      if hash == persistedHash || io.write.Refused? {
        return;
      }
      if io.write.Committed? || io.write.landed {
        nvs := Some(doc);
      }
      if io.write.Committed? {
        persistedHash := hash;
      }
    }

    method SetPersistEnabled(enabled: bool, io: NvsIo)
      modifies this
      ensures View() == PersistTurned(old(View()), enabled, codec, io)
    {
      if enabled == persistEnabled {
        return;
      }
      persistEnabled := enabled;
      persistedHash := 0;
      if enabled {
        SyncNvs(io);
      } else if io.open && io.erase {
        nvs := None;
      }
    }

    method LoadFromNvs(io: NvsIo) returns (some: bool)
      modifies this
      ensures View() == Loaded(old(View()), codec, io) && some == LoadedSome(old(View()), io)
    {
      if !io.open || !io.query || nvs.None? {
        return false;
      }
      var parsed := None;
      if io.read {
        parsed := ParseEmergencySets(nvs.value, sets);
      }
      if parsed.None? {
        sets := map[];
        if io.erase { nvs := None; }
        return false;
      }
      sets := parsed.value;
      persistedHash := codec.hash(nvs.value);
      Renumber();
      some := sets != map[];
    }

    method Renumber()
      modifies this`revisions, this`nextRevision
      ensures revisions == Numbered(old(revisions), old(nextRevision), Sorted(sets.Keys))
      ensures nextRevision == old(nextRevision) + |sets.Keys|
    {
      hide Less, First, IsFirst, Sorted, Numbered;
      var left := sets.Keys;
      ghost var done: seq<string> := [];
      Beginning(revisions, nextRevision, left);
      while left != {}
        invariant Sorted(sets.Keys) == done + Sorted(left) && |done| + |left| == |sets.Keys|
        invariant revisions == Numbered(old(revisions), old(nextRevision), done)
        invariant nextRevision == old(nextRevision) + |done|
        decreases |left|
      {
        var first := FindFirst(left);
        FirstIn(left);
        NumberedExtend(old(revisions), old(nextRevision), done, first.value);
        SortedExtend(left, done, first.value);
        nextRevision := nextRevision + 1;
        revisions := revisions[first.value := nextRevision];
        done := done + [first.value];
        left := left - {first.value};
      }
      NoneLeft(done);
    }
  }

  lemma Beginning(revisions: map<string, nat>, next: nat, keys: set<string>)
    ensures Numbered(revisions, next, []) == revisions && Sorted(keys) == [] + Sorted(keys)
  {}

  lemma NumberedExtend(revisions: map<string, nat>, next: nat, done: seq<string>, k: string)
    ensures Numbered(revisions, next, done + [k]) == Numbered(revisions, next, done)[k := next + |done| + 1]
  {
    assert (done + [k])[..|done|] == done;
  }

  // ----- The invariant of the store -----

  ghost predicate RevisionsOk(revisions: map<string, nat>, next: nat) {
    && (forall k :: k in revisions ==> 1 <= revisions[k] <= next)
    && (forall k, l :: k in revisions && l in revisions && revisions[k] == revisions[l] ==> k == l)
  }

  // Same keys in both maps, revisions distinct and used up to `next`, every set of 1-50 sound lines.
  ghost predicate StoreOk(st: Store) {
    st.sets.Keys == st.revisions.Keys && RevisionsOk(st.revisions, st.next) && WfSets(st.sets)
  }

  lemma RemovedOk(st: Store, key: string)
    requires StoreOk(st)
    ensures StoreOk(Removed(st, key))
  {
    hide WfLines, NulFree;
  }

  lemma RevisionsGrow(revisions: map<string, nat>, next: nat, key: string)
    requires RevisionsOk(revisions, next)
    ensures RevisionsOk(revisions[key := next + 1], next + 1)
  {}

  lemma SetsGrow(sets: Sets, key: string, lines: seq<Line>)
    requires WfSets(sets) && NulFree(key) && WfLines(lines) && |lines| > 0
    ensures WfSets(sets[key := lines])
  {
    hide WfLines, NulFree;
  }

  lemma ReplacedOk(st: Store, key: string, lines: seq<Line>)
    requires StoreOk(st) && NulFree(key) && WfLines(lines)
    ensures StoreOk(Replaced(st, key, lines))
  {
    hide WfSets, WfLines, NulFree, SameContent, RevisionsOk;
    if |lines| == 0 {
      RemovedOk(st, key);
    } else {
      SetsGrow(st.sets, key, lines);
      RevisionsGrow(st.revisions, st.next, key);
    }
  }

  // ----- What a set that arrives does to the store -----

  // The key is stored with these line numbers and frames, position by position; it keeps its
  // revision exactly when it was stored with them already, and a new one is new to the store. Every
  // other key stays as it was.
  lemma SetArrives(st: Store, key: string, lines: seq<Line>)
    requires StoreOk(st) && |lines| > 0
    ensures var st' := Replaced(st, key, lines);
            && key in st'.sets && |st'.sets[key]| == |lines|
            && (forall i :: 0 <= i < |lines| ==>
                  st'.sets[key][i].lineNo == lines[i].lineNo && st'.sets[key][i].modbus == lines[i].modbus)
            && (Revision(st', key) == Revision(st, key) <==>
                  && key in st.sets && |st.sets[key]| == |lines|
                  && forall i :: 0 <= i < |lines| ==>
                       st.sets[key][i].lineNo == lines[i].lineNo && st.sets[key][i].modbus == lines[i].modbus)
            && (Revision(st', key) != Revision(st, key) ==>
                  st'.sets[key] == lines && forall k :: k in st.sets ==> Revision(st, k) < Revision(st', key))
            && st'.sets - {key} == st.sets - {key} && st'.revisions - {key} == st.revisions - {key}
  {
    hide WfSets;
    if key in st.sets && |st.sets[key]| == |lines| {
      ContentIs(st.sets[key], lines);
    }
  }

  lemma ContentIs(a: seq<Line>, b: seq<Line>)
    requires |a| == |b|
    ensures SameContent(a, b) <==> forall i :: 0 <= i < |a| ==> a[i].lineNo == b[i].lineNo && a[i].modbus == b[i].modbus
  {
    if SameContent(a, b) {
      forall i | 0 <= i < |a| ensures a[i].lineNo == b[i].lineNo && a[i].modbus == b[i].modbus {
        assert SameLine(a[i], b[i]);
      }
    }
  }

  // An empty set takes the key and its revision away, and nothing else.
  lemma EmptySetArrives(st: Store, key: string)
    requires StoreOk(st)
    ensures var st' := Replaced(st, key, []);
            && key !in st'.sets && Revision(st', key) == 0 && st'.next == st.next
            && st'.sets == st.sets - {key} && st'.revisions == st.revisions - {key}
  {
    hide WfSets;
  }

  lemma SyncedOk(st: Store, codec: Codec, io: NvsIo)
    ensures var s := Synced(st, codec, io);
            s.sets == st.sets && s.revisions == st.revisions && s.next == st.next && s.persist == st.persist
  {
    hide SetsJson;
  }

  lemma {:induction false} NumberedFresh(next: nat, keys: seq<string>)
    requires Ascending(keys)
    ensures var r := Numbered(map[], next, keys);
            && (forall k :: k in r <==> k in keys)
            && (forall i :: 0 <= i < |keys| ==> keys[i] in r && r[keys[i]] == next + i + 1)
  {
    hide Less;
    if |keys| > 0 {
      var n := |keys| - 1;
      NumberedFresh(next, keys[..n]);
      AscendingDistinct(keys);
      assert keys == keys[..n] + [keys[n]];
    }
  }

  lemma NumberedOk(keys: seq<string>)
    requires Ascending(keys)
    ensures RevisionsOk(Numbered(map[], 0, keys), |keys|)
  {
    hide Less;
    NumberedFresh(0, keys);
    var r := Numbered(map[], 0, keys);
    forall k, l | k in r && l in r && r[k] == r[l] ensures k == l {
      var i :| 0 <= i < |keys| && keys[i] == k;
      var j :| 0 <= j < |keys| && keys[j] == l;
    }
    forall k | k in r ensures 1 <= r[k] <= |keys| {
      var i :| 0 <= i < |keys| && keys[i] == k;
    }
  }

  lemma NumberedSorted(keys: set<string>)
    ensures Numbered(map[], 0, Sorted(keys)).Keys == keys
    ensures RevisionsOk(Numbered(map[], 0, Sorted(keys)), |keys|)
  {
    hide Less, Numbered, RevisionsOk;
    SortedHasAll(keys);
    SortedAscends(keys);
    NumberedFresh(0, Sorted(keys));
    NumberedOk(Sorted(keys));
  }

  lemma LoadedOk(nvs: Option<Json>, codec: Codec, io: NvsIo, persist: bool, hash: u32)
    ensures StoreOk(Loaded(Reset(nvs).(persist := persist, hash := hash), codec, io))
  {
    hide WfSets, RevisionsOk, Less, Numbered, SetsOf, Sorted;
    RevisionsOkEmpty();
    if io.open && io.query && io.read && nvs.Some? && SetsOf(nvs.value, map[]).Some? {
      SetsOfWf(nvs.value);
      NumberedSorted(SetsOf(nvs.value, map[]).value.Keys);
    }
  }

  lemma RevisionsOkEmpty()
    ensures RevisionsOk(map[], 0) && WfSets(map[])
  {}
}
