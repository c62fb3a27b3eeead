// The emergency delivery machine: the hourly deadline, the send cycle and the retries.

module Manager {

  import opened Options
  import opened Clock
  import opened Keys
  import opened Protocol
  import opened Executor
  import opened Batches
  import opened Stores

  const CHECK_INTERVAL_MS: u32 := 5 * 1000

  // A valid wall-clock reading, in seconds since the epoch, UTC.
  type Epoch = t: int | t > 0 witness 1

  datatype State = Empty | Armed | Queued | Executing | Backoff

  datatype Config = Config(minuteThreshold: nat, retryInitial: u32, retryMax: u32)

  // lastInvSetup is 0 when no InvSetup is known.
  datatype Mgr = Mgr(state: State, store: Store, lastInvSetup: nat, bootAwaiting: bool, invAwaiting: bool,
                     cloudBack: bool, walkFromStart: bool, currentKey: string, currentRevision: nat,
                     retryDelay: u32, retryAt: u32, lastCheck: u32, runs: u32, delivered: u32)

  function FreshMgr(st: Store): Mgr {
    Mgr(Empty, st, 0, false, false, false, false, "", 0, 60 * 1000, 0, 0, 0, 0)
  }

  predicate IsSpace(c: char) {
    c == ' ' || c == '\t' || c == '\r' || c == '\n' || c == '\U{000C}' || c == '\U{000B}'
  }

  function TrimStart(s: string): string {
    if |s| > 0 && IsSpace(s[0]) then TrimStart(s[1..]) else s
  }

  function TrimEnd(s: string): string {
    if |s| > 0 && IsSpace(s[|s| - 1]) then TrimEnd(s[..|s| - 1]) else s
  }

  function Trim(s: string): string { TrimEnd(TrimStart(s)) }

  function KeyOf(h: Header): string {
    if h.subInverterSn.Some? then Trim(h.subInverterSn.value) else ""
  }

  predicate CarriesInvSetup(h: Header) { h.isInvSetup.Some? && h.isInvSetup.value != 0 }

  // ----- Operations -----

  ghost function Booted(nvs: Option<Json>, switchOn: bool, codec: Codec, io: NvsIo): Mgr {
    if !switchOn then FreshMgr(Reset(nvs))
    else
      var st := PersistTurned(Reset(nvs), true, codec, io);
      var m := FreshMgr(Loaded(st, codec, io));
      if LoadedSome(st, io) then m.(bootAwaiting := true, state := Armed) else m
  }

  function InvSetupSeen(m: Mgr, wall: Option<Epoch>): Mgr {
    var m1 := match wall
      case Some(ts) => m.(lastInvSetup := ts, invAwaiting := false)
      case None => m.(invAwaiting := true);
    var m2 := m1.(bootAwaiting := false);
    match m.state
    case Backoff => m2.(state := Armed)
    case Queued => m2.(cloudBack := true)
    case Executing => m2.(cloudBack := true)
    case Empty => m2
    case Armed => m2
  }

  ghost function LinesStored(m: Mgr, key: string, lines: seq<Line>, codec: Codec, io: NvsIo): Mgr {
    var st := Replaced(m.store, key, lines);
    var st' := if Changes(m.store, key, lines) then Synced(st, codec, io) else st;
    m.(store := st',
       state := if st'.sets == map[] then (if m.state == Executing then Executing else Empty)
                else if m.state == Empty then Armed else m.state)
  }

  ghost function FieldsHandled(m: Mgr, h: Header, wall: Option<Epoch>, codec: Codec, io: NvsIo): Mgr {
    var m1 := if CarriesInvSetup(h) then InvSetupSeen(m, wall) else m;
    if h.linesOnNoInvSetup.Some? then LinesStored(m1, KeyOf(h), h.linesOnNoInvSetup.value, codec, io) else m1
  }

  function MinuteOf(ts: Epoch): nat { (ts % 3600) / 60 }

  function TopOfHour(ts: Epoch): int { ts - ts % 3600 }

  // The hourly deadline has passed without an InvSetup this hour.
  predicate Due(lastInvSetup: nat, threshold: nat, ts: Epoch) {
    MinuteOf(ts) > threshold && lastInvSetup != 0 && lastInvSetup < TopOfHour(ts)
  }

  function Checked(m: Mgr, cfg: Config, wall: Option<Epoch>, retryNow: u32): Mgr {
    match m.state
    case Backoff =>
      if Reached(retryNow, m.retryAt) then m.(walkFromStart := true, state := Queued) else m
    case Armed =>
      if m.store.sets == map[] then m.(state := Empty)
      else if wall.None? then m
      else if m.invAwaiting || m.bootAwaiting then
        m.(invAwaiting := false, bootAwaiting := false, lastInvSetup := wall.value)
      else if Due(m.lastInvSetup, cfg.minuteThreshold, wall.value) then
        m.(retryDelay := cfg.retryInitial, walkFromStart := true, state := Queued)
      else m
    case Empty => m
    case Queued => m
    case Executing => m
  }

  function Ticked(m: Mgr, cfg: Config, wall: Option<Epoch>, now: u32, retryNow: u32): Mgr {
    if Elapsed(now, m.lastCheck, CHECK_INTERVAL_MS) then Checked(m.(lastCheck := now), cfg, wall, retryNow) else m
  }

  // The next set of the cycle, if any.
  ghost function NextKey(m: Mgr): (k: Option<string>)
    ensures k.Some? ==> k.value in m.store.sets
  {
    Next(m.store.sets.Keys, m.walkFromStart, m.currentKey)
  }

  function RunHeader(key: string, lines: seq<Line>): Header {
    EMPTY_HEADER.(emergency := true, subInverterSn := if key == "" then None else Some(key), lines := lines)
  }

  ghost function SetStarted(m: Mgr): Mgr {
    match NextKey(m)
    case None => m.(cloudBack := false, state := if m.store.sets == map[] then Empty else Armed)
    case Some(k) =>
      m.(walkFromStart := false, currentKey := k, currentRevision := Revision(m.store, k),
         runs := Add(m.runs, 1), state := Executing)
  }

  ghost function ResultStored(m: Mgr, lines: seq<Line>, codec: Codec, io: NvsIo): Mgr {
    if !Delivered(lines) then m
    else
      m.(delivered := Add(m.delivered, 1),
         store := if Revision(m.store, m.currentKey) == m.currentRevision
                  then Synced(Removed(m.store, m.currentKey), codec, io) else m.store)
  }

  function Min32(a: u32, b: u32): u32 { if a < b then a else b }

  ghost function CycleStep(m: Mgr, cfg: Config, now: u32): Mgr {
    if Above(m.store.sets.Keys, m.currentKey) != {} then m.(state := Queued)
    else if m.store.sets == map[] then m.(lastInvSetup := 0, cloudBack := false, state := Empty)
    else if m.cloudBack then m.(cloudBack := false, state := Armed)
    else m.(state := Backoff, retryAt := Add(now, m.retryDelay),
            retryDelay := Min32(Wrap(m.retryDelay * 2), cfg.retryMax))
  }

  ghost function ResultHandled(m: Mgr, cfg: Config, lines: seq<Line>, now: u32, codec: Codec, io: NvsIo): Mgr {
    CycleStep(ResultStored(m, lines, codec, io), cfg, now)
  }

  // ----- The class -----

  class EmergencyManager {
    const executor: ModbusExecutor
    const store: EmergencyStore
    const config: Config
    var state: State
    var lastInvSetup: nat
    var bootAwaiting: bool
    var invAwaiting: bool
    var cloudBack: bool
    var walkFromStart: bool
    var currentKey: string
    var currentRevision: nat
    var retryDelay: u32
    var retryAt: u32
    var lastCheck: u32
    var runs: u32
    var delivered: u32

    ghost function View(): Mgr
      reads this, store
    {
      Mgr(state, store.View(), lastInvSetup, bootAwaiting, invAwaiting, cloudBack, walkFromStart, currentKey,
          currentRevision, retryDelay, retryAt, lastCheck, runs, delivered)
    }

    constructor (executor: ModbusExecutor, store: EmergencyStore, config: Config)
      ensures View() == FreshMgr(store.View())
      ensures this.executor == executor && this.store == store && this.config == config
    {
      this.executor, this.store, this.config := executor, store, config;
      state, lastInvSetup, bootAwaiting, invAwaiting, cloudBack := Empty, 0, false, false, false;
      walkFromStart, currentKey, currentRevision := false, "", 0;
      retryDelay, retryAt, lastCheck, runs, delivered := 60 * 1000, 0, 0, 0, 0;
    }

    // `switchOn` is the restored state of the persist switch, false when there is none.
    method Setup(switchOn: bool, io: NvsIo)
      requires View() == FreshMgr(Reset(store.nvs))
      modifies this, store
      ensures View() == Booted(old(store.nvs), switchOn, store.codec, io)
    {
      if !switchOn {
        return;
      }
      store.SetPersistEnabled(true, io);
      var some := store.LoadFromNvs(io);
      if some {
        bootAwaiting := true;
        state := Armed;
      }
    }

    method NoteInvSetup(wall: Option<Epoch>)
      modifies this
      ensures View() == InvSetupSeen(old(View()), wall)
    {
      if wall.Some? {
        lastInvSetup := wall.value;
        invAwaiting := false;
      } else {
        invAwaiting := true;
      }
      bootAwaiting := false;
      match state {
        case Backoff => state := Armed;
        case Queued => cloudBack := true;
        case Executing => cloudBack := true;
        case Empty =>
        case Armed =>
      }
    }

    method StoreLines(key: string, lines: seq<Line>, io: NvsIo)
      modifies this, store
      ensures View() == LinesStored(old(View()), key, lines, store.codec, io)
    {
      hide Replaced, Changes, Synced;
      var changed := store.SetLines(key, lines);
      if changed {
        store.SyncNvs(io);
      }
      if store.sets == map[] {
        if state != Executing {
          state := Empty;
        }
      } else if state == Empty {
        state := Armed;
      }
    }

    method HandleFields(header: Header, wall: Option<Epoch>, io: NvsIo)
      modifies this, store
      ensures View() == FieldsHandled(old(View()), header, wall, store.codec, io)
    {
      hide InvSetupSeen, LinesStored;
      if header.isInvSetup.Some? && header.isInvSetup.value != 0 {
        NoteInvSetup(wall);
      }
      if header.linesOnNoInvSetup.Some? {
        var key := if header.subInverterSn.Some? then Trim(header.subInverterSn.value) else "";
        StoreLines(key, header.linesOnNoInvSetup.value, io);
      }
    }

    method Loop(now: u32, wall: Option<Epoch>, retryNow: u32)
      modifies this
      ensures View() == Ticked(old(View()), config, wall, now, retryNow)
    {
      if Sub(now, lastCheck) >= CHECK_INTERVAL_MS {
        lastCheck := now;
        CheckTrigger(wall, retryNow);
      }
    }

    method CheckTrigger(wall: Option<Epoch>, retryNow: u32)
      modifies this
      ensures View() == Checked(old(View()), config, wall, retryNow)
    {
      hide Reached;
      if state == Backoff {
        if Reached(retryNow, retryAt) {
          walkFromStart := true;
          state := Queued;
        }
        return;
      }
      if state != Armed {
        return;
      }
      if store.sets == map[] {
        state := Empty;
        return;
      }
      if wall.None? {
        return;
      }
      var ts := wall.value;
      if invAwaiting || bootAwaiting {
        invAwaiting := false;
        bootAwaiting := false;
        lastInvSetup := ts;
        return;
      }
      var minute := MinuteOf(ts);
      var topOfHour := TopOfHour(ts);
      if minute > config.minuteThreshold && lastInvSetup != 0 && lastInvSetup < topOfHour {
        retryDelay := config.retryInitial;
        walkFromStart := true;
        state := Queued;
      }
    }

    method BeginSet(key: string)
      modifies this
      ensures View() == old(View()).(walkFromStart := false, currentKey := key,
                                     currentRevision := Revision(old(store.View()), key),
                                     runs := Add(old(runs), 1), state := Executing)
    {
      walkFromStart := false;
      currentKey := key;
      currentRevision := store.RevisionOf(key);
      runs := Add(runs, 1);
      state := Executing;
    }

    // Picks the next set, or ends the cycle.
    method SelectNextSet() returns (header: Option<Header>)
      modifies this
      ensures View() == SetStarted(old(View()))
      ensures var m := old(View());
              header == if NextKey(m).Some?
                        then Some(RunHeader(NextKey(m).value, m.store.sets[NextKey(m).value])) else None
    {
      hide Next, RunHeader, Less, Revision;
      var next := FindNext(store.sets.Keys, walkFromStart, currentKey);
      assert next == NextKey(View());
      if next.None? {
        cloudBack := false;
        state := if store.sets == map[] then Empty else Armed;
        return None;
      }
      header := Some(RunHeader(next.value, store.sets[next.value]));
      BeginSet(next.value);
    }

    method StartNextSet(now: u32)
      modifies this, executor
      ensures var m := old(View());
              && View() == SetStarted(m)
              && executor.View() == if NextKey(m).Some?
                 then Started(old(executor.View()), RunHeader(NextKey(m).value, m.store.sets[NextKey(m).value]), now)
                 else old(executor.View())
    {
      hide SetStarted, NextKey, Started, RunHeader;
      var header := SelectNextSet();
      if header.Some? {
        executor.Start(header.value, now);
      }
    }

    method HandleResult(header: Header, now: u32, io: NvsIo)
      modifies this, store
      ensures View() == ResultHandled(old(View()), config, header.lines, now, store.codec, io)
    {
      var wasDelivered := false;
      for i := 0 to |header.lines|
        invariant wasDelivered <==>
                  exists j :: 0 <= j < i && header.lines[j].error == "" && header.lines[j].HasPayload()
      {
        var line := header.lines[i];
        if line.error == "" && line.modbus.Some? && line.modbus.value != "" {
          assert header.lines[i].HasPayload();
          wasDelivered := true;
        }
      }
      assert wasDelivered == Delivered(header.lines);
      if wasDelivered {
        delivered := Add(delivered, 1);
        var stored := store.RevisionOf(currentKey);
        if stored == currentRevision {
          store.Clear(currentKey);
          store.SyncNvs(io);
        }
      }
      assert View() == ResultStored(old(View()), header.lines, store.codec, io);
      NextCycleStep(now);
    }

    method NextCycleStep(now: u32)
      modifies this
      ensures View() == CycleStep(old(View()), config, now)
    {
      var higher := FindNext(store.sets.Keys, false, currentKey);
      if higher.Some? {
        state := Queued;
        return;
      }
      if store.sets == map[] {
        lastInvSetup := 0;
        cloudBack := false;
        state := Empty;
        return;
      }
      if cloudBack {
        cloudBack := false;
        state := Armed;
        return;
      }
      state := Backoff;
      retryAt := Add(now, retryDelay);
      retryDelay := Min32(Wrap(retryDelay * 2), config.retryMax);
    }
  }

  lemma {:induction false} TrimStartNulFree(s: string)
    requires NulFree(s)
    ensures NulFree(TrimStart(s))
    decreases |s|
  {
    if |s| > 0 && IsSpace(s[0]) {
      assert forall c :: c in s[1..] ==> c in s;
      TrimStartNulFree(s[1..]);
    }
  }

  lemma {:induction false} TrimEndNulFree(s: string)
    requires NulFree(s)
    ensures NulFree(TrimEnd(s))
    decreases |s|
  {
    if |s| > 0 && IsSpace(s[|s| - 1]) {
      assert forall c :: c in s[..|s| - 1] ==> c in s;
      TrimEndNulFree(s[..|s| - 1]);
    }
  }

  lemma KeyNulFree(h: Header)
    requires NulFreeIf(h.subInverterSn)
    ensures NulFree(KeyOf(h))
  {
    if h.subInverterSn.Some? {
      TrimStartNulFree(h.subInverterSn.value);
      TrimEndNulFree(TrimStart(h.subInverterSn.value));
    }
  }

  // ----- What trimming leaves -----

  // The six characters that are trimmed away.
  predicate AllBlank(s: string) {
    forall i :: 0 <= i < |s| ==> s[i] in " \t\r\n\U{000B}\U{000C}"
  }

  lemma {:induction false} TrimStartIs(s: string)
    ensures var r := TrimStart(s);
            && |r| <= |s| && r == s[|s| - |r|..] && AllBlank(s[..|s| - |r|])
            && (r != "" ==> r[0] !in " \t\r\n\U{000B}\U{000C}")
  {
    if |s| > 0 && IsSpace(s[0]) {
      TrimStartIs(s[1..]);
      var n := |s| - |TrimStart(s)|;
      assert s[..n] == [s[0]] + s[1..][..n - 1];
    }
  }

  lemma {:induction false} TrimEndIs(s: string)
    ensures var r := TrimEnd(s);
            && |r| <= |s| && r == s[..|r|] && AllBlank(s[|r|..])
            && (r != "" ==> r[|r| - 1] !in " \t\r\n\U{000B}\U{000C}")
  {
    if |s| > 0 && IsSpace(s[|s| - 1]) {
      var n := |s| - 1;
      TrimEndIs(s[..n]);
      var r := TrimEnd(s);
      assert s[..n][..|r|] == s[..|r|];
      assert s[|r|..] == s[..n][|r|..] + [s[n]];
    }
  }

  // The key is the serial number without the blanks around it, and nothing more is taken; it is the
  // empty key when there is no serial number.
  lemma KeyIsTrimmed(h: Header)
    ensures h.subInverterSn.None? ==> KeyOf(h) == ""
    ensures h.subInverterSn.Some? ==>
              var key := KeyOf(h);
              && (exists front, back :: AllBlank(front) && AllBlank(back) &&
                                        h.subInverterSn.value == front + key + back)
              && (key != "" ==> && key[0] !in " \t\r\n\U{000B}\U{000C}"
                                && key[|key| - 1] !in " \t\r\n\U{000B}\U{000C}")
  {
    hide AllBlank;
    if h.subInverterSn.Some? {
      var s := h.subInverterSn.value;
      var t := TrimStart(s);
      var key := KeyOf(h);
      TrimStartIs(s);
      TrimEndIs(t);
      assert s == s[..|s| - |t|] + key + t[|key|..];
      assert key != "" ==> key[0] == t[0];
    }
  }

  lemma TrimKeeps(s: string)
    requires s != "" ==> !IsSpace(s[0]) && !IsSpace(s[|s| - 1])
    ensures Trim(s) == s
  {}

  // The batch of a run carries the key it runs, as a serial number unless it is the empty key.
  lemma RunNamesKey(key: string, lines: seq<Line>)
    requires key != "" ==> !IsSpace(key[0]) && !IsSpace(key[|key| - 1])
    ensures var h := RunHeader(key, lines);
            && KeyOf(h) == key && (h.subInverterSn.None? <==> key == "")
            && h.emergency && h.lines == lines
  {
    hide Trim, IsSpace;
    TrimKeeps(key);
  }
}
