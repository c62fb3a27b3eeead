// Concrete runs from power-on that show what the theorems leave possible.

module Scenarios {

  import opened Options
  import opened Clock
  import opened Crc
  import opened Hex
  import opened Keys
  import opened Protocol
  import opened Executor
  import opened Batches
  import opened Stores
  import opened Manager
  import opened Dongle
  import opened System
  import opened Cycle
  import opened CloudBack
  import opened Gaps
  import opened Retries
  import opened Deadlines
  import opened Mirror

  // ----- Messages -----

  // A message that stores `lines` under `key`, or clears it when there are none.
  function SetMessage(key: string, lines: seq<Line>, invSetup: bool): Payload {
    Payload(1000, Some(JObject(map["SubInverterSN" := JString(key), "LinesOnNoInvSetup" := JArray(JsonsOf(lines)),
                                   "IsInvSetup" := JInt(if invSetup then 1 else 0)])))
  }

  function SetHeader(key: string, lines: seq<Line>, invSetup: bool): Header {
    EMPTY_HEADER.(subInverterSn := Some(key), isInvSetup := Some(if invSetup then 1 else 0),
                  linesOnNoInvSetup := Some(lines))
  }

  lemma SetMessageRead(key: string, lines: seq<Line>, invSetup: bool)
    requires NulFree(key) && WfLines(lines)
    ensures RequestOf(SetMessage(key, lines, invSetup)) == Some(SetHeader(key, lines, invSetup))
  {
    hide LinesOf, JsonsOf, WfLines;
    CStrNulFree(key);
    LinesRoundTrip(lines);
  }

  // One command that carries `frame`.
  function Command(frame: seq<byte>): seq<Line> { [Line(1, None, None, Some(Encoded(frame)), "")] }

  function RequestMessage(lines: seq<Line>): Payload {
    Payload(1000, Some(JObject(map["Lines" := JArray(JsonsOf(lines))])))
  }

  lemma RequestMessageRead(lines: seq<Line>)
    requires WfLines(lines)
    ensures RequestOf(RequestMessage(lines)) == Some(EMPTY_HEADER.(lines := lines))
  {
    hide LinesOf, JsonsOf, WfLines;
    LinesRoundTrip(lines);
  }

  lemma DigitNotNul(n: bv8)
    requires n < 16
    ensures HexDigit(n) != '\0'
  {}

  lemma {:induction false} EncodedNulFree(frame: seq<byte>)
    ensures NulFree(Encoded(frame))
  {
    hide HexDigit, HighNibble, LowNibble;
    if |frame| > 0 {
      var b := frame[|frame| - 1];
      EncodedNulFree(frame[..|frame| - 1]);
      NibbleBounds(b);
      DigitNotNul(HighNibble(b));
      DigitNotNul(LowNibble(b));
    }
  }

  // A set of one line, which sends `frame`.
  predicate Carries(lines: seq<Line>, frame: seq<byte>) {
    |frame| >= 4 && |lines| == 1 && lines[0].HasPayload() && Decoded(lines[0].modbus.value) == Some(frame)
  }

  lemma CommandWf(frame: seq<byte>)
    requires |frame| >= 4
    ensures WfLines(Command(frame)) && Carries(Command(frame), frame)
  {
    EncodedNulFree(frame);
    DecodeEncode(frame);
  }

  // ----- Steps -----

  lemma Extend(board: Board, ws: seq<World>, acts: seq<Action>, a: Action)
    requires Behaviour(board, ws, acts) && (a.Dispatch? ==> ws[|acts|].dev.exec.phase != Done)
    ensures Enabled(ws[|acts|], a)
    ensures Behaviour(board, ws + [Step(ws[|acts|], board, a)], acts + [a])
    ensures Joint(ws[|acts|]) && Joint(Step(ws[|acts|], board, a))
  {
    hide Step, Boot, Joint;
    JointAlways(board, ws, acts, |acts|);
    JointReady(ws[|acts|]);
    StepKeepsJoint(ws[|acts|], board, a);
    var ws', acts' := ws + [Step(ws[|acts|], board, a)], acts + [a];
    assert ws'[0] == ws[0];
    forall i | 0 <= i < |acts'| ensures Enabled(ws'[i], acts'[i]) && ws'[i + 1] == Step(ws'[i], board, acts'[i]) {
      if i < |acts| {
        assert ws'[i] == ws[i] && ws'[i + 1] == ws[i + 1] && acts'[i] == acts[i];
      }
    }
  }

  lemma FirstWorld(board: Board, nvs: Option<Json>, switchOn: bool)
    ensures Behaviour(board, [Boot(board, nvs, switchOn, ALL_WELL)], [])
  {
    hide Boot, Step, Enabled;
  }

  // A quiet device: nothing on the bus, nothing awaited.
  ghost predicate Rests(w: World, state: State, sets: Sets, stamp: nat, flag: bool, checked: u32) {
    var m := w.dev.mgr;
    && w.dev.exec.phase == Idle && w.dev.uart == []
    && m.state == state && m.store.sets == sets && m.lastInvSetup == stamp && m.cloudBack == flag
    && m.lastCheck == checked && !m.invAwaiting && !m.bootAwaiting
  }

  lemma BootRests(board: Board)
    ensures var w := Boot(board, None, false, ALL_WELL);
            Rests(w, Empty, map[], 0, false, 0) && w.dev.exec == FRESH
  {}

  function SetAction(key: string, lines: seq<Line>, invSetup: bool, t: Epoch): Action {
    Cloud(SetMessage(key, lines, invSetup), WallClock(t, true), ALL_WELL)
  }

  lemma SetStep(w: World, board: Board, key: string, lines: seq<Line>, invSetup: bool, t: Epoch,
                state: State, sets: Sets, stamp: nat, flag: bool, checked: u32)
    requires Rests(w, state, sets, stamp, flag, checked) && Enabled(w, SetAction(key, lines, invSetup, t))
    requires NulFree(key) && Trim(key) == key && WfLines(lines) && (key in sets <==> |lines| == 0)
    ensures var w' := Step(w, board, SetAction(key, lines, invSetup, t));
            var sets' := if |lines| == 0 then sets - {key} else sets[key := lines];
            && Rests(w', StateAfterCloud(state, invSetup, true, sets' == map[]), sets', if invSetup then t else stamp,
                     flag || (invSetup && state in {Queued, Executing}), checked)
            && w'.dev.mgr.walkFromStart == w.dev.mgr.walkFromStart && w'.dev.mgr.currentKey == w.dev.mgr.currentKey
            && w'.dev.exec == w.dev.exec
    ensures IsInvSetup(SetAction(key, lines, invSetup, t)) == invSetup
  {
    hide Step, SetMessage, StateAfterCloud, WfLines, Trim, NulFree, RequestOf, SameContent, Enabled;
    var a := SetAction(key, lines, invSetup, t);
    SetMessageRead(key, lines, invSetup);
    CloudStore(w, board, a);
    CloudEffectOf(w, board, a);
    CloudStateOf(w, board, a);
    CloudKeepsBus(w, board, a);
    SyncedOk(Replaced(w.dev.mgr.store, key, lines), board.codec, ALL_WELL);
  }

  lemma CloudKeepsBus(w: World, board: Board, a: Action)
    requires Enabled(w, a) && a.Cloud?
    ensures Step(w, board, a).dev.exec == w.dev.exec && Step(w, board, a).dev.uart == w.dev.uart
  {
    hide FieldsHandled, RequestOf;
  }

  lemma CheckStep(w: World, board: Board, ms: nat, ts: Epoch, sets: Sets, stamp: nat, flag: bool, checked: u32)
    requires Rests(w, Armed, sets, stamp, flag, checked) && sets != map[]
    requires var a := Check(ms, ms, WallClock(ts, true)); Enabled(w, a)
    requires Elapsed(Wrap(ms), checked, CHECK_INTERVAL_MS) && Due(stamp, board.config.minuteThreshold, ts)
    ensures var w' := Step(w, board, Check(ms, ms, WallClock(ts, true)));
            && Rests(w', Queued, sets, stamp, flag, Wrap(ms)) && w'.dev.mgr.walkFromStart
            && w'.dev.exec == w.dev.exec && w'.dev.mgr.retryDelay == board.config.retryInitial
  {
    hide Due, Elapsed;
  }

  // ----- A run that gets no answer -----

  ghost predicate OnBus(w: World, phase: Phase, lines: seq<Line>, frame: seq<byte>, m: Mgr) {
    var e := w.dev.exec;
    && e.phase == phase && e.header.emergency && e.header.lines == lines && e.lineIndex == 0
    && e.tx == frame && e.rx == []
    && w.dev.uart == [] && w.dev.mgr == m
  }

  lemma GoesOnBus(w: World, board: Board, ms: nat, k: string, lines: seq<Line>, frame: seq<byte>)
    requires Enabled(w, Dispatch(ms)) && w.dev.exec == FRESH && w.dev.uart == []
    requires w.dev.mgr.state == Queued && NextKey(w.dev.mgr) == Some(k)
    requires w.dev.mgr.store.sets[k] == lines && Carries(lines, frame)
    ensures var w' := Step(w, board, Dispatch(ms));
            OnBus(w', Gap, lines, frame, SetStarted(w.dev.mgr)) && w'.dev.exec.gapUntil == 0
  {
    hide NextKey, SetStarted, Decoded, Encoded;
  }

  lemma GoesOut(w: World, board: Board, ms: nat, lines: seq<Line>, frame: seq<byte>, m: Mgr)
    requires Enabled(w, Poll(ms, ms, [])) && OnBus(w, Gap, lines, frame, m) && w.dev.exec.gapUntil == 0 && ms < TWO31
    ensures var w' := Step(w, board, Poll(ms, ms, []));
            OnBus(w', RxWait, lines, frame, m) && w'.dev.exec.txDoneAt == ms
  {}

  lemma TimesOut(w: World, board: Board, ms: nat, lines: seq<Line>, frame: seq<byte>, m: Mgr)
    requires var late := ms + board.settings.responseTimeout; Enabled(w, Poll(late, late, []))
    requires OnBus(w, RxWait, lines, frame, m) && w.dev.exec.txDoneAt == ms && ms < TWO31 && |lines| > 0
    ensures var late := ms + board.settings.responseTimeout;
            var e := Step(w, board, Poll(late, late, [])).dev.exec;
            && e.phase == Done && e.header.emergency && e.header.lines == FailedLines(lines, 0, "Response timeout")
            && Step(w, board, Poll(late, late, [])).dev.mgr == m
            && Step(w, board, Poll(late, late, [])).dev.uart == []
  {
    hide FailedLines;
    assert Wrap(ms) == ms;
    WrapSub(ms + board.settings.responseTimeout, ms);
  }

  lemma Undelivered(w: World, board: Board, ms: nat, frame: seq<byte>)
    requires Enabled(w, Result(ms, ALL_WELL, "")) && w.dev.exec.phase == Done && w.dev.exec.header.emergency
    requires w.dev.exec.header.lines == FailedLines(Command(frame), 0, "Response timeout")
    ensures var w' := Step(w, board, Result(ms, ALL_WELL, ""));
            && w'.dev.mgr == CycleStep(w.dev.mgr, board.config, Wrap(ms))
            && w'.dev.exec.phase == Idle && w'.dev.uart == w.dev.uart
    ensures !Delivered(w.dev.exec.header.lines)
  {
    hide CycleStep, FailedLines, Encoded;
  }

  function NoAnswer(ms: nat, timeout: u32): seq<Action> {
    [Dispatch(ms), Poll(ms, ms, []), Poll(ms + timeout, ms + timeout, []), Result(ms + timeout, ALL_WELL, "")]
  }

  lemma FourActs(ms: nat, timeout: u32)
    ensures |NoAnswer(ms, timeout)| == 4
  {}

  ghost predicate Extends(ws: seq<World>, acts: seq<Action>, more: seq<Action>, ws': seq<World>) {
    |ws| == |acts| + 1 && |ws'| == |ws| + |more| && ws'[..|ws|] == ws
  }

  // The set at hand is sent, gets no answer, and the manager takes the next step of its cycle.
  lemma SentUnanswered(board: Board, ws: seq<World>, acts: seq<Action>, ms: nat, k: string, frame: seq<byte>)
    returns (ws': seq<World>)
    requires Behaviour(board, ws, acts) && |frame| >= 4 && ms < TWO31
    requires var w := ws[|acts|];
             && w.dev.exec == FRESH && w.dev.uart == []
             && w.dev.mgr.state == Queued && NextKey(w.dev.mgr) == Some(k)
             && w.dev.mgr.store.sets[k] == Command(frame)
    ensures Extends(ws, acts, NoAnswer(ms, board.settings.responseTimeout), ws')
    ensures Behaviour(board, ws', acts + NoAnswer(ms, board.settings.responseTimeout))
    ensures var n, acts4 := |acts|, NoAnswer(ms, board.settings.responseTimeout);
            var m1 := SetStarted(ws[n].dev.mgr);
            && (forall x :: n < x < n + 4 ==> ws'[x].dev.mgr == m1)
            && ws'[n + 4].dev.mgr == CycleStep(m1, board.config, Wrap(ms + board.settings.responseTimeout))
            && ws'[n + 4].dev.exec.phase == Idle && ws'[n + 4].dev.uart == []
            && FinishesRun(ws'[n + 3], acts4[3]) && !Delivered(ws'[n + 3].dev.exec.header.lines)
  {
    hide Step, Enabled, Boot, Joint, SetStarted, NextKey, CycleStep, Command, Delivered, FailedLines, Carries;
    var late := ms + board.settings.responseTimeout;
    var acts4 := NoAnswer(ms, board.settings.responseTimeout);
    var n := |acts|;
    var m1 := SetStarted(ws[n].dev.mgr);
    CommandOne(frame);
    CommandWf(frame);
    Extend(board, ws, acts, acts4[0]);
    GoesOnBus(ws[n], board, ms, k, Command(frame), frame);
    var w1 := Step(ws[n], board, acts4[0]);
    Extend(board, ws + [w1], acts + acts4[..1], acts4[1]);
    GoesOut(w1, board, ms, Command(frame), frame, m1);
    var w2 := Step(w1, board, acts4[1]);
    assert acts + acts4[..1] + [acts4[1]] == acts + acts4[..2];
    Extend(board, ws + [w1] + [w2], acts + acts4[..2], acts4[2]);
    TimesOut(w2, board, ms, Command(frame), frame, m1);
    var w3 := Step(w2, board, acts4[2]);
    assert acts + acts4[..2] + [acts4[2]] == acts + acts4[..3];
    Extend(board, ws + [w1] + [w2] + [w3], acts + acts4[..3], acts4[3]);
    Undelivered(w3, board, late, frame);
    var w4 := Step(w3, board, acts4[3]);
    assert acts + acts4[..3] + [acts4[3]] == acts + acts4;
    ws' := ws + [w1] + [w2] + [w3] + [w4];
  }

  lemma CommandOne(frame: seq<byte>)
    ensures |Command(frame)| == 1
  {}

  // ----- Restored sets -----

  lemma RestoredBoot(board: Board, sets: Sets)
    requires WfSets(sets) && sets != map[]
    ensures var w := Boot(board, Some(SetsJson(sets)), true, ALL_WELL);
            && w.dev.mgr.state == Armed && w.dev.mgr.bootAwaiting && w.dev.mgr.store.sets == sets
            && w.dev.mgr.lastCheck == 0 && w.dev.exec == FRESH
  {
    hide SetsJson, SetsOf, Sorted, Numbered, WfSets;
    SetsRoundTrip(sets);
  }

  lemma AwaitingCheck(w: World, board: Board, ms: nat, ts: Epoch)
    requires var a := Check(ms, ms, WallClock(ts, true)); Enabled(w, a)
    requires w.dev.mgr.state == Armed && w.dev.mgr.bootAwaiting && w.dev.mgr.store.sets != map[]
    requires Elapsed(Wrap(ms), w.dev.mgr.lastCheck, CHECK_INTERVAL_MS) && w.dev.exec.phase == Idle && w.dev.uart == []
    ensures var w' := Step(w, board, Check(ms, ms, WallClock(ts, true)));
            && Rests(w', Armed, w.dev.mgr.store.sets, ts, w.dev.mgr.cloudBack, Wrap(ms))
            && w'.dev.exec == w.dev.exec
  {
    hide Elapsed;
  }

  // Whatever sets NVS holds at power-on, they go out in the second hour without a single message:
  // the first clocked check stamps, and a check past the threshold of the next hour fires.
  lemma RestoredSetsFire(board: Board, sets: Sets) returns (ws: seq<World>, acts: seq<Action>)
    requires WfSets(sets) && sets != map[] && board.config.minuteThreshold <= 58
    ensures Behaviour(board, ws, acts) && |acts| == 2 && ws[0].dev.mgr.bootAwaiting
    ensures !Spoke(acts, 0, 2) && EntersQueued(ws, acts, 1) && ws[1].dev.mgr.state == Armed
  {
    hide Step, Enabled, Boot, Joint, Due, WfSets, SetsJson, Elapsed;
    var nvs := Some(SetsJson(sets));
    var a0, a1 := Check(5000, 5000, WallClock(1, true)), Check(10000, 10000, WallClock(7140, true));
    var w0 := Boot(board, nvs, true, ALL_WELL);
    FirstWorld(board, nvs, true);
    RestoredBoot(board, sets);
    RestoredUart(board, nvs);
    FiveSeconds();
    HourlyDue(board.config.minuteThreshold);
    Extend(board, [w0], [], a0);
    AwaitingCheck(w0, board, 5000, 1);
    var w1 := Step(w0, board, a0);
    Extend(board, [w0] + [w1], [] + [a0], a1);
    CheckStep(w1, board, 10000, 7140, sets, 1, w0.dev.mgr.cloudBack, 5000);
    var w2 := Step(w1, board, a1);
    ws, acts := [w0] + [w1] + [w2], [] + [a0] + [a1];
  }

  lemma RestoredUart(board: Board, nvs: Option<Json>)
    ensures Boot(board, nvs, true, ALL_WELL).dev.uart == []
  {
    hide Booted;
  }

  lemma FiveSeconds()
    ensures Elapsed(Wrap(5000), 0, CHECK_INTERVAL_MS) && Wrap(5000) == 5000
    ensures Elapsed(Wrap(10000), 5000, CHECK_INTERVAL_MS) && Wrap(10000) == 10000
  {}

  // Minute 59 of the hour after 1, of the one after 7140, and of the one after that.
  lemma HourlyDue(threshold: nat)
    requires threshold <= 58
    ensures Due(1, threshold, 7140) && Due(7140, threshold, 10740) && Due(7140, threshold, 10741)
  {}

  // ----- A flag left over -----

  lemma OneKey()
    ensures NulFree("a") && Trim("a") == "a" && NulFree("b") && Trim("b") == "b" && Less("a", "b") && !Less("b", "a")
    ensures !Less("a", "a")
  {}

  // A moment after an unanswered run that began at `start`, at least 5 s after it.
  function After(start: nat, timeout: u32): nat { start + if timeout < 5000 then 5000 else timeout }

  lemma AfterElapsed(start: nat, timeout: u32)
    requires start < TWO31
    ensures Elapsed(Wrap(After(start, timeout)), start, CHECK_INTERVAL_MS)
  {
    assert Wrap(start) == start;
    WrapSub(After(start, timeout), start);
  }

  lemma FirstOfOne(m: Mgr)
    requires m.walkFromStart && m.store.sets.Keys == {"a"}
    ensures NextKey(m) == Some("a")
  {
    hide Less;
  }

  lemma FirstOfTwo(m: Mgr)
    requires m.walkFromStart && m.store.sets.Keys == {"a", "b"}
    ensures NextKey(m) == Some("a")
  {
    hide Less;
    OneKey();
    var k := NextKey(m).value;
    assert k in m.store.sets.Keys && "a" in m.store.sets.Keys;
  }

  // The manager after a run of "a" without an answer.
  lemma UnansweredStep(m: Mgr, cfg: Config, now: u32)
    requires m.state == Queued && NextKey(m) == Some("a")
    ensures var m1, m' := SetStarted(m), CycleStep(SetStarted(m), cfg, now);
            && m1.state == Executing && m'.store == m.store && m'.lastInvSetup == m.lastInvSetup
            && m'.lastCheck == m.lastCheck && m'.invAwaiting == m.invAwaiting && m'.bootAwaiting == m.bootAwaiting
            && m'.currentKey == "a" && !m'.walkFromStart
            && (m.store.sets.Keys == {"a"} && m.cloudBack ==> m'.state == Armed && !m'.cloudBack)
            && (m.store.sets.Keys == {"a", "b"} ==> m'.state == Queued && m'.cloudBack == m.cloudBack)
  {
    hide Less, NextKey;
    OneKey();
    if m.store.sets.Keys == {"a", "b"} {
      assert "b" in Above(m.store.sets.Keys, "a");
    } else if m.store.sets.Keys == {"a"} {
      assert Above(m.store.sets.Keys, "a") == {};
    }
  }

  function LeftOverStart(frame: seq<byte>): seq<Action> {
    [SetAction("a", Command(frame), true, 1),            // ARMED
     Check(5000, 5000, WallClock(7140, true)),           // QUEUED
     SetAction("a", [], true, 7140),                     // EMPTY, with the flag up
     SetAction("a", Command(frame), false, 7140),        // ARMED
     Check(10000, 10000, WallClock(10740, true))]        // QUEUED
  }

  lemma LeftOverQueued(board: Board, frame: seq<byte>) returns (ws: seq<World>)
    requires |frame| >= 4 && board.config.minuteThreshold <= 58
    ensures Behaviour(board, ws, LeftOverStart(frame)) && |ws| == 6
    ensures ws[4].dev.mgr.state == Armed && ws[5].dev.exec == FRESH
    ensures Rests(ws[5], Queued, map["a" := Command(frame)], 7140, true, 10000) && ws[5].dev.mgr.walkFromStart
  {
    hide Behaviour, Boot, Due, Elapsed, Command, Trim, NulFree, WfLines, Less, SetAction;
    var acts := LeftOverStart(frame);
    var sets: Sets := map["a" := Command(frame)];
    CommandWf(frame);
    CommandOne(frame);
    NothingWf();
    OneKey();
    FiveSeconds();
    HourlyDue(board.config.minuteThreshold);
    FirstWorld(board, None, false);
    BootRests(board);
    assert map[]["a" := Command(frame)] == sets && sets - {"a"} == map[];
    ws := [Boot(board, None, false, ALL_WELL)];
    ws := SetExtend(board, ws, [], "a", Command(frame), true, 1, Empty, map[], 0, false, 0);
    assert [] + [acts[0]] == acts[..1];
    ws := CheckExtend(board, ws, acts[..1], 5000, 7140, sets, 1, false, 0);
    assert acts[..1] + [acts[1]] == acts[..2];
    ws := SetExtend(board, ws, acts[..2], "a", [], true, 7140, Queued, sets, 1, false, 5000);
    assert acts[..2] + [acts[2]] == acts[..3];
    ws := SetExtend(board, ws, acts[..3], "a", Command(frame), false, 7140, Empty, map[], 7140, true, 5000);
    assert acts[..3] + [acts[3]] == acts[..4];
    ghost var w4 := ws[4];
    RestsState(w4, Armed, sets, 7140, true, 5000);
    ws := CheckExtend(board, ws, acts[..4], 10000, 10740, sets, 7140, true, 5000);
    assert acts[..4] + [acts[4]] == acts;
  }

  lemma RestsState(w: World, state: State, sets: Sets, stamp: nat, flag: bool, checked: u32)
    requires Rests(w, state, sets, stamp, flag, checked)
    ensures w.dev.mgr.state == state
  {}

  lemma SetExtend(board: Board, ws: seq<World>, acts: seq<Action>, key: string, lines: seq<Line>, invSetup: bool,
                  t: Epoch, state: State, sets: Sets, stamp: nat, flag: bool, checked: u32) returns (ws': seq<World>)
    requires Behaviour(board, ws, acts) && |ws| == |acts| + 1
    requires Rests(ws[|acts|], state, sets, stamp, flag, checked)
    requires NulFree(key) && Trim(key) == key && WfLines(lines) && (key in sets <==> |lines| == 0)
    ensures Behaviour(board, ws', acts + [SetAction(key, lines, invSetup, t)]) && |ws'| == |ws| + 1 && ws'[..|ws|] == ws
    ensures var w, w' := ws[|acts|], ws'[|ws|];
            var sets' := if |lines| == 0 then sets - {key} else sets[key := lines];
            && Rests(w', StateAfterCloud(state, invSetup, true, sets' == map[]), sets', if invSetup then t else stamp,
                     flag || (invSetup && state in {Queued, Executing}), checked)
            && w'.dev.mgr.walkFromStart == w.dev.mgr.walkFromStart && w'.dev.mgr.currentKey == w.dev.mgr.currentKey
            && w'.dev.exec == w.dev.exec
  {
    hide Step, Boot, Rests, StateAfterCloud, WfLines, Trim, NulFree, SetMessage;
    var a := SetAction(key, lines, invSetup, t);
    Extend(board, ws, acts, a);
    SetStep(ws[|acts|], board, key, lines, invSetup, t, state, sets, stamp, flag, checked);
    ws' := ws + [Step(ws[|acts|], board, a)];
  }

  lemma CheckExtend(board: Board, ws: seq<World>, acts: seq<Action>, ms: nat, ts: Epoch, sets: Sets, stamp: nat,
                    flag: bool, checked: u32) returns (ws': seq<World>)
    requires Behaviour(board, ws, acts) && |ws| == |acts| + 1
    requires Rests(ws[|acts|], Armed, sets, stamp, flag, checked) && sets != map[]
    requires Elapsed(Wrap(ms), checked, CHECK_INTERVAL_MS) && Due(stamp, board.config.minuteThreshold, ts)
    ensures Behaviour(board, ws', acts + [Check(ms, ms, WallClock(ts, true))]) && |ws'| == |ws| + 1 && ws'[..|ws|] == ws
    ensures var w, w' := ws[|acts|], ws'[|ws|];
            && Rests(w', Queued, sets, stamp, flag, Wrap(ms)) && w'.dev.mgr.walkFromStart && w'.dev.exec == w.dev.exec
            && w'.dev.mgr.retryDelay == board.config.retryInitial
  {
    hide Step, Boot, Rests, Elapsed, Due;
    var a := Check(ms, ms, WallClock(ts, true));
    Extend(board, ws, acts, a);
    CheckStep(ws[|acts|], board, ms, ts, sets, stamp, flag, checked);
    ws' := ws + [Step(ws[|acts|], board, a)];
  }

  lemma NothingWf()
    ensures WfLines([])
  {}

  function LeftOverActs(frame: seq<byte>, timeout: u32): seq<Action> {
    LeftOverStart(frame) + NoAnswer(10000, timeout)
    + [Check(After(10000, timeout), After(10000, timeout), WallClock(10741, true))]
  }

  // From power-on: a message with InvSetup clears the only set while its cycle waits, the flag stays
  // up, and the next cycle, in which no InvSetup comes, is sent, not answered, not backed off from
  // and sent again at the next check.
  lemma FlagLeftOverRun(board: Board, frame: seq<byte>) returns (ws: seq<World>, acts: seq<Action>)
    requires |frame| >= 4 && board.config.minuteThreshold <= 58
    ensures Behaviour(board, ws, acts) && |acts| == 10
    ensures TriggeredAt(ws, acts, 4) && (forall x :: 4 < x <= 8 ==> InCycle(ws[x])) && !Spoke(acts, 5, 8)
    ensures FinishesRun(ws[8], acts[8]) && !Delivered(ws[8].dev.exec.header.lines)
    ensures ws[9].dev.mgr.state == Armed && ws[9].dev.mgr.store.sets != map[]
    ensures acts[9].Check? && ws[10].dev.mgr.state == Queued
  {
    hide Behaviour, Boot, Due, Elapsed, Command, Less, SetStarted, CycleStep, NextKey, Delivered, Step, Enabled, Joint,
         Spoke, FinishesRun, NoAnswer;
    var timeout: nat := board.settings.responseTimeout;
    var sets: Sets := map["a" := Command(frame)];
    var start := LeftOverStart(frame);
    acts := LeftOverActs(frame, timeout);
    var ws5 := LeftOverQueued(board, frame);
    assert sets.Keys == {"a"};
    FirstOfOne(ws5[5].dev.mgr);
    UnansweredStep(ws5[5].dev.mgr, board.config, Wrap(10000 + timeout));
    var ws9 := SentUnanswered(board, ws5, start, 10000, "a", frame);
    assert ws9[..6] == ws5 && ws9[4] == ws5[4] && ws9[5] == ws5[5];
    AfterElapsed(10000, timeout);
    FourActs(10000, timeout);
    HourlyDue(board.config.minuteThreshold);
    ws := CheckExtend(board, ws9, start + NoAnswer(10000, timeout), After(10000, timeout), 10741, sets, 7140, false,
                      10000);
    assert forall x :: 0 <= x < 10 ==> ws[x] == ws9[x];
    QuietActs(frame, timeout);
  }

  lemma QuietActs(frame: seq<byte>, timeout: u32)
    ensures var acts := LeftOverActs(frame, timeout);
            && |acts| == 10 && acts[4] == LeftOverStart(frame)[4] && acts[8] == NoAnswer(10000, timeout)[3]
            && acts == LeftOverStart(frame) + NoAnswer(10000, timeout) + [acts[9]] && acts[9].Check?
            && acts[9] == Check(After(10000, timeout), After(10000, timeout), WallClock(10741, true))
            && !Spoke(acts, 5, 8)
  {
    hide IsInvSetup, Command;
    var acts := LeftOverActs(frame, timeout);
    assert acts[4] == LeftOverStart(frame)[4];
    forall x | 5 <= x < 9 ensures acts[x] == NoAnswer(10000, timeout)[x - 5] && !IsInvSetup(acts[x]) {
      NoInvSetup(acts[x]);
    }
  }

  // ----- A dispatch that ends a cycle -----

  function ClearedAheadStart(frame: seq<byte>): seq<Action> {
    [SetAction("a", Command(frame), true, 1),      // ARMED
     SetAction("b", Command(frame), false, 1),
     Check(5000, 5000, WallClock(7140, true))]     // QUEUED
  }

  function ClearedAheadActs(frame: seq<byte>, timeout: u32): seq<Action> {
    ClearedAheadStart(frame) + NoAnswer(5000, timeout)
    + [SetAction("b", [], false, 7140), Dispatch(5000 + timeout),
       Check(After(5000, timeout), After(5000, timeout), WallClock(7140, true))]
  }

  lemma TwoQueued(board: Board, frame: seq<byte>) returns (ws: seq<World>)
    requires |frame| >= 4 && board.config.minuteThreshold <= 58
    ensures Behaviour(board, ws, ClearedAheadStart(frame)) && |ws| == 4
    ensures ws[2].dev.mgr.state == Armed && ws[3].dev.exec == FRESH
    ensures Rests(ws[3], Queued, map["a" := Command(frame), "b" := Command(frame)], 1, false, 5000)
    ensures ws[3].dev.mgr.walkFromStart
  {
    hide Behaviour, Boot, Due, Elapsed, Command, Trim, NulFree, WfLines, Less, SetAction;
    var acts := ClearedAheadStart(frame);
    var one: Sets := map["a" := Command(frame)];
    var two: Sets := map["a" := Command(frame), "b" := Command(frame)];
    CommandWf(frame);
    CommandOne(frame);
    OneKey();
    FiveSeconds();
    HourlyDue(board.config.minuteThreshold);
    FirstWorld(board, None, false);
    BootRests(board);
    assert map[]["a" := Command(frame)] == one && one["b" := Command(frame)] == two;
    ws := [Boot(board, None, false, ALL_WELL)];
    ws := SetExtend(board, ws, [], "a", Command(frame), true, 1, Empty, map[], 0, false, 0);
    assert [] + [acts[0]] == acts[..1];
    ws := SetExtend(board, ws, acts[..1], "b", Command(frame), false, 1, Armed, one, 1, false, 0);
    assert acts[..1] + [acts[1]] == acts[..2];
    RestsState(ws[2], Armed, two, 1, false, 0);
    ws := CheckExtend(board, ws, acts[..2], 5000, 7140, two, 1, false, 0);
    assert acts[..2] + [acts[2]] == acts;
  }

  // The last key of the walk is cleared after its predecessor got no answer: the next dispatch
  // finds nothing ahead.
  lemma DispatchEnds(w: World, board: Board, ms: nat, sets: Sets, stamp: nat, flag: bool, checked: u32)
    requires Joint(w) && Enabled(w, Dispatch(ms)) && Rests(w, Queued, sets, stamp, flag, checked)
    requires !w.dev.mgr.walkFromStart && w.dev.mgr.currentKey == "a" && sets.Keys == {"a"}
    ensures Rests(Step(w, board, Dispatch(ms)), Armed, sets, stamp, false, checked)
  {
    hide Less, Joint, Started;
    OneKey();
    assert Above(sets.Keys, "a") == {};
  }

  // Up to the message that clears "b".
  lemma ClearedAhead(board: Board, frame: seq<byte>) returns (ws: seq<World>)
    requires |frame| >= 4 && board.config.minuteThreshold <= 58
    ensures |ClearedAheadActs(frame, board.settings.responseTimeout)| == 10 && |ws| == 9
    ensures var acts := ClearedAheadActs(frame, board.settings.responseTimeout);
            && Behaviour(board, ws, acts[..8]) && FinishesRun(ws[6], acts[6])
    ensures ws[2].dev.mgr.state == Armed && ws[3].dev.mgr.state == Queued && !ws[3].dev.mgr.cloudBack
    ensures forall x :: 3 < x < 7 ==> ws[x].dev.mgr.state == Executing
    ensures !Delivered(ws[6].dev.exec.header.lines) && ws[6].dev.mgr.currentKey == "a"
    ensures ws[7].dev.mgr.state == Queued && Rests(ws[8], Queued, map["a" := Command(frame)], 1, false, 5000)
    ensures !ws[8].dev.mgr.walkFromStart && ws[8].dev.mgr.currentKey == "a"
  {
    hide Behaviour, Boot, Due, Elapsed, Command, Less, CycleStep, NextKey, Delivered, Trim, WfLines, Joint, Step;
    var timeout: nat := board.settings.responseTimeout;
    var two: Sets := map["a" := Command(frame), "b" := Command(frame)];
    var start := ClearedAheadStart(frame);
    var acts := ClearedAheadActs(frame, timeout);
    var ws3 := TwoQueued(board, frame);
    assert two.Keys == {"a", "b"} && two - {"b"} == map["a" := Command(frame)];
    FirstOfTwo(ws3[3].dev.mgr);
    UnansweredStep(ws3[3].dev.mgr, board.config, Wrap(5000 + timeout));
    StartedA(ws3[3].dev.mgr);
    var ws7 := SentUnanswered(board, ws3, start, 5000, "a", frame);
    assert ws7[..4] == ws3 && ws7[2] == ws3[2] && ws7[3] == ws3[3];
    OneKey();
    NothingWf();
    var acts7 := start + NoAnswer(5000, timeout);
    ws := SetExtend(board, ws7, acts7, "b", [], false, 7140, Queued, two, 1, false, 5000);
    assert ws[..8] == ws7 && ws[2] == ws7[2] && ws[3] == ws7[3] && ws[6] == ws7[6] && ws[7] == ws7[7];
    assert acts[..8] == acts7 + [acts[7]] && acts[6] == NoAnswer(5000, timeout)[3];
  }

  lemma StartedA(m: Mgr)
    requires m.state == Queued && NextKey(m) == Some("a")
    ensures SetStarted(m).currentKey == "a"
  {
    hide NextKey;
  }

  // From power-on: no InvSetup comes during the cycle and the flag is down, yet the cycle ends in
  // ARMED with "a" unanswered, and the next check sends it again without backoff.
  lemma DispatchLeavesRun(board: Board, frame: seq<byte>) returns (ws: seq<World>, acts: seq<Action>)
    requires |frame| >= 4 && board.config.minuteThreshold <= 58
    ensures Behaviour(board, ws, acts) && |acts| == 10
    ensures TriggeredAt(ws, acts, 2) && (forall x :: 2 < x <= 8 ==> InCycle(ws[x])) && acts[8].Dispatch?
    ensures !Spoke(acts, 3, 8) && !ws[3].dev.mgr.cloudBack
    ensures FinishesRun(ws[6], acts[6]) && !Delivered(ws[6].dev.exec.header.lines) && ws[6].dev.mgr.currentKey == "a"
    ensures ws[9].dev.mgr.state == Armed && "a" in ws[9].dev.mgr.store.sets
    ensures acts[9].Check? && ws[10].dev.mgr.state == Queued
  {
    hide Boot, Due, Elapsed, Command, Less, Delivered, Joint, Step, Enabled, Spoke, FinishesRun, NoAnswer;
    var timeout: nat := board.settings.responseTimeout;
    var one: Sets := map["a" := Command(frame)];
    var ws8 := ClearedAhead(board, frame);
    acts := ClearedAheadActs(frame, timeout);
    SilentActs(frame, timeout);
    Extend(board, ws8, acts[..8], acts[8]);
    assert one.Keys == {"a"} && acts[..8] + [acts[8]] == acts[..9] && acts[..9] + [acts[9]] == acts;
    DispatchEnds(ws8[8], board, 5000 + timeout, one, 1, false, 5000);
    var ws9 := ws8 + [Step(ws8[8], board, acts[8])];
    AfterElapsed(5000, timeout);
    HourlyDue(board.config.minuteThreshold);
    RestsState(ws9[9], Armed, one, 1, false, 5000);
    ws := CheckExtend(board, ws9, acts[..9], After(5000, timeout), 7140, one, 1, false, 5000);
    assert forall x :: 0 <= x < 10 ==> ws[x] == ws9[x];
    assert forall x :: 0 <= x < 9 ==> ws9[x] == ws8[x];
  }

  lemma SilentActs(frame: seq<byte>, timeout: u32)
    ensures var acts := ClearedAheadActs(frame, timeout);
            && |acts| == 10 && acts[2] == ClearedAheadStart(frame)[2] && acts[8] == Dispatch(5000 + timeout)
            && acts[9] == Check(After(5000, timeout), After(5000, timeout), WallClock(7140, true))
            && !Spoke(acts, 3, 8)
  {
    hide IsInvSetup, Command;
    var acts := ClearedAheadActs(frame, timeout);
    NotSpoken(acts[7]);
    assert acts[2] == ClearedAheadStart(frame)[2];
    forall x | 3 <= x < 8 ensures !IsInvSetup(acts[x]) {
      if x < 7 {
        assert acts[x] == NoAnswer(5000, timeout)[x - 3];
        NoInvSetup(acts[x]);
      }
    }
  }

  lemma NotSpoken(a: Action)
    requires a == SetAction("b", [], false, 7140)
    ensures !IsInvSetup(a)
  {
    hide Trim, WfLines;
    OneKey();
    NothingWf();
    SetMessageRead("b", [], false);
  }

  // ----- A parked command -----

  // From power-on: the bus has been quiet for 2^31 ms, a request comes, and its first frame is held
  // back at every poll before the counter has come round.
  lemma ParkedRun(board: Board, frame: seq<byte>, gate: nat) returns (ws: seq<World>, acts: seq<Action>)
    requires |frame| >= 4 && TWO31 <= gate < TWO32 && GapsFit(board.settings)
    ensures Behaviour(board, ws, acts) && |acts| == 3 && UptimeFlows(acts)
    ensures acts[2] == Poll(gate, gate, []) && ws[2].dev.exec.phase == Gap && ws[2].dev.exec.tx == frame
    ensures Deadline(board, ws, acts, 2) == 0
    ensures !Sends(ws[2], board, acts[2]) && ws[3].dev.exec == ws[2].dev.exec
  {
    hide Boot, Step, Joint, Decoded, Encoded;
    var a0 := Cloud(RequestMessage(Command(frame)), WallClock(1, true), ALL_WELL);
    var a1, a2 := Dispatch(gate), Poll(gate, gate, []);
    var w0 := Boot(board, None, false, ALL_WELL);
    FirstWorld(board, None, false);
    BootRests(board);
    Extend(board, [w0], [], a0);
    RequestWaits(w0, board, frame, a0);
    var w1 := Step(w0, board, a0);
    Extend(board, [w0] + [w1], [] + [a0], a1);
    RequestGoesOn(w1, board, frame, gate);
    var w2 := Step(w1, board, a1);
    Extend(board, [w0] + [w1] + [w2], [] + [a0] + [a1], a2);
    HeldBack(w2, board, gate);
    ws, acts := [w0] + [w1] + [w2] + [Step(w2, board, a2)], [] + [a0] + [a1] + [a2];
    assert Uptime(acts, 0) == 0 && Uptime(acts, 1) == 0 && Uptime(acts, 2) == gate;
    assert OnwardAt(acts, 0) && OnwardAt(acts, 1) && OnwardAt(acts, 2);
    NoDeadline(w0, board, a0);
    assert Deadline(board, ws, acts, 1) == 0;
  }

  lemma NoDeadline(w: World, board: Board, a: Action)
    requires Enabled(w, a) && a.Cloud?
    ensures DeadlineAfter(w, board, a, 0) == 0
  {}

  lemma RequestWaits(w: World, board: Board, frame: seq<byte>, a: Action)
    requires Enabled(w, a) && |frame| >= 4
    requires a == Cloud(RequestMessage(Command(frame)), WallClock(1, true), ALL_WELL)
    requires w.dev.exec == FRESH && w.dev.mgr.state == Empty
    ensures var w' := Step(w, board, a);
            && w'.dev.exec == FRESH && w'.dev.mgr.state == Empty
            && w'.dev.pending == Some(EMPTY_HEADER.(lines := Command(frame)))
  {
    hide Encoded, Decoded, RequestOf, RequestMessage;
    CommandWf(frame);
    RequestMessageRead(Command(frame));
  }

  lemma RequestGoesOn(w: World, board: Board, frame: seq<byte>, ms: nat)
    requires Enabled(w, Dispatch(ms)) && |frame| >= 4
    requires w.dev.exec == FRESH && w.dev.mgr.state == Empty
    requires w.dev.pending == Some(EMPTY_HEADER.(lines := Command(frame)))
    ensures var e := Step(w, board, Dispatch(ms)).dev.exec;
            e.phase == Gap && e.tx == frame && e.gapUntil == 0 && e.errors == 0
    ensures DeadlineAfter(w, board, Dispatch(ms), 0) == 0
  {
    hide Encoded, Decoded;
    CommandWf(frame);
  }

  lemma HeldBack(w: World, board: Board, gate: nat)
    requires Enabled(w, Poll(gate, gate, [])) && w.dev.exec.phase == Gap && w.dev.exec.gapUntil == 0
    requires TWO31 <= gate < TWO32
    ensures !Sends(w, board, Poll(gate, gate, [])) && Step(w, board, Poll(gate, gate, [])).dev.exec == w.dev.exec
  {}

  // ----- Silence after a complete delivery -----

  function AnsweredLines(lines: seq<Line>, reply: seq<byte>): seq<Line>
    requires |lines| == 1
  {
    [lines[0].(modbus := Some(Encoded(reply)))]
  }

  // The reply arrives whole: the run is answered.
  lemma GetsAnswer(w: World, board: Board, ms: nat, reply: seq<byte>, lines: seq<Line>, frame: seq<byte>, m: Mgr)
    requires Enabled(w, Poll(ms, ms, reply)) && OnBus(w, RxWait, lines, frame, m) && |lines| == 1
    requires ValidReply(reply) && ExpectedLength(reply) == |reply|
    ensures var w' := Step(w, board, Poll(ms, ms, reply));
            && w'.dev.exec.phase == Done && w'.dev.exec.header.emergency && w'.dev.uart == [] && w'.dev.mgr == m
            && w'.dev.exec.header.lines == AnsweredLines(lines, reply)
  {
    hide Encoded, Listened, ValidReply, ExpectedLength, Step, Taken;
    ListenedAnswer(w.dev.exec, board.settings, reply, Wrap(ms), Wrap(ms));
    PollListens(w, board, ms, reply);
  }

  lemma PollListens(w: World, board: Board, ms: nat, reply: seq<byte>)
    requires Enabled(w, Poll(ms, ms, reply)) && w.dev.exec.phase == RxWait && w.dev.uart == []
    requires w.dev.exec.rx == [] && |reply| <= 260
    ensures var w' := Step(w, board, Poll(ms, ms, reply));
            && w'.dev.exec == Listened(w.dev.exec, board.settings, reply, Wrap(ms), Wrap(ms))
            && w'.dev.uart == [] && w'.dev.mgr == w.dev.mgr
  {
    hide Listened, ReplyEvent;
    assert [] + reply == reply && reply[|reply|..] == [];
  }

  lemma ListenedAnswer(e: Exec, s: Settings, reply: seq<byte>, now: u32, later: u32)
    requires |e.header.lines| == 1 && e.lineIndex == 0 && e.rx == []
    requires ValidReply(reply) && ExpectedLength(reply) == |reply|
    ensures var e' := Listened(e, s, reply, now, later);
            && e'.phase == Done && e'.header.emergency == e.header.emergency
            && e'.header.lines == [e.header.lines[0].(modbus := Some(Encoded(reply)))]
  {
    hide LineDone, Received, FrameEnd, TrailerMatches, Encoded, ExpectedLength;
    WholeReply(e, s, reply, now);
    LastLineAnswered(e.(rx := reply, lastRxAt := now), later);
  }

  lemma WholeReply(e: Exec, s: Settings, reply: seq<byte>, now: u32)
    requires e.rx == [] && |reply| >= 4 && ExpectedLength(reply) == |reply|
    ensures var e1 := Received(e, reply, now);
            e1 == e.(rx := reply, lastRxAt := now) && FrameEnd(e1, s, now) == Some(|reply|) && e1.rx[..|reply|] == reply
  {
    hide ExpectedLength;
    assert [] + reply == reply && reply[..|reply|] == reply;
  }

  lemma LastLineAnswered(e: Exec, later: u32)
    requires |e.header.lines| == 1 && e.lineIndex == 0 && ValidReply(e.rx)
    ensures var e' := LineDone(e, later);
            && e'.phase == Done && e'.header.emergency == e.header.emergency
            && e'.header.lines == [e.header.lines[0].(modbus := Some(Encoded(e.rx)))]
  {
    hide Encoded, Decoded, TrailerMatches;
  }

  lemma DeliversAll(w: World, board: Board, ms: nat, reply: seq<byte>)
    requires Enabled(w, Result(ms, ALL_WELL, "")) && w.dev.exec.phase == Done && w.dev.exec.header.emergency
    requires ValidReply(reply) && w.dev.exec.header.lines == [Line(1, None, None, Some(Encoded(reply)), "")]
    requires var m := w.dev.mgr;
             m.store.sets.Keys == {m.currentKey} && Revision(m.store, m.currentKey) == m.currentRevision
    requires !w.dev.mgr.invAwaiting && !w.dev.mgr.bootAwaiting && w.dev.uart == []
    ensures var w' := Step(w, board, Result(ms, ALL_WELL, ""));
            Rests(w', Empty, map[], 0, false, w.dev.mgr.lastCheck)
  {
    hide Encoded, Revision, Less, ValidReply, Delivered, Synced;
    var m := w.dev.mgr;
    EncodedNonEmpty(reply);
    AnswerDelivers(w.dev.exec.header.lines);
    SyncedOk(Removed(m.store, m.currentKey), board.codec, ALL_WELL);
    assert m.store.sets - {m.currentKey} == map[];
  }

  lemma AnswerDelivers(lines: seq<Line>)
    requires |lines| == 1 && lines[0].error == "" && lines[0].HasPayload()
    ensures Delivered(lines)
  {}

  function AnswerActs(ms: nat, reply: seq<byte>): seq<Action> {
    [Dispatch(ms), Poll(ms, ms, []), Poll(ms, ms, reply), Result(ms, ALL_WELL, "")]
  }

  // The set of one line is sent and answered; its result is still to be taken.
  lemma GoesAndReturns(board: Board, ws: seq<World>, acts: seq<Action>, ms: nat, lines: seq<Line>, frame: seq<byte>,
                       reply: seq<byte>)
    returns (ws': seq<World>)
    requires Behaviour(board, ws, acts) && |ws| == |acts| + 1 && ms < TWO31 && Carries(lines, frame)
    requires ValidReply(reply) && ExpectedLength(reply) == |reply|
    requires var w := ws[|acts|];
             && w.dev.exec == FRESH && w.dev.uart == [] && w.dev.mgr.state == Queued && w.dev.mgr.walkFromStart
             && w.dev.mgr.store.sets == map["a" := lines]
    ensures Behaviour(board, ws', acts + AnswerActs(ms, reply)[..3]) && |ws'| == |ws| + 3 && ws'[..|ws|] == ws
    ensures var w3 := ws'[|ws| + 2];
            && w3.dev.exec.phase == Done && w3.dev.exec.header.emergency && w3.dev.uart == []
            && w3.dev.mgr == SetStarted(ws[|acts|].dev.mgr) && NextKey(ws[|acts|].dev.mgr) == Some("a")
            && w3.dev.exec.header.lines == AnsweredLines(lines, reply)
  {
    hide Step, Enabled, Boot, Joint, ValidReply, ExpectedLength, Encoded, Decoded, Less, Carries, SetStarted, NextKey;
    var acts4 := AnswerActs(ms, reply);
    var w0 := ws[|acts|];
    var m1 := SetStarted(w0.dev.mgr);
    assert w0.dev.mgr.store.sets.Keys == {"a"};
    FirstOfOne(w0.dev.mgr);
    OneLine(lines, frame);
    Extend(board, ws, acts, acts4[0]);
    GoesOnBus(w0, board, ms, "a", lines, frame);
    var w1 := Step(w0, board, acts4[0]);
    Extend(board, ws + [w1], acts + acts4[..1], acts4[1]);
    GoesOut(w1, board, ms, lines, frame, m1);
    var w2 := Step(w1, board, acts4[1]);
    assert acts + acts4[..1] + [acts4[1]] == acts + acts4[..2];
    Extend(board, ws + [w1] + [w2], acts + acts4[..2], acts4[2]);
    GetsAnswer(w2, board, ms, reply, lines, frame, m1);
    assert acts + acts4[..2] + [acts4[2]] == acts + acts4[..3];
    ws' := ws + [w1] + [w2] + [Step(w2, board, acts4[2])];
  }

  lemma OneLine(lines: seq<Line>, frame: seq<byte>)
    requires Carries(lines, frame)
    ensures |lines| == 1
  {}

  lemma SentAnswered(board: Board, ws: seq<World>, acts: seq<Action>, ms: nat, frame: seq<byte>, reply: seq<byte>,
                     stamp: nat, flag: bool, checked: u32)
    returns (ws': seq<World>)
    requires Behaviour(board, ws, acts) && |ws| == |acts| + 1 && |frame| >= 4 && ms < TWO31
    requires ValidReply(reply) && ExpectedLength(reply) == |reply|
    requires var w := ws[|acts|];
             w.dev.exec == FRESH && Rests(w, Queued, map["a" := Command(frame)], stamp, flag, checked)
             && w.dev.mgr.walkFromStart
    ensures Behaviour(board, ws', acts + AnswerActs(ms, reply)) && |ws'| == |ws| + 4 && ws'[..|ws|] == ws
    ensures Rests(ws'[|ws| + 3], Empty, map[], 0, false, checked)
  {
    hide Behaviour, Step, Enabled, Boot, Joint, ValidReply, ExpectedLength, Encoded, Decoded, Less, Carries, NextKey;
    var acts4 := AnswerActs(ms, reply);
    CommandWf(frame);
    ws' := GoesAndReturns(board, ws, acts, ms, Command(frame), frame, reply);
    var w3 := ws'[|ws| + 2];
    Extend(board, ws', acts + acts4[..3], acts4[3]);
    DeliversAll(w3, board, ms, reply);
    assert acts + acts4[..3] + [acts4[3]] == acts + acts4;
    ws' := ws' + [Step(w3, board, acts4[3])];
  }

  function DeliveredActs(frame: seq<byte>, reply: seq<byte>, ts: Epoch): seq<Action> {
    [SetAction("a", Command(frame), true, 1),        // ARMED
     Check(5000, 5000, WallClock(7140, true))]       // QUEUED
    + AnswerActs(5000, reply)                          // EMPTY
    + [SetAction("a", Command(frame), false, 7140),  // ARMED
       Check(10000, 10000, WallClock(ts, true))]
  }

  lemma UndueCheck(w: World, board: Board, ms: nat, ts: Epoch, sets: Sets, flag: bool, checked: u32)
    requires Rests(w, Armed, sets, 0, flag, checked) && sets != map[]
    requires var a := Check(ms, ms, WallClock(ts, true)); Enabled(w, a)
    ensures Step(w, board, Check(ms, ms, WallClock(ts, true))).dev.mgr.state == Armed
  {
    hide Elapsed;
  }

  // From power-on: the one set is delivered, the cloud stores another without an InvSetup and falls
  // silent. At any check at which the documented rule says send - an InvSetup was seen, none came
  // this hour, the threshold has passed - the device stays ARMED.
  lemma SilentAfterDelivery(board: Board, frame: seq<byte>, reply: seq<byte>, ts: Epoch)
    returns (ws: seq<World>, acts: seq<Action>)
    requires |frame| >= 4 && ValidReply(reply) && ExpectedLength(reply) == |reply|
    requires board.config.minuteThreshold <= 58 && Due(1, board.config.minuteThreshold, ts)
    ensures Behaviour(board, ws, acts) && |acts| == 8 && acts[7] == Check(10000, 10000, WallClock(ts, true))
    ensures ws[2].dev.mgr.state == Queued && ws[6].dev.mgr.state == Empty
    ensures LastInv(acts, 7) == 1 && ws[7].dev.mgr.state == Armed && ws[7].dev.mgr.store.sets != map[]
    ensures Tests(ws[7], acts[7]) && ws[8].dev.mgr.state == Armed
  {
    hide Behaviour, Boot, Due, Elapsed, Command, Trim, NulFree, WfLines, Less, SetAction, AnswerActs, ValidReply,
         ExpectedLength, Step, Enabled, Joint, LastInv;
    acts := DeliveredActs(frame, reply, ts);
    var sets: Sets := map["a" := Command(frame)];
    DeliveredActsAre(frame, reply, ts);
    CommandWf(frame);
    CommandOne(frame);
    OneKey();
    FiveSeconds();
    HourlyDue(board.config.minuteThreshold);
    FirstWorld(board, None, false);
    BootRests(board);
    assert map[]["a" := Command(frame)] == sets;
    var ws0 := [Boot(board, None, false, ALL_WELL)];
    var ws1 := SetExtend(board, ws0, [], "a", Command(frame), true, 1, Empty, map[], 0, false, 0);
    var ws2 := CheckExtend(board, ws1, acts[..1], 5000, 7140, sets, 1, false, 0);
    RestsState(ws2[2], Queued, sets, 1, false, 5000);
    var ws6 := SentAnswered(board, ws2, acts[..2], 5000, frame, reply, 1, false, 5000);
    RestsState(ws6[6], Empty, map[], 0, false, 5000);
    var ws7 := SetExtend(board, ws6, acts[..6], "a", Command(frame), false, 7140, Empty, map[], 0, false, 5000);
    RestsState(ws7[7], Armed, sets, 0, false, 5000);
    Extend(board, ws7, acts[..7], acts[7]);
    UndueCheck(ws7[7], board, 10000, ts, sets, false, 5000);
    ws := ws7 + [Step(ws7[7], board, acts[7])];
    assert ws[2] == ws2[2] && ws[6] == ws6[6] && ws[7] == ws7[7];
  }

  lemma DeliveredActsAre(frame: seq<byte>, reply: seq<byte>, ts: Epoch)
    requires |frame| >= 4
    ensures var acts := DeliveredActs(frame, reply, ts);
            && |acts| == 8 && [] + [SetAction("a", Command(frame), true, 1)] == acts[..1]
            && acts[..1] + [Check(5000, 5000, WallClock(7140, true))] == acts[..2]
            && acts[..2] + AnswerActs(5000, reply) == acts[..6]
            && acts[..6] + [SetAction("a", Command(frame), false, 7140)] == acts[..7]
            && acts[7] == Check(10000, 10000, WallClock(ts, true)) && acts[..7] + [acts[7]] == acts
            && LastInv(acts, 7) == 1
  {
    hide IsInvSetup, Command, LastInv;
    var acts := DeliveredActs(frame, reply, ts);
    CommandWf(frame);
    SetSpeaks(frame);
    forall x | 1 <= x < 7 ensures !IsInvSetup(acts[x]) {
      if 2 <= x < 6 {
        assert acts[x] == AnswerActs(5000, reply)[x - 2];
      }
      NoInvSetup(acts[x]);
    }
    LastInvOnce(acts, 7);
  }

  lemma SetSpeaks(frame: seq<byte>)
    requires |frame| >= 4
    ensures IsInvSetup(SetAction("a", Command(frame), true, 1))
    ensures !IsInvSetup(SetAction("a", Command(frame), false, 7140))
  {
    hide Command, WfLines, Trim, RequestOf;
    OneKey();
    CommandWf(frame);
    SetMessageRead("a", Command(frame), true);
    SetMessageRead("a", Command(frame), false);
  }

  lemma {:induction false} LastInvOnce(acts: seq<Action>, j: nat)
    requires 1 <= j <= |acts| && IsInvSetup(acts[0]) && acts[0].wall.seconds == 1
    requires forall x :: 1 <= x < j ==> !IsInvSetup(acts[x])
    ensures LastInv(acts, j) == 1
  {
    hide IsInvSetup;
    if j > 1 {
      LastInvOnce(acts, j - 1);
    }
  }

  // ----- A stale copy -----

  lemma SwitchedOffBoot(board: Board, nvs: Option<Json>)
    ensures var w := Boot(board, nvs, false, ALL_WELL);
            && w.dev.mgr == FreshMgr(Reset(nvs)) && w.dev.exec == FRESH
  {}

  lemma TurnedOnEmpty(w: World, board: Board)
    requires Enabled(w, Toggle(true, ALL_WELL)) && w.dev.mgr.store == Reset(w.dev.mgr.store.nvs)
    ensures var st := Step(w, board, Toggle(true, ALL_WELL)).dev.mgr.store;
            st.persist && st.sets == map[] && st.nvs == w.dev.mgr.store.nvs
  {
    hide SetsJson;
  }

  // From power-on with the switch off over sets in NVS: the switch is turned on while nothing is
  // stored, which neither erases the copy nor makes it known; the next reboot restores it, and the
  // sets go out without a single message.
  lemma StaleCopyFires(board: Board, sets: Sets) returns (ws: seq<World>, acts: seq<Action>)
    requires WfSets(sets) && sets != map[] && board.config.minuteThreshold <= 58
    ensures Behaviour(board, ws, acts) && |acts| == 4
    ensures acts[0] == Toggle(true, ALL_WELL) && acts[1] == Reboot(true, ALL_WELL) && acts[2].Check? && acts[3].Check?
    ensures var st := ws[1].dev.mgr.store; st.persist && st.sets == map[] && st.nvs == Some(SetsJson(sets))
    ensures ws[0].dev.mgr.store == Reset(Some(SetsJson(sets)))
    ensures ws[2].dev.mgr.state == Armed && ws[2].dev.mgr.store.sets == sets && ws[4].dev.mgr.state == Queued
  {
    hide Step, Enabled, Boot, Joint, Due, WfSets, SetsJson, SetsOf, Elapsed;
    var nvs := Some(SetsJson(sets));
    var a0, a1 := Toggle(true, ALL_WELL), Reboot(true, ALL_WELL);
    var a2, a3 := Check(5000, 5000, WallClock(1, true)), Check(10000, 10000, WallClock(7140, true));
    var w0 := Boot(board, nvs, false, ALL_WELL);
    FirstWorld(board, nvs, false);
    SwitchedOffBoot(board, nvs);
    Extend(board, [w0], [], a0);
    TurnedOnEmpty(w0, board);
    var w1 := Step(w0, board, a0);
    Extend(board, [w0, w1], [a0], a1);
    RebootsInto(w1, board, a1);
    RestoredBoot(board, sets);
    RestoredUart(board, nvs);
    FiveSeconds();
    HourlyDue(board.config.minuteThreshold);
    var w2 := Step(w1, board, a1);
    Extend(board, [w0, w1, w2], [a0, a1], a2);
    AwaitingCheck(w2, board, 5000, 1);
    var w3 := Step(w2, board, a2);
    Extend(board, [w0, w1, w2, w3], [a0, a1, a2], a3);
    CheckStep(w3, board, 10000, 7140, sets, 1, w2.dev.mgr.cloudBack, 5000);
    ws, acts := [w0, w1, w2, w3, Step(w3, board, a3)], [a0, a1, a2, a3];
  }

  lemma RebootsInto(w: World, board: Board, a: Action)
    requires Enabled(w, a) && a == Reboot(true, ALL_WELL)
    ensures Step(w, board, a) == Boot(board, w.dev.mgr.store.nvs, true, ALL_WELL)
  {
    hide Boot;
  }

  // Such a copy is stale by the time the switch is on: nothing should be in NVS, and it is.
  lemma LeftBehind(board: Board, ws: seq<World>, acts: seq<Action>, sets: Sets)
    requires WfSets(sets) && sets != map[] && 1 <= |acts| < |ws| && acts[0].Toggle?
    requires ws[0].dev.mgr.store == Reset(Some(SetsJson(sets)))
    requires ws[1].dev.mgr.store.persist && ws[1].dev.mgr.store.sets == map[]
    ensures Stale(board, ws, acts, 1) && Preserved(board, ws, acts, 1) == map[]
  {
    hide Held, FitsCap, WfSets;
    HeldDocument(sets);
    assert Stale(board, ws, acts, 0);
  }

  // ----- A preset Error -----

  // A command whose line comes with an Error of its own.
  function Flawed(frame: seq<byte>): seq<Line> { [Line(1, None, None, Some(Encoded(frame)), "E")] }

  lemma FlawedWf(frame: seq<byte>)
    requires |frame| >= 4
    ensures WfLines(Flawed(frame)) && Carries(Flawed(frame), frame) && |Flawed(frame)| == 1
  {
    EncodedNulFree(frame);
    DecodeEncode(frame);
  }

  lemma FlawedNotDelivered(frame: seq<byte>, reply: seq<byte>)
    ensures |Flawed(frame)| == 1 && !Delivered(AnsweredLines(Flawed(frame), reply))
  {
    hide Encoded;
  }

  lemma BacksOff(w: World, board: Board, ms: nat)
    requires Enabled(w, Result(ms, ALL_WELL, "")) && w.dev.exec.phase == Done && w.dev.exec.header.emergency
    requires !Delivered(w.dev.exec.header.lines) && !w.dev.mgr.cloudBack
    requires w.dev.mgr.store.sets.Keys == {"a"} && w.dev.mgr.currentKey == "a"
    ensures var m' := Step(w, board, Result(ms, ALL_WELL, "")).dev.mgr;
            m'.state == Backoff && m'.store.sets == w.dev.mgr.store.sets
  {
    hide Less, Delivered;
    OneKey();
    assert Above(w.dev.mgr.store.sets.Keys, "a") == {};
  }

  function FlawedActs(frame: seq<byte>, reply: seq<byte>): seq<Action> {
    [SetAction("a", Flawed(frame), true, 1),         // ARMED
     Check(5000, 5000, WallClock(7140, true))]       // QUEUED
    + AnswerActs(5000, reply)                        // BACKOFF
  }

  // From power-on: a set whose line carries an Error is sent and answered with a valid reply, yet it
  // does not count as delivered, stays stored and is to be sent again.
  lemma PresetErrorRun(board: Board, frame: seq<byte>, reply: seq<byte>) returns (ws: seq<World>)
    requires |frame| >= 4 && ValidReply(reply) && ExpectedLength(reply) == |reply|
    requires board.config.minuteThreshold <= 58
    ensures Behaviour(board, ws, FlawedActs(frame, reply)) && |ws| == 7
    ensures ws[2].dev.mgr.state == Queued && ws[5].dev.exec.phase == Done && |Flawed(frame)| == 1
    ensures ws[5].dev.exec.header.lines == AnsweredLines(Flawed(frame), reply)
    ensures !Delivered(ws[5].dev.exec.header.lines)
    ensures ws[6].dev.mgr.state == Backoff && "a" in ws[6].dev.mgr.store.sets
  {
    hide Behaviour, Boot, Due, Elapsed, Flawed, Trim, NulFree, WfLines, Less, SetAction, ValidReply, ExpectedLength,
         Step, Enabled, Joint, Carries, NextKey, AnsweredLines, Delivered;
    var acts := FlawedActs(frame, reply);
    var sets: Sets := map["a" := Flawed(frame)];
    FlawedWf(frame);
    FlawedNotDelivered(frame, reply);
    OneKey();
    FiveSeconds();
    HourlyDue(board.config.minuteThreshold);
    FirstWorld(board, None, false);
    BootRests(board);
    assert map[]["a" := Flawed(frame)] == sets && sets.Keys == {"a"};
    var ws0 := [Boot(board, None, false, ALL_WELL)];
    assert [] + [acts[0]] == acts[..1] && acts[..1] + [acts[1]] == acts[..2];
    var ws1 := SetExtend(board, ws0, [], "a", Flawed(frame), true, 1, Empty, map[], 0, false, 0);
    var ws2 := CheckExtend(board, ws1, acts[..1], 5000, 7140, sets, 1, false, 0);
    RestsState(ws2[2], Queued, sets, 1, false, 5000);
    var ws5 := GoesAndReturns(board, ws2, acts[..2], 5000, Flawed(frame), frame, reply);
    assert acts[..2] + AnswerActs(5000, reply)[..3] == acts[..5] && acts[..5] + [acts[5]] == acts;
    Extend(board, ws5, acts[..5], acts[5]);
    BacksOff(ws5[5], board, 5000);
    ws := ws5 + [Step(ws5[5], board, acts[5])];
    assert ws[2] == ws5[2] == ws2[2];
  }
}
