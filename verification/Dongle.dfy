// The arbiter: cloud requests in, one bus, responses out.

module Dongle {

  import opened Options
  import opened Clock
  import opened Crc
  import opened Protocol
  import opened Executor
  import opened Stores
  import opened Manager
  import opened LogRing

  const LAST_LOG_MAX_BYTES := 3 * 1024

  // What is fixed while the firmware runs. responseSize is the printed size of a response.
  datatype Board = Board(settings: Settings, config: Config, codec: Codec,
                         responseSize: (Header, Option<string>) -> nat)

  datatype Response = Response(header: Header, lastLog: Option<string>)

  // `uart` holds the bytes received and not yet read, `outbox` every response published.
  datatype Device = Device(exec: Exec, mgr: Mgr, pending: Option<Header>, uart: seq<byte>,
                           received: u32, handled: u32, outbox: seq<Response>)

  ghost function PoweredOn(board: Board, nvs: Option<Json>, switchOn: bool, io: NvsIo): Device {
    Device(FRESH, Booted(nvs, switchOn, board.codec, io), None, [], 0, 0, [])
  }

  // ----- The log level -----

  // Levels of ESPHome's logger.
  const LOG_LEVEL_WARN := 2
  const LOG_LEVEL_DEBUG := 5
  const LOG_LEVEL_VERY_VERBOSE := 7

  function LowerCase(c: char): char { if 'A' <= c <= 'Z' then c - 'A' + 'a' else c }

  predicate EqualIgnoringCase(s: string, t: string) {
    |s| == |t| && forall i :: 0 <= i < |s| ==> LowerCase(s[i]) == LowerCase(t[i])
  }

  // The gate a LogLevel field asks for; None for a level that is not known.
  function GateOf(level: string): Option<nat> {
    if EqualIgnoringCase(level, "OnlyErrors") then Some(LOG_LEVEL_WARN)
    else if EqualIgnoringCase(level, "Min") then Some(LOG_LEVEL_DEBUG)
    else if EqualIgnoringCase(level, "Max") then Some(LOG_LEVEL_VERY_VERBOSE)
    else None
  }

  // A letter and the same letter in the other case, or the very same character.
  predicate SameLetter(c: char, d: char) {
    || c == d
    || ('A' <= c <= 'Z' && d as int == c as int + 32)
    || ('A' <= d <= 'Z' && c as int == d as int + 32)
  }

  predicate Spells(s: string, name: string) {
    |s| == |name| && forall i :: 0 <= i < |s| ==> SameLetter(s[i], name[i])
  }

  // Warnings and errors, everything up to DEBUG, or everything; in any case of letters. Any other
  // text asks for nothing.
  lemma GatesExactly(level: string)
    ensures GateOf(level) == if Spells(level, "OnlyErrors") then Some(2)
                             else if Spells(level, "Min") then Some(5)
                             else if Spells(level, "Max") then Some(7)
                             else None
  {
    hide EqualIgnoringCase, Spells;
    SpellsIs(level, "OnlyErrors");
    SpellsIs(level, "Min");
    SpellsIs(level, "Max");
  }

  lemma SpellsIs(s: string, name: string)
    ensures EqualIgnoringCase(s, name) <==> Spells(s, name)
  {
    hide LowerCase, SameLetter;
    if |s| == |name| {
      forall i | 0 <= i < |s| ensures LowerCase(s[i]) == LowerCase(name[i]) <==> SameLetter(s[i], name[i]) {
        LetterCase(s[i], name[i]);
      }
    }
  }

  lemma LetterCase(c: char, d: char)
    ensures LowerCase(c) == LowerCase(d) <==> SameLetter(c, d)
  {}

  function GateAsked(payload: Payload): Option<nat> {
    match RequestOf(payload)
    case None => None
    case Some(h) => if h.logLevel.Some? then GateOf(h.logLevel.value) else None
  }

  // ----- Operations -----

  // None for a payload that is dropped.
  function RequestOf(payload: Payload): (r: Option<Header>)
    ensures r.Some? ==> !r.value.emergency
  {
    if payload.size > MAX_TODEVICE_PAYLOAD then None else HeaderOf(payload)
  }

  ghost function CloudArrived(d: Device, board: Board, payload: Payload, wall: Option<Epoch>, io: NvsIo): Device {
    var d1 := d.(received := Add(d.received, 1));
    match RequestOf(payload)
    case None => d1
    case Some(header) =>
      d1.(mgr := FieldsHandled(d.mgr, header, wall, board.codec, io), pending := Some(header))
  }

  // The response as published: with the log if asked for and if it fits, or None.
  function ResponseFor(board: Board, header: Header, log: string): Option<Response> {
    var asked := if header.sendLastLog.Some? && header.sendLastLog.value != 0 then Some(log) else None;
    if board.responseSize(header, asked) < JSON_BUILD_TRUNCATED_SIZE then Some(Response(header, asked))
    else if asked.Some? && board.responseSize(header, None) < JSON_BUILD_TRUNCATED_SIZE
    then Some(Response(header, None))
    else None
  }

  function PublishedBy(d: Device, board: Board, header: Header, log: string): Device {
    match ResponseFor(board, header, log)
    case None => d
    case Some(response) => d.(outbox := d.outbox + [response], handled := Add(d.handled, 1))
  }

  // The outbox after a result: with the log when it is asked for and the response with it is under
  // the cap; without it when that is under the cap; and nothing otherwise.
  predicate Responds(before: seq<Response>, after: seq<Response>, board: Board, header: Header, log: string) {
    var asked := header.sendLastLog.Some? && header.sendLastLog.value != 0;
    var full, bare := board.responseSize(header, Some(log)) < 5119, board.responseSize(header, None) < 5119;
    && (asked && full ==> after == before + [Response(header, Some(log))])
    && (!(asked && full) && bare ==> after == before + [Response(header, None)])
    && (!(asked && full) && !bare ==> after == before)
  }

  lemma PublishedResponds(d: Device, board: Board, header: Header, log: string)
    ensures Responds(d.outbox, PublishedBy(d, board, header, log).outbox, board, header, log)
  {}

  ghost function ResultTaken(d: Device, board: Board, now: u32, io: NvsIo, log: string): Device {
    if d.exec.phase != Done then d
    else
      var d1 := d.(exec := d.exec.(phase := Idle));
      if d.exec.header.emergency then
        d1.(mgr := ResultHandled(d.mgr, board.config, d.exec.header.lines, now, board.codec, io))
      else PublishedBy(d1, board, d.exec.header, log)
  }

  // What the arbiter starts: a due emergency set first, else the pending request.
  ghost function ToStart(d: Device): Option<Header> {
    if Busy(d.exec) then None
    else if d.mgr.state == Queued then
      match NextKey(d.mgr)
      case None => None
      case Some(k) => Some(RunHeader(k, d.mgr.store.sets[k]))
    else d.pending
  }

  ghost function Dispatched(d: Device, now: u32): Device {
    if Busy(d.exec) then d
    else
      d.(mgr := if d.mgr.state == Queued then SetStarted(d.mgr) else d.mgr,
         exec := if ToStart(d).Some? then Started(d.exec, ToStart(d).value, now) else d.exec,
         pending := if d.mgr.state == Queued then d.pending else None)
  }

  function BusPolled(d: Device, board: Board, now: u32, later: u32): Device
    requires Ready(d.exec)
  {
    var p := Polled(d.exec, board.settings, d.uart, now, later);
    d.(exec := p.exec, uart := p.uart)
  }

  function ManagerTicked(d: Device, board: Board, wall: Option<Epoch>, now: u32, retryNow: u32): Device {
    d.(mgr := Ticked(d.mgr, board.config, wall, now, retryNow))
  }

  ghost function SwitchTurned(d: Device, board: Board, on: bool, io: NvsIo): Device {
    d.(mgr := d.mgr.(store := PersistTurned(d.mgr.store, on, board.codec, io)))
  }

  // The clock readings of one pass of loop(), in the order they are taken.
  datatype Readings = Readings(result: u32, start: u32, gate: u32, done: u32, check: u32, retry: u32)

  lemma DispatchedReady(d: Device, now: u32)
    requires Ready(d.exec)
    ensures Ready(Dispatched(d, now).exec)
  {
    hide NextLine, ToStart;
    if !Busy(d.exec) && ToStart(d).Some? {
      NextLineReady(d.exec.(header := ToStart(d).value, lineIndex := 0, phase := Gap), now);
    }
  }

  // One pass of loop().
  ghost function LoopPassed(d: Device, board: Board, r: Readings, wall: Option<Epoch>, io: NvsIo, log: string): Device
    requires Ready(d.exec)
  {
    var d1 := ResultTaken(d, board, r.result, io, log);
    DispatchedReady(d1, r.start);
    var d2 := Dispatched(d1, r.start);
    ManagerTicked(BusPolled(d2, board, r.gate, r.done), board, wall, r.check, r.retry)
  }

  // ----- The class -----

  class GbbDongle {
    const uart: Uart
    const executor: ModbusExecutor
    const emergency: EmergencyManager
    const log: LogRingBuffer
    const board: Board
    var pending: Option<Header>
    var received: u32
    var handled: u32
    var outbox: seq<Response>
    var savedGate: Option<nat>  // the stored log level

    ghost predicate Valid()
      reads this, executor, log, log.buffer
    {
      && executor.uart == uart && executor.settings == board.settings
      && emergency.executor == executor && emergency.config == board.config
      && emergency.store.codec == board.codec
      && Ready(executor.View()) && log.Valid()
    }

    ghost function View(): Device
      reads this, uart, executor, emergency, emergency.store
    {
      Device(executor.View(), emergency.View(), pending, uart.rx, received, handled, outbox)
    }

    constructor (board: Board, log: LogRingBuffer, nvs: Option<Json>, switchOn: bool, savedGate: Option<nat>, io: NvsIo)
      requires log.Valid()
      modifies log`levelGate
      ensures log.levelGate == (if savedGate.Some? then savedGate.value else LOG_LEVEL_DEBUG)
      ensures this.savedGate == savedGate
      ensures Valid() && View() == PoweredOn(board, nvs, switchOn, io)
      ensures this.board == board && this.log == log
      ensures fresh(uart) && fresh(executor) && fresh(emergency) && fresh(emergency.store)
    {
      log.levelGate := if savedGate.Some? then savedGate.value else LOG_LEVEL_DEBUG;
      var uart := new Uart();
      var executor := new ModbusExecutor(uart, board.settings);
      var store := new EmergencyStore(board.codec, nvs);
      var emergency := new EmergencyManager(executor, store, board.config);
      emergency.Setup(switchOn, io);
      this.uart, this.executor, this.emergency, this.log, this.board := uart, executor, emergency, log, board;
      pending, received, handled, outbox, this.savedGate := None, 0, 0, [], savedGate;
    }

    method OnCloudMessage(payload: Payload, wall: Option<Epoch>, io: NvsIo)
      requires Valid()
      modifies this, emergency, emergency.store, log`levelGate
      ensures Valid() && View() == CloudArrived(old(View()), board, payload, wall, io)
      ensures log.levelGate == (if GateAsked(payload).Some? then GateAsked(payload).value else old(log.levelGate))
      ensures savedGate == (if log.levelGate != old(log.levelGate) then Some(log.levelGate) else old(savedGate))
    {
      hide FieldsHandled, HeaderOf, GateOf;
      received := Add(received, 1);
      if payload.size > MAX_TODEVICE_PAYLOAD {
        return;
      }
      var header := HeaderOf(payload);
      if header.None? {
        return;
      }
      if header.value.logLevel.Some? {
        ApplyLogLevel(header.value.logLevel.value);
      }
      emergency.HandleFields(header.value, wall, io);
      pending := Some(header.value);
    }

    method ApplyLogLevel(level: string)
      modifies this`savedGate, log`levelGate
      ensures log.levelGate == (if GateOf(level).Some? then GateOf(level).value else old(log.levelGate))
      ensures savedGate == (if log.levelGate != old(log.levelGate) then Some(log.levelGate) else old(savedGate))
    {
      var gate := GateOf(level);
      if gate.Some? && gate.value != log.levelGate {
        log.levelGate := gate.value;
        savedGate := Some(gate.value);
      }
    }

    method PublishResponse(header: Header)
      requires Valid()
      modifies this`handled, this`outbox, log`readOff
      ensures Valid() && View() == PublishedBy(old(View()), board, header, old(log.Unread(LAST_LOG_MAX_BYTES)))
      ensures Responds(old(outbox), outbox, board, header, old(log.Unread(3 * 1024)))
      ensures log.readOff == if header.sendLastLog !in {None, Some(0)} then |log.log| else old(log.readOff)
    {
      var lastLog := None;
      if header.sendLastLog.Some? && header.sendLastLog.value != 0 {
        var text := log.ReadIncremental(LAST_LOG_MAX_BYTES);
        lastLog := Some(text);
      }
      var size := board.responseSize(header, lastLog);
      if size >= JSON_BUILD_TRUNCATED_SIZE && lastLog.Some? {
        lastLog := None;
        size := board.responseSize(header, None);
      }
      if size >= JSON_BUILD_TRUNCATED_SIZE {
        return;
      }
      outbox := outbox + [Response(header, lastLog)];
      handled := Add(handled, 1);
    }

    method TakeResult(now: u32, io: NvsIo)
      requires Valid()
      modifies this`handled, this`outbox, executor, emergency, emergency.store, log`readOff
      ensures Valid() && View() == ResultTaken(old(View()), board, now, io, old(log.Unread(LAST_LOG_MAX_BYTES)))
      ensures if old(executor.phase) == Done && !old(executor.header.emergency) then
                && Responds(old(outbox), outbox, board, old(executor.header), old(log.Unread(3 * 1024)))
                && log.readOff == if old(executor.header.sendLastLog) !in {None, Some(0)} then |log.log|
                                  else old(log.readOff)
              else outbox == old(outbox) && log.readOff == old(log.readOff)
    {
      hide ResultHandled, PublishedBy;
      if executor.phase == Done {
        var result := executor.TakeResult();
        if result.emergency {
          emergency.HandleResult(result, now, io);
        } else {
          PublishResponse(result);
        }
      }
    }

    method Dispatch(now: u32)
      requires Valid()
      modifies this`pending, executor, emergency
      ensures Valid() && View() == Dispatched(old(View()), now)
    {
      hide Started, SetStarted, NextKey, RunHeader, Ready;
      DispatchedReady(View(), now);
      if executor.phase != Gap && executor.phase != RxWait {
        if emergency.state == Queued {
          emergency.StartNextSet(now);
        } else if pending.Some? {
          executor.Start(pending.value, now);
          pending := None;
        }
      }
    }

    method Loop(r: Readings, wall: Option<Epoch>, io: NvsIo)
      requires Valid()
      modifies this`pending, this`handled, this`outbox, uart, executor, emergency, emergency.store, log`readOff
      ensures Valid()
      ensures View() == LoopPassed(old(View()), board, r, wall, io, old(log.Unread(LAST_LOG_MAX_BYTES)))
      ensures if old(executor.phase) == Done && !old(executor.header.emergency) then
                && Responds(old(outbox), outbox, board, old(executor.header), old(log.Unread(3 * 1024)))
                && log.readOff == if old(executor.header.sendLastLog) !in {None, Some(0)} then |log.log|
                                  else old(log.readOff)
              else outbox == old(outbox) && log.readOff == old(log.readOff)
    {
      hide ResultTaken, Dispatched, Polled, Ticked, Ready;
      TakeResult(r.result, io);
      Dispatch(r.start);
      StaysReady(executor.View(), board.settings, uart.rx, r.gate, r.done);
      executor.Loop(r.gate, r.done);
      emergency.Loop(r.check, wall, r.retry);
    }

    method OnPersistSwitch(on: bool, io: NvsIo)
      requires Valid()
      modifies emergency.store
      ensures Valid() && View() == SwitchTurned(old(View()), board, on, io)
    {
      hide PersistTurned;
      emergency.store.SetPersistEnabled(on, io);
    }
  }
}
