# GbbDongle: verified model of the device component

This project models the ESP32 component in `components/gbb_dongle/` as one transition system and proves what its
comments and `docs/protocol.md` promise: an emergency send that is committed, never early, never lost and never
repeated; a Modbus RTU master that keeps its pauses on a wrapping clock; an arbiter that never mixes the cloud's
commands with an emergency cycle; a log ring that serves the log in order; and the codecs below them.

`dafny verify dfyconfig.toml` checks all of it.

## How the model is built

- **Same code, twice related.** Each object of the firmware (`ModbusExecutor`, `EmergencyStore`, `EmergencyManager`,
  `GbbDongle`, `LogRingBuffer`) is a class whose methods follow the source step by step. Every method is proved to take
  the object's abstract value `View()` to the value a specification function gives (`Polled`, `Synced`, `Checked`, ...).
  The run properties are then proved about those functions.
- **Actions.** `System.Step` has seven actions: a cloud message; the four parts of one pass of `loop()` (take a result,
  dispatch, poll the executor, check the deadline) with arbitrary clock readings and arbitrary received bytes; a turn
  of the persist switch; a reboot. `System.LoopIsFourSteps` ties `loop()` to its parts. `Behaviour` is any finite
  sequence of actions from power-on; every theorem about "every run" quantifies over all of them.
- **Time.** Uptime is an unbounded number of milliseconds of which the code sees the low 32 bits (`Clock.Wrap`). True UTC
  time exists whether or not the device's clock is set; a reading is available only when it is. Each operation takes
  its clock readings as parameters, one for each `millis()` call whose value can differ.
- **History.** What a property says about the past (last InvSetup received, runs of a cycle, delivered revisions, the
  kept NVS content, the true gap deadline, the request journal) is a recursive function over the run, not state of
  the device.
- **Numbers and names.** What the small rules under all this mean - lengths, gaps, caps, field names, line equality, key
  order, the CRC - is also stated with the values of the source and of `docs/protocol.md` written out.
- **JSON** is a tree; the printed size of a document, its hash and the size of a response are arbitrary functions.

Assumptions are written as `requires` of the theorem that needs them: `TimeFlows` (true time never runs backwards),
`UptimeFlows` (neither does the uptime within one boot), `GapsFit` (gaps of at most 2^31 ms), `InPasses`
(the parts of a pass of `loop()` follow one another), `PromptAt` (polls with an advancing clock, their tests made before
the counter comes round), `NvsWorks` and `HashTells` (NVS calls succeed, the documents of this run have distinct
non-zero hashes).

## What the proofs found

- **Retries.** docs/protocol.md:112-118 promises a retry with backoff unless an InvSetup comes. Two other ways end a
  cycle in ARMED with sets left, to be sent again at the next check without backoff. (1) An InvSetup during a
  cycle sets `cloud_back_`; if the cloud - with the same message or a later one - empties the store while the cycle is
  QUEUED, the flag outlives the cycle and suppresses the backoff of a later one. (2) The cloud clears the last key ahead
  of the walk between a result and the next dispatch. `Retries.RetriedExactly` gives the exact condition, `Retries.FlagLeftOver` and
  `Retries.DispatchExit` the only ways in, `Scenarios.FlagLeftOverRun` and `Scenarios.DispatchLeavesRun` the runs.
  When messages only come between passes of the loop, the second way is closed (`Retries.RetriedInPasses`).
- **Threshold 59.** The schema accepts 0 to 59, but `minute > 59` is never true: 59 turns the emergency sends off
  (`Deadlines.DuePossible`, `Deadlines.Threshold59NeverSends`).
- **Long silence parks the bus.** A command whose gap ended at least 2^31 ms ago (about 24.8 days without traffic) is
  held back until the counter comes round; gaps above 2^31 ms would be skipped (`Gaps.NeverBlocked`,
  `Gaps.GapsHonoured`, `Scenarios.ParkedRun`).
- **Restored sets fire without any InvSetup.** After a restore from NVS the deadline counts from the first clock sync
  even if no InvSetup ever arrives: `Scenarios.RestoredSetsFire` is the run, `Deadlines.FiresWhenDue` says when, and
  `CloudBack.NeverFiresEarly` that nothing else fires without one. docs/protocol.md:127-128 says so;
  docs/protocol.md:95-97 reads as if an InvSetup were always needed.
- **Sets stored after a complete delivery are not protected.** By docs/protocol.md:95-97 an InvSetup seen before and none
  this hour is enough to send. But a complete delivery forgets the stamp, so sets stored afterwards without an InvSetup
  never go out before the next one or a reboot that restores them. `Deadlines.DocumentedRule` and `Deadlines.DocumentedRuleOnSetClock` say exactly when
  the device does as documented, `Scenarios.SilentAfterDelivery` is the run.
- **A stale NVS copy.** A boot with the persist switch off leaves a copy in NVS alone, and turning the switch on while
  nothing is stored neither erases nor adopts it: the copy stays until content that fits is written or the switch is
  turned off, and a later boot with the switch on restores and sends it (`Mirror.NvsMirrors`, `Mirror.RebootRestores`,
  `Scenarios.StaleCopyFires`). It takes sets in
  NVS at a first boot with the switch off, or a switch that does not come back as it was (`Mirror.NeverStale`).
- **A preset Error hides a reply.** docs/protocol.md:109-111 counts a set as delivered when a line was answered. A line
  stored with an `Error` of its own does not count, so a set made of such lines is retried although it is answered
  (`Batches.VerdictExact`, `Batches.PresetErrorBlocks`; `Scenarios.PresetErrorRun` is the run).
- **A failed NVS write is not made up for.** The hourly re-send changes nothing, so it leads to no sync: a set whose write
  was refused stays out of NVS until its content changes or the switch is turned off and on
  (`Faults.ResendWritesNothing`, `Faults.NextSyncWrites`). And a write that landed without its commit is not noticed:
  when the content goes back to the committed one, NVS keeps the document in between (`Faults.GoingBackIsMissed`).
- **Replies of other functions** are framed by silence, so the same valid reply is an answer or an error depending on
  how its bytes arrive (`Framing.FramingExact`, `Framing.SplitMatters`).

## Model

| member | source | states |
|---|---|---|
| System.JointAlways | components/gbb_dongle/emergency_manager.cpp:95-100 | in every reachable state: EXECUTING exactly when the executor is not idle and its header is an emergency one; EMPTY means an empty store, ARMED/QUEUED/BACKOFF a non-empty one; both store maps have the same keys, revisions are distinct, every set has 1-50 lines; the revision on the bus belongs to the current key alone; and the batch has the shape of `Batches.Shape` |
| System.StepKeepsJoint | components/gbb_dongle/gbb_dongle.cpp:269-309 | each of the seven actions keeps that invariant |
| System.StartsFromIdle | components/gbb_dongle/gbb_dongle.cpp:284-296 | a batch only ever starts on an idle executor, so no result is overwritten; a cloud request only while no emergency cycle runs |
| System.LoopIsFourSteps | components/gbb_dongle/gbb_dongle.cpp:269-309 | one pass of the main loop is result, dispatch, poll and check in a row, so runs over the single steps cover all runs of the loop |
| System.CloudEffectOf | components/gbb_dongle/emergency_manager.cpp:47-102 | the exact effect of a cloud message on every field of the manager but its state and sets: stamp, awaiting flags and cloud-back flag move as stated, all others stay |
| System.CloudStateOf | components/gbb_dongle/emergency_manager.cpp:58-100 | the state after a cloud message as a function of the state before, whether it carries an InvSetup, whether it carries a set, and whether the store ends up empty |
| System.CloudStore | components/gbb_dongle/emergency_manager.cpp:79-86 | the store after a cloud message: replaced or cleared under the trimmed key, and synced to NVS exactly when the content changed |
| System.ResultStore | components/gbb_dongle/emergency_manager.cpp:185-203 | the store after a result: the set is removed and synced exactly when the run was delivered and its revision is still the stored one |
| Cycle.CycleCommitted | components/gbb_dongle/emergency_manager.cpp:150-177 | from its trigger to its end a cycle runs sets in strictly ascending key order, no set twice, every set stored at the trigger and not cleared by the cloud before its turn, and no cloud request is started in between |
| Cycle.WalkDuring | components/gbb_dongle/emergency_manager.cpp:208-212 | at every moment of a cycle each set stored at the trigger has run, was cleared before its turn, or is stored ahead of the walk |
| Cycle.CycleBounded | components/gbb_dongle/emergency_manager.cpp:150-161 | while the cloud adds no key, runs started plus keys still ahead never exceed the sets stored at the trigger |
| Cycle.WalkShrinks | components/gbb_dongle/emergency_manager.cpp:150-161 | starting a set leaves strictly fewer keys ahead; the cycle ends exactly when none is left |
| Cycle.ResultShrinks | components/gbb_dongle/emergency_manager.cpp:179-212 | handling a result never puts keys back ahead of the walk |
| CloudBack.CloudBackSafety | components/gbb_dongle/emergency_manager.cpp:104-148 | at every entry to QUEUED, from ARMED or as a retry, no InvSetup at all was received since the top of the UTC hour of the original trigger, on any interleaving, late clock or reboot |
| CloudBack.ToldAlways | components/gbb_dongle/emergency_manager.cpp:47-77 | the invariant behind it: the stamp is never older than the last InvSetup unless it is still to be set, and in a cycle without the cloud-back flag, or in BACKOFF, none came since the hour of the trigger began |
| CloudBack.NeverFiresEarly | components/gbb_dongle/emergency_manager.cpp:121-136 | whenever the real trigger fires, a device that knew the true receive time of the last InvSetup would fire too; the only trigger without any InvSetup follows a restore from NVS |
| Retries.BackoffSequence | components/gbb_dongle/emergency_manager.cpp:227-230 | failure k since the original trigger arms the retry for exactly min(initial * 2^k, max) ms later, and a check within 2^31 ms of that moment retries exactly when it has come |
| Retries.NextWait | components/gbb_dongle/emergency_manager.cpp:230 | below 2^31 the 32-bit doubling step takes one term of that sequence to the next |
| Retries.DelayWraps | components/gbb_dongle/emergency_manager.cpp:230 | doubling a delay is exact if and only if the delay is below 2^31; at 2^31 the next one is 0 |
| Retries.RetriedExactly | components/gbb_dongle/emergency_manager.cpp:150-157 | a cycle that leaves sets undelivered is retried exactly when a result ended it, no InvSetup came during it and the flag was down at the trigger; any other such end is a dispatch that finds no stored key ahead; the documented rule (docs/protocol.md:112-118) holds exactly when an InvSetup does come or the other two conditions hold |
| Retries.DispatchExit | components/gbb_dongle/emergency_manager.cpp:150-157 | a dispatch ends a cycle exactly when the bus is free, the walk is under way and no stored key lies ahead; it goes to ARMED and leaves every stored set behind |
| Retries.RetriedInPasses | components/gbb_dongle/gbb_dongle.cpp:269-309 | when no message comes between the result and the dispatch of one pass of the loop, only a result ends a cycle with sets left, and it is retried exactly when no InvSetup came and the flag was down at the trigger |
| Retries.BackoffLeft | components/gbb_dongle/emergency_manager.cpp:104-112 | BACKOFF is left exactly by a check at which the moment of the retry has come, an InvSetup, a message that empties the store, or a reboot; and where to in each case |
| Retries.RetriesUntil | docs/protocol.md:112-115 | in uninterrupted passes a device in BACKOFF keeps waiting or sending until every set is delivered, an InvSetup comes, the cloud empties the store, or it reboots |
| Retries.WaitFormula | components/gbb_dongle/emergency_manager.cpp:227-230 | the wait after failure k is min(initial * 2^k, max), also for the first one |
| Retries.FlagDuring | components/gbb_dongle/emergency_manager.cpp:65-73 | in a cycle the flag is up exactly when it was up at the trigger or an InvSetup came since |
| Retries.FlagLeftOver | components/gbb_dongle/emergency_manager.cpp:95-97 | the flag outlives a cycle in one way only: a cloud message empties the store while the cycle is QUEUED |
| Retries.CycleEnds | components/gbb_dongle/emergency_manager.cpp:221-230 | the result that ends a cycle with sets left goes to BACKOFF exactly when the flag is down |
| Deadlines.StampKnown | components/gbb_dongle/emergency_manager.cpp:48-57 | in every reachable state the stamp is the last InvSetup on a set clock, or the first clocked check of an armed device after an earlier InvSetup or a restore from NVS, and 0 after a complete delivery or a reboot; the two awaiting flags say exactly when it is still to be set |
| Deadlines.FiresWhenDue | components/gbb_dongle/emergency_manager.cpp:121-147 | in every reachable state a clocked check of an armed device triggers exactly when nothing is awaited and that stamp is overdue |
| Deadlines.FiresExactly | components/gbb_dongle/emergency_manager.cpp:137-147 | a device armed before the deadline of its stamp t, however it got there, triggers exactly at its first check at or after the deadline: later than t + 60 (m + 1), and with checks at most d <= 60 s apart before t + 3600 + 60 (m + 1) + d |
| Deadlines.DocumentedRule | docs/protocol.md:92-97 | an armed device that ever heard an InvSetup sends at a check exactly as documented if and only if, when the rule says send, its stamp is set, not forgotten and of an earlier hour; with no InvSetup ever heard only a device with restored sets sends |
| Deadlines.DocumentedRuleOnSetClock | docs/protocol.md:92-97 | on a clock that is always set, from a boot without stored sets on, the device sends at a check exactly when the documented rule says so and not everything was delivered since the last InvSetup |
| Deadlines.SilentWithoutStamp | components/gbb_dongle/emergency_manager.cpp:213-219 | with the stamp forgotten and nothing awaited, no send is triggered before the next InvSetup or reboot, whatever the cloud stores |
| Deadlines.DueWindow | components/gbb_dongle/emergency_manager.cpp:140-142 | never due before that deadline, always due from it to the end of that hour |
| Deadlines.DuePossible | components/gbb_dongle/__init__.py:110-112 | a threshold can fire if and only if it is at most 58; the accepted value 59 disables the sends |
| Deadlines.Threshold59NeverSends | components/gbb_dongle/emergency_manager.cpp:137-147 | with threshold 59 no reachable state is in a send cycle or backoff |
| Ledger.NothingLost | components/gbb_dongle/emergency_store.cpp:49-67 | every revision stored since the boot is still stored, was delivered, or was replaced or cleared by a cloud message for its own key; no delivered one is stored any more |
| Ledger.NeverResent | components/gbb_dongle/emergency_manager.cpp:161-175 | a delivered revision never goes on the bus again before the next reboot, even if its key is cleared and stored again with the same content |
| Ledger.DeliveredMeansAnswered | components/gbb_dongle/emergency_manager.cpp:185-191 | in every run a result counts as delivered only if a line of that very batch got a CRC-valid reply, and, when no stored line has an Error of its own, whenever one did |
| Ledger.ClearsWhatItRan | components/gbb_dongle/emergency_manager.cpp:192-203 | a delivered result clears its key exactly when its revision is still the stored one, and the lines it clears are then the very lines the batch was started with |
| Ledger.RevisionNamesContent | components/gbb_dongle/emergency_store.cpp:56-61 | within one boot a revision stands for one key and one list of lines |
| Contents.StoredIsLastSaid | docs/protocol.md:90 | in every reachable state a key is stored exactly when the last message for it, or the boot, gave it a set that was not delivered since; and it is stored with the LineNo and Modbus values of that message, position by position |
| Gaps.GapSafety | components/gbb_dongle/modbus_executor.cpp:101-104 | after a command of function 5 or more other than 23 every later transmission of the boot comes at least the write gap after its reply or timeout, after any other at least the read gap; at any uptime, across batches of either kind, for gaps up to 2^31 ms |
| Gaps.SentWhenGapOver | components/gbb_dongle/modbus_executor.cpp:56-62 | and no later: within 2^31 ms of that moment the next command leaves at a poll exactly when the gap of the last one - write or read by that rule - is over |
| Gaps.NeverBlocked | components/gbb_dongle/modbus_executor.cpp:56-62 | a waiting command goes out at a poll exactly when the distance past its true deadline, mod 2^32, is below 2^31: always within 2^31 ms after it, never in the 2^31 ms that follow |
| Gaps.GapsHonoured | components/gbb_dongle/modbus_executor.cpp:60 | the signed test honours a gap at every uptime if and only if the gap is at most 2^31 ms |
| Gaps.PollGap | components/gbb_dongle/modbus_executor.cpp:101-104 | one call: sends exactly when the test passes and never before the true deadline; a command that ends leaves the deadline its own gap ahead |
| Progress.BatchDone | components/gbb_dongle/modbus_executor.cpp:51-92 | a running batch polled as often as its measure (lines left, gap or timeout left) is DONE by then, with an advancing clock, each gap test before 2^31 ms past its deadline and each timeout test before the counter comes round |
| Progress.BatchEnds | components/gbb_dongle/modbus_executor.cpp:51-92 | each poll of a running batch uses up some of that measure |
| Progress.EffortBound | components/gbb_dongle/modbus_executor.cpp:165-178 | the measure is at most (longest gap + timeout + 3) polls per line when the deadline is at most one gap away |
| CycleEnd.CycleOver | components/gbb_dongle/emergency_manager.cpp:150-177 | an uninterrupted run of the loop contains the end of a cycle to which the cloud adds no key after at most 50 (longest gap + timeout + 3) + 1 passes for each set stored at the trigger, and those of the batch already on the bus |
| Promise.SentInTime | docs/protocol.md:92-106 | the promise of the component: when the cloud stays silent, the first check of an armed device at or after the deadline of its stamp comes within d of it and triggers, and after the passes of that cycle every set it held before the deadline has been on the bus, with the lines it was stored with |
| Promise.CycleSends | components/gbb_dongle/emergency_manager.cpp:150-177 | once a cycle has begun and the cloud is silent, every set stored at its trigger has been on the bus when 50 (longest gap + timeout + 3) + 1 prompt passes for each of them and those of the batch already there have gone by |
| CycleEnd.CycleSpends | components/gbb_dongle/gbb_dongle.cpp:276-297 | each pass of such a cycle uses up one of the passes it had at the trigger |
| Requests.RequestsConserved | components/gbb_dongle/gbb_dongle.cpp:158-193 | at every moment received = rejected + replaced + pending + on the bus + published + dropped as oversized, and both counters show this mod 2^32; each response is the outcome of one accepted request, in acceptance order, no two of the same, and none is an emergency result |
| Waiting.RequestServed | docs/protocol.md:101-106 | in uninterrupted passes a request that no other replaces before it starts is itself started and then served, with no other batch on the bus from its start to its result, after at most the passes of a running or coming emergency cycle, those of the batch on the bus, and 50 (longest gap + timeout + 3) + 1 of its own |
| Waiting.WaitBounded | components/gbb_dongle/gbb_dongle.cpp:284-296 | as long as it waits, no more than the first two of these have gone by |
| Waiting.ServesPublishes | components/gbb_dongle/gbb_dongle.cpp:238-267 | being served is a response with the request's own header and the outcome of its very lines: with LastLog exactly when SendLastLog is not 0 and the document with it is under 5119 bytes, without it when only that is, and none when neither is |
| Requests.StepKeeps | components/gbb_dongle/gbb_dongle.cpp:238-267 | each action keeps these accounts |
| Mirror.NvsMirrors | components/gbb_dongle/emergency_store.cpp:133-174 | for any NVS at power-on and any switch position at each boot, with NVS calls succeeding and hashes that tell the documents of the run apart: a boot would restore exactly the preserved content - the latest that fitted, or was restored, since the store was last empty or persistence off - if and only if the copy is not stale; a stale one holds sets where there should be none |
| Mirror.NeverStale | components/gbb_dongle/emergency_store.cpp:79-95 | if the switch comes back from every reboot as it was and power-on left no stale copy, there is never one |
| Mirror.RebootRestores | components/gbb_dongle/emergency_manager.cpp:26-37 | a reboot with the switch on restores what NVS holds, so the preserved content exactly when the copy is not stale; with it off, nothing; NVS is erased only when it cannot be read; and the whole content comes back exactly when it fitted or was empty |
| Mirror.DocumentOrigin | components/gbb_dongle/emergency_store.cpp:147-168 | whatever NVS calls do, NVS is empty or holds the document of power-on or of a content the store had and that fitted the size cap |
| Mirror.DocumentIsPreserved | components/gbb_dongle/emergency_store.cpp:147-168 | unless it is that of power-on, a copy that is not stale is the very document of the preserved content |
| Mirror.NeverTruncated | components/gbb_dongle/emergency_store.cpp:147-153 | whatever NVS calls do and whatever the documents hash to, NVS never holds a document at the size cap unless it did at power-on |
| Mirror.BootMirror | components/gbb_dongle/emergency_store.cpp:97-131 | a boot restores what NVS holds when the switch is on, and nothing else |
| Mirror.StepMirror | components/gbb_dongle/emergency_store.cpp:79-95 | each action but a reboot keeps NVS, the hash guard and the preserved content in step |
| Mirror.StoredSetsRoundTrip | components/gbb_dongle/gbb_protocol.cpp:128-156 | in every reachable state the stored sets survive build and parse, and have 1-50 lines each |
| Faults.NextSyncWrites | components/gbb_dongle/emergency_store.cpp:147-171 | however many writes of a content were refused, not committed or could not open NVS, the next sync of it whose calls work leaves its document there; and nothing but a commit makes the device take it for written |
| Faults.ResendWritesNothing | components/gbb_dongle/emergency_store.cpp:49-62 | a message with the LineNo and Modbus values already stored leaves the store and NVS as they are, so the hourly re-send makes up for no failed write |
| Faults.GoingBackIsMissed | components/gbb_dongle/emergency_store.cpp:155-170 | when a write landed without its commit and the content then goes back to the committed one, NVS keeps the document in between, exactly then |
| Faults.OffThenOn | components/gbb_dongle/emergency_store.cpp:79-95 | turning the switch off takes the copy away exactly when NVS opens and erases; turning it on again writes what fits, whatever was taken for written before |
| Faults.BootWithFaults | components/gbb_dongle/emergency_store.cpp:97-131 | a boot restores the copy exactly when the switch is on and NVS opens, tells its length and reads; it erases one only when that much worked but reading it, or making sense of it, did not |
| Counters.CountersKnown | components/gbb_dongle/emergency_manager.cpp:161-193 | the counters of sets sent and sets delivered are, mod 2^32, what the history of the boot says |
| Counters.ErrorsKnown | components/gbb_dongle/modbus_executor.cpp:209-221 | the error counter is the number of batches that stopped at a line since the boot, mod 2^32 |
| Counters.LooksEveryFiveSeconds | components/gbb_dongle/emergency_manager.cpp:39-45 | a check does nothing within 5000 ms of the last time the manager looked, and from then on it tests a set clock, at any uptime |
| Exchange.SentIsRequested | components/gbb_dongle/modbus_executor.cpp:79-114 | every frame that leaves is the decoded Modbus text of a line of its batch, at least 4 bytes long, when exactly the earlier lines with a frame have been answered |
| Exchange.AnswerIsWhatArrived | components/gbb_dongle/modbus_executor.cpp:94-99 | a frame is taken for the answer only if it is CRC-valid, at most 300 bytes, and the very first bytes that arrived since the command left |
| Exchange.ReplyOrTimeout | components/gbb_dongle/modbus_executor.cpp:142-178 | what a poll makes of the bytes since the command left: once they begin with a reply of 5 bytes (exception), 5 and its byte count (functions 1-4) or 8 bytes (5, 6, 15, 16), that reply or a CRC failure; while they are part of one, nothing before the response timeout and a failed line from it on |
| Batches.StartedShape | components/gbb_dongle/modbus_executor.cpp:35-44 | a started batch has the shape: lines before the index answered or payload-free, lines from it on as requested |
| Batches.PolledShape | components/gbb_dongle/modbus_executor.cpp:131-227 | a poll keeps the shape, records each accepted reply at its own line, and changes no header field but the lines; at DONE every payload line holds the hex of a CRC-valid reply, or one line has an error and Modbus is gone from it on |
| Batches.IdentityKept | components/gbb_dongle/modbus_executor.cpp:209-221 | a batch never adds or drops a line and never changes LineNo, Tag or Timestamp |
| Batches.BeginsWith | components/gbb_dongle/modbus_executor.cpp:72-92 | a batch begins with its first line whose Modbus is present and not empty, with exactly the decoded frame, or fails it when that is no hex or under 4 bytes; without such a line it is done and unchanged |
| Batches.GoesOnWith | components/gbb_dongle/modbus_executor.cpp:199-206 | after an answer it goes on with the next such line, the answer stored in hex |
| Batches.VerdictExact | components/gbb_dongle/emergency_manager.cpp:185-191 | the manager calls a finished run delivered exactly when a line whose request carried no error was answered in this run |
| Batches.VerdictSound | components/gbb_dongle/emergency_manager.cpp:185-191 | so never without a CRC-valid reply, and exactly with one when no request line carried an error |
| Batches.PresetErrorBlocks | components/gbb_dongle/emergency_manager.cpp:185-191 | a run whose answered lines all carried an error text of their own is never called delivered |
| Framing.ChunkingIrrelevant | components/gbb_dongle/modbus_executor.cpp:131-163 | for exception replies and functions 1-6, 15 and 16, any split of the reply over polls before the timeout ends like the whole stream at once, and the 300-byte guard never cuts in |
| Framing.TwoChunkingsAgree | components/gbb_dongle/modbus_executor.cpp:131-163 | so two splits of the same bytes give the same result |
| Framing.TellsLengthExactly | components/gbb_dongle/modbus_executor.cpp:143-152 | these are exactly the replies that tell their length |
| Framing.FramingExact | components/gbb_dongle/modbus_executor.cpp:142-163 | for a valid reply, all splits that end the line before the timeout give the same result if and only if the reply tells its length |
| Framing.SplitMatters | components/gbb_dongle/modbus_executor.cpp:158-162 | for every valid reply that does not, one split makes it the answer and another, with a pause after the third byte, makes it an error |
| Framing.SilenceDecides | components/gbb_dongle/modbus_executor.cpp:158-162 | such a line ends with exactly the bytes at the first poll that finds three or more of them and silence |
| Framing.SilentSplitsAgree | components/gbb_dongle/modbus_executor.cpp:158-197 | two splits of such a reply agree exactly when silence cuts both at the same byte or both cuts are refused for the same reason |
| Framing.ReplyIsTaken | components/gbb_dongle/modbus_executor.cpp:147-157 | with the lengths written out: however such a reply is split before the timeout and whatever follows it, exactly those bytes become the answer, or are refused for their CRC |
| Framing.ReplyIsAwaited | components/gbb_dongle/modbus_executor.cpp:147-157 | and the line does not end before its last byte is in |
| Framing.OverdueReply | components/gbb_dongle/modbus_executor.cpp:165-178 | an incomplete reply fails at the first poll responseTimeout ms or more after the frame left, and not before; that line and all later ones lose Modbus |
| Framing.TellsNothingExactly | components/gbb_dongle/modbus_executor.cpp:143-152 | all other functions, up to 300 bytes, are framed by silence |
| Framing.SilenceExactly | components/gbb_dongle/modbus_executor.cpp:125-129 | the silence is at least 5 ms and 3.5 characters of 11 bits: the first number of ms from 5 on above 39 bit times and a half ms |
| Scenarios.FlagLeftOverRun | components/gbb_dongle/emergency_manager.cpp:95-97 | the flag stays up when a message with InvSetup clears the only set of a waiting cycle; the next cycle hears no InvSetup, gets no answer, and is sent again at the next check without backoff |
| Scenarios.DispatchLeavesRun | components/gbb_dongle/emergency_manager.cpp:153-157 | the last key ahead is cleared after its predecessor got no answer; with the flag down and no InvSetup the cycle ends in ARMED and the set is sent again at the next check |
| Scenarios.RestoredSetsFire | components/gbb_dongle/emergency_manager.cpp:121-147 | any sets restored from NVS go out in the next hour without a single message |
| Scenarios.SilentAfterDelivery | components/gbb_dongle/emergency_manager.cpp:213-219 | all sets are delivered, the cloud stores a new one without an InvSetup and falls silent: at a check at which the documented rule says send the device stays ARMED |
| Scenarios.StaleCopyFires | components/gbb_dongle/emergency_store.cpp:79-95 | with the switch off at power-on over sets in NVS, turning it on while nothing is stored leaves the copy; the next reboot restores it and the sets go out without a message |
| Scenarios.LeftBehind | components/gbb_dongle/emergency_store.cpp:79-95 | in between, that copy is stale: nothing should be in NVS |
| Scenarios.ParkedRun | components/gbb_dongle/modbus_executor.cpp:60 | after 2^31 ms of quiet a request is held back at every poll until the counter comes round |
| Scenarios.PresetErrorRun | components/gbb_dongle/emergency_manager.cpp:185-191 | from power-on: a set whose line carries an Error is sent and answered with a valid reply, yet it does not count as delivered, stays stored and is to be sent again |
| Executor.StaysReady | components/gbb_dongle/modbus_executor.cpp:51-70 | a poll keeps the receive buffer within 300 bytes and a running batch at a line with a frame of at least 4 bytes |
| Executor.ModbusExecutor.constructor | components/gbb_dongle/modbus_executor.h:56-65 | the executor as it is at power-on |
| Executor.ModbusExecutor.Start | components/gbb_dongle/modbus_executor.cpp:35-44 | starts at line 0 and keeps the gap of the previous batch |
| Executor.ModbusExecutor.TakeResult | components/gbb_dongle/modbus_executor.cpp:46-49 | hands the header out and becomes idle |
| Executor.ModbusExecutor.StartNextLine | components/gbb_dongle/modbus_executor.cpp:72-92 | skips lines without payload; then the next frame waits, the batch is done, or the line fails on bad hex or fewer than 4 bytes |
| Executor.ModbusExecutor.FinishAll | components/gbb_dongle/modbus_executor.cpp:223-227 | DONE with both frames cleared |
| Executor.ModbusExecutor.FailLine | components/gbb_dongle/modbus_executor.cpp:209-221 | the in-place loop gives the line its error and takes Modbus from it and all later lines, touching nothing else |
| Executor.ModbusExecutor.TransmitCurrent | components/gbb_dongle/modbus_executor.cpp:94-123 | drops stale bytes, writes the frame once, sets the gap by function code and waits for the reply |
| Executor.ModbusExecutor.FinishLineOk | components/gbb_dongle/modbus_executor.cpp:181-207 | refuses short frames and bad CRCs; else the line holds the reply in hex and the next line starts after the gap |
| Executor.ModbusExecutor.Receive | components/gbb_dongle/modbus_executor.cpp:134-140 | takes bytes in order up to the buffer size and leaves the rest |
| Executor.ModbusExecutor.HandleRx | components/gbb_dongle/modbus_executor.cpp:131-179 | one poll of the reply: by length, by silence or by timeout |
| Executor.ModbusExecutor.Loop | components/gbb_dongle/modbus_executor.cpp:51-70 | the whole call, with what it wrote to the bus |
| Manager.EmergencyManager.constructor | components/gbb_dongle/emergency_manager.h:66-70 | the manager before setup |
| Manager.EmergencyManager.Setup | components/gbb_dongle/emergency_manager.cpp:26-37 | restores sets when the switch is on; ARMED and awaiting the clock exactly when some were loaded |
| Manager.EmergencyManager.NoteInvSetup | components/gbb_dongle/emergency_manager.cpp:48-77 | stamps the time or awaits the clock; cancels a retry, flags a running cycle |
| Manager.EmergencyManager.StoreLines | components/gbb_dongle/emergency_manager.cpp:79-101 | stores or clears under the key, syncs only on a change, and moves between EMPTY and ARMED |
| Manager.EmergencyManager.HandleFields | components/gbb_dongle/emergency_manager.cpp:47-102 | both parts of a message, InvSetup first |
| Manager.EmergencyManager.Loop | components/gbb_dongle/emergency_manager.cpp:39-45 | a check at most every 5 s |
| Manager.EmergencyManager.CheckTrigger | components/gbb_dongle/emergency_manager.cpp:104-148 | retry, late stamp or hourly trigger |
| Manager.EmergencyManager.BeginSet | components/gbb_dongle/emergency_manager.cpp:160-176 | marks the set as the one on the bus, with its revision |
| Manager.EmergencyManager.SelectNextSet | components/gbb_dongle/emergency_manager.cpp:150-176 | the first key, or the next above the current one; none ends the cycle |
| Manager.EmergencyManager.StartNextSet | components/gbb_dongle/emergency_manager.cpp:150-177 | puts that set on the bus as a copy and leaves it stored |
| Manager.EmergencyManager.HandleResult | components/gbb_dongle/emergency_manager.cpp:179-231 | the verdict over all lines, the revision check before clearing, and the next state |
| Manager.EmergencyManager.NextCycleStep | components/gbb_dongle/emergency_manager.cpp:208-230 | next set, EMPTY, ARMED or BACKOFF with the doubled and capped delay |
| Manager.KeyNulFree | components/gbb_dongle/emergency_manager.cpp:81 | a trimmed key holds no NUL character |
| Manager.KeyIsTrimmed | components/gbb_dongle/emergency_manager.cpp:16-24 | the key is the serial number without the blanks (space, tab, CR, LF, VT, FF) around it and nothing else taken away; empty without a serial number |
| Manager.RunNamesKey | components/gbb_dongle/emergency_manager.cpp:164-171 | the batch of a run is an emergency one with the stored lines and names its key, with no serial number for the master set |
| Stores.ReplacedOk | components/gbb_dongle/emergency_store.cpp:49-62 | storing or clearing keeps the two maps in step and the revisions distinct and never reused |
| Stores.RemovedOk | components/gbb_dongle/emergency_store.cpp:64-67 | so does removing a key |
| Stores.SetArrives | components/gbb_dongle/emergency_store.cpp:39-61 | after a set arrived its key is stored with the LineNo and Modbus values of the set, position by position; the revision stays exactly when it was stored with them before, and is new to the store otherwise; other keys stay |
| Stores.EmptySetArrives | components/gbb_dongle/emergency_store.cpp:50-54 | an empty set takes away its key and revision and nothing else |
| Stores.LoadedOk | components/gbb_dongle/emergency_store.cpp:123-127 | and so does loading, which numbers the sets afresh in key order |
| Stores.NumberedFresh | components/gbb_dongle/emergency_store.cpp:125-127 | loaded sets get consecutive revisions in key order |
| Stores.SyncedOk | components/gbb_dongle/emergency_store.cpp:133-174 | syncing never touches the sets or revisions |
| Stores.EmergencyStore.constructor | components/gbb_dongle/emergency_store.h:49-53 | RAM after a reset, NVS as it was |
| Stores.EmergencyStore.SameExecutionContent | components/gbb_dongle/emergency_store.cpp:39-47 | equal in number, LineNo and Modbus |
| Stores.EmergencyStore.SetLines | components/gbb_dongle/emergency_store.cpp:49-62 | replaces, clears or leaves alone, and reports whether it changed anything |
| Stores.EmergencyStore.Clear | components/gbb_dongle/emergency_store.cpp:64-67 | removes the key from both maps |
| Stores.EmergencyStore.RevisionOf | components/gbb_dongle/emergency_store.cpp:74-77 | the stored revision, 0 for an absent key |
| Stores.EmergencyStore.SyncNvs | components/gbb_dongle/emergency_store.cpp:133-174 | writes, erases or keeps the blob, with the size and hash guards and each way a call can fail, a failed commit included |
| Stores.EmergencyStore.SetPersistEnabled | components/gbb_dongle/emergency_store.cpp:79-95 | on: writes at once; off: erases and forgets the hash |
| Stores.EmergencyStore.LoadFromNvs | components/gbb_dongle/emergency_store.cpp:97-131 | restores the sets, erases an unreadable blob, and leaves alone one whose length cannot be read |
| Stores.EmergencyStore.Renumber | components/gbb_dongle/emergency_store.cpp:125-127 | the loop that numbers the loaded sets |
| Dongle.GbbDongle.constructor | components/gbb_dongle/gbb_dongle.cpp:30-76 | the device at power-on |
| Dongle.GbbDongle.OnCloudMessage | components/gbb_dongle/gbb_dongle.cpp:158-193 | counts the message, drops oversized and malformed ones, applies its log level, lets the manager see it and puts it in the one slot |
| Dongle.GbbDongle.ApplyLogLevel | components/gbb_dongle/gbb_dongle.cpp:195-212 | sets and stores the level gate of the log for a known level that differs, ignores any other |
| Dongle.GbbDongle.PublishResponse | components/gbb_dongle/gbb_dongle.cpp:238-267 | the response with the unread log when asked for, without it when that is too large, or none; the read cursor moves exactly when the log was asked for |
| Dongle.GbbDongle.TakeResult | components/gbb_dongle/gbb_dongle.cpp:276-283 | an emergency result goes to the manager, any other to the cloud |
| Dongle.GbbDongle.Dispatch | components/gbb_dongle/gbb_dongle.cpp:284-296 | on a free bus a due emergency cycle first, else the pending request |
| Dongle.GbbDongle.Loop | components/gbb_dongle/gbb_dongle.cpp:269-309 | one whole pass of results, dispatch, bus and deadline |
| Dongle.GbbDongle.OnPersistSwitch | components/gbb_dongle/emergency_manager.cpp:29 | the switch callback |
| Dongle.PublishedResponds | components/gbb_dongle/gbb_dongle.cpp:238-267 | with the log when asked for and under 5119 bytes with it, without it when only that is, nothing otherwise; the methods above say so of the log text itself, the unread 3 KiB |
| Dongle.GatesExactly | components/gbb_dongle/gbb_dongle.cpp:195-206 | OnlyErrors, Min and Max in any case of letters ask for the gates 2, 5 and 7, and no other text asks for any |
| Wire.ReadAsSaid | components/gbb_dongle/gbb_protocol.cpp:59-95 | a document with the fields Error, OrderId, LogLevel, SendLastLog, SubInverterSN, Lines, IsInvSetup and LinesOnNoInvSetup is read back as exactly the request it says, whatever else it has |
| Wire.LineReadAsSaid | components/gbb_dongle/gbb_protocol.cpp:22-39 | so is a line with the fields LineNo (0 when absent), Tag, Timestamp, Modbus and Error |
| Wire.TakenAsSaid | components/gbb_dongle/gbb_dongle.cpp:158-193 | it is taken exactly up to 16 KiB; it is an InvSetup exactly when IsInvSetup is not 0 and names a set exactly when it has LinesOnNoInvSetup |
| Wire.Ignored | components/gbb_dongle/gbb_protocol.cpp:15-20 | no JSON, more than 16 KiB or more than 50 elements in either array: the whole payload is ignored |
| LogRing.LogRingBuffer.constructor | components/gbb_dongle/log_ring_buffer.cpp:10-17 | no buffer yet, nothing logged |
| LogRing.LogRingBuffer.Init | components/gbb_dongle/log_ring_buffer.cpp:10-17 | the buffer when the allocator has the memory |
| LogRing.LogRingBuffer.Put | components/gbb_dongle/log_ring_buffer.cpp:37-39 | one byte into the ring, older slots of the window untouched |
| LogRing.LogRingBuffer.Record | components/gbb_dongle/log_ring_buffer.cpp:29-41 | the ring holds the last `capacity` bytes of the unbounded log after the stripped message is added |
| LogRing.LogRingBuffer.Append | components/gbb_dongle/log_ring_buffer.cpp:23-41 | nothing when gated, empty or without buffer; else the first capacity/4 bytes, stripped |
| LogRing.LogRingBuffer.ReadIncremental | components/gbb_dongle/log_ring_buffer.cpp:43-65 | exactly the log from max(previous read end, end - capacity, end - max_bytes) to its end |
| LogRing.Replay | components/gbb_dongle/log_ring_buffer.cpp:23-65 | any sequence of appends and reads on a fresh ring leaves the log and cursor, and serves the slices, of the run over the unbounded log that the next two rows speak of |
| LogRing.ReadsInOrder | components/gbb_dongle/log_ring_buffer.cpp:43-65 | over every run of appends and reads no byte is served twice and later reads serve later bytes |
| LogRing.ReadsAreTheLog | components/gbb_dongle/log_ring_buffer.cpp:48-57 | the reads together are the whole log up to the last read if and only if no read found more than min(capacity, max_bytes) waiting |
| LogRing.ReadsNewest | components/gbb_dongle/log_ring_buffer.cpp:48-57 | a read returns the newest part of the unread log: all of it, or as much as the buffer holds or as was asked for, whichever is least |
| LogRing.LogRingBuffer.CopyOut | components/gbb_dongle/log_ring_buffer.cpp:59-62 | the loop that copies the slice out of the ring |
| LogRing.RecordedIsOutside | components/gbb_dongle/log_ring_buffer.cpp:30-40 | what a message adds is exactly its characters outside colour sequences, position by position; the newline is missing exactly when the message ends inside one |
| LogRing.SequenceStripped | components/gbb_dongle/log_ring_buffer.cpp:32-36 | a colour sequence leaves no trace wherever it stands outside another one |
| LogRing.PlainMessage | components/gbb_dongle/log_ring_buffer.cpp:37 | a message without escapes is recorded whole with its newline |
| LogRing.UnterminatedLosesNewline | components/gbb_dongle/log_ring_buffer.cpp:32-36 | an unclosed sequence takes the rest and the newline |
| LogRing.NothingEscaped | components/gbb_dongle/log_ring_buffer.cpp:31-36 | no escape character ever reaches the log |
| Crc.ModbusCrc16 | components/gbb_dongle/gbb_protocol.cpp:194-207 | the loops compute the CRC that the lemmas below speak of |
| Crc.OverIsFeed | components/gbb_dongle/gbb_protocol.cpp:196-205 | the byte-wise CRC is the bit-serial one over the bits in wire order |
| Crc.StepLinear | components/gbb_dongle/gbb_protocol.cpp:199-203 | one turn of the bit loop is linear over GF(2) |
| Crc.StepUndone | components/gbb_dongle/gbb_protocol.cpp:199-203 | and a bijection: undone by its inverse |
| Crc.UndoStepped | components/gbb_dongle/gbb_protocol.cpp:199-203 | in the other direction too |
| Crc.AcceptedIffWholeCrcZero | components/gbb_dongle/modbus_executor.cpp:189-197 | a frame passes the check if and only if the CRC over all of it, trailer included, is zero |
| Crc.BurstRejected | components/gbb_dongle/modbus_executor.cpp:189-197 | any change of an accepted frame confined to 16 consecutive bits on the wire is refused |
| Crc.AdjacentBytesRejected | components/gbb_dongle/modbus_executor.cpp:189-197 | any change confined to one byte or two adjacent bytes is refused |
| Crc.OddFlipsRejected | components/gbb_dongle/modbus_executor.cpp:189-197 | any odd number of flipped bits is refused |
| Crc.StartsComplemented | components/gbb_dongle/gbb_protocol.cpp:195 | the start value: the CRC is the one from zero over data whose first two bytes are complemented |
| Crc.ReadRequestCrc | components/gbb_dongle/gbb_protocol.cpp:194-207 | the request 01 03 00 00 00 0A has the CRC CDC5 |
| Hex.BytesToHex | components/gbb_dongle/gbb_protocol.cpp:158-167 | two uppercase digits a byte, high nibble first |
| Hex.HexToBytes | components/gbb_dongle/gbb_protocol.cpp:179-192 | the bytes, or failure on odd length or a non-digit |
| Hex.DecodeEncode | components/gbb_dongle/gbb_protocol.cpp:158-192 | decoding an encoded frame gives the frame |
| Hex.EncodeDecode | components/gbb_dongle/gbb_protocol.cpp:158-192 | encoding a decoded string gives it back in upper case |
| Hex.DecodesExactly | components/gbb_dongle/gbb_protocol.cpp:179-192 | exactly the even-length strings of hex digits decode |
| Hex.DigitsExactly | components/gbb_dongle/gbb_protocol.cpp:169-177 | the digits are 0-9, A-F and a-f and no other character |
| Hex.DigitValue | components/gbb_dongle/gbb_protocol.cpp:169-177 | each stands for its place in the row of sixteen, in either case |
| Hex.EncodedAt | components/gbb_dongle/gbb_protocol.cpp:158-167 | byte i becomes the digits of its sixteens and of its ones at 2 i and 2 i + 1 |
| Keys.FindFirst | components/gbb_dongle/emergency_manager.cpp:152 | the least key in byte order, as `std::map` would give it |
| Keys.FindNext | components/gbb_dongle/emergency_manager.cpp:152 | the least key above the current one, or the least of all at the start of a walk |
| Keys.LessExactly | components/gbb_dongle/emergency_manager.cpp:152 | the order is that of bytes: the first difference decides and a prefix comes first, so the master set goes first |
| Protocol.ParseLineArray | components/gbb_dongle/gbb_protocol.cpp:13-42 | the lines of an array, refused above 50 elements |
| Protocol.SerializeLineArray | components/gbb_dongle/gbb_protocol.cpp:44-57 | the array of a list of lines, with absent fields left out |
| Protocol.SerializeLine | components/gbb_dongle/gbb_protocol.cpp:46-55 | one line |
| Protocol.FieldsRead | components/gbb_dongle/gbb_protocol.cpp:46-55 | a serialised line holds LineNo, Tag, Timestamp, Modbus and Error under these names, and none that is absent |
| Protocol.BuildEmergencySets | components/gbb_dongle/gbb_protocol.cpp:128-137 | the document of a store, sets in key order |
| Protocol.DocumentRead | components/gbb_dongle/gbb_protocol.cpp:128-137 | that document holds under Sets one object for each set in key order, with SubInverterSN and Lines |
| Protocol.ParseEmergencySets | components/gbb_dongle/gbb_protocol.cpp:139-156 | the sets of a document, merged into those given, or failure |
| Protocol.HeaderOfWf | components/gbb_dongle/gbb_protocol.cpp:59-95 | a parsed request has at most 50 lines in either array and no NUL in any of its strings |
| Protocol.LinesRoundTrip | components/gbb_dongle/gbb_protocol.cpp:13-57 | parsing serialised lines gives the lines |
| Protocol.SetsRoundTrip | components/gbb_dongle/gbb_protocol.cpp:128-156 | parsing a built document gives the sets |
| Protocol.SetsOfWf | components/gbb_dongle/gbb_protocol.cpp:139-156 | whatever parses is a sound store: 1-50 lines a set |
| Clock.ReachedExactly | components/gbb_dongle/modbus_executor.cpp:60 | the signed test passes exactly when the true distance mod 2^32 is below 2^31 |
| Clock.ReachedNear | components/gbb_dongle/emergency_manager.cpp:106 | so within 2^31 ms of the deadline it is the comparison it stands for |
| Clock.WrapSub | components/gbb_dongle/modbus_executor.cpp:165 | the unsigned difference of two readings is the true one below 2^32 ms |

## Left out

- MQTT, TLS, WiFi and Ethernet setup, subscription, keepalive, entity callbacks, client info and all logging calls: plumbing over libraries not part of this model.
- UART settings: the baud rate is fixed for a run, though the firmware can change it live; the flow-control pin is left out.
- JSON text: parsing, printing and truncation are replaced by trees and an arbitrary size function; duplicate member names cannot occur in a tree. `parse_header` is a function of the tree, `HeaderOf`, not a method.
- Revisions and the ring's 64-bit offsets are unbounded numbers: an overflow of `next_revision_` after 2^32 stores is not modelled.
- NVS: each kind of call has one outcome per operation; an erase counts with its commit, whose failure the firmware ignores.
- A null executor, time source or persist switch: all three are present. Allocation failure is modelled only for the log ring.
- Threads: a cloud message, a switch turn and each part of a pass of `loop()` are atomic and may interleave in any order; theorems that need uninterrupted passes say so with `InPasses`. The ring's mutex is left out.
- Dongle.GbbDongle.Loop: does not model enabling the cloud connection or the keepalive, which touch no other state.
- `clear_all`: nothing calls it.
- The TRANSMIT state: the firmware never rests in it, so the phase type leaves it out. A header is copied where the firmware moves it; nothing reads a moved-from one.
- Gaps.GapSafety: holds within one boot; a reboot forgets the gap, as the firmware does.
- Progress.BatchDone: counts polls, not milliseconds, and does not cover a gap test made later than 2^31 ms after its deadline, which may have to wait for the counter to come round.
- Mirror.NvsMirrors: assumes that all NVS calls succeed; what failing writes lead to is in `Faults`, and `Mirror.NeverTruncated` and `Mirror.DocumentOrigin` carry any failure through whole runs.
- The log ring is not part of the state of `System`: a result's log text is arbitrary there; `Dongle.GbbDongle.TakeResult` ties it to the ring.
- `tools/`, the YAML configurations, code generation, the web installer and the planned cloud watchdog: not part of this model.
