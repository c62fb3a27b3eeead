// What follows a cycle that left sets undelivered: when it is retried, and after how long.

module Retries {

  import opened Clock
  import opened Keys
  import opened Protocol
  import opened Executor
  import opened Batches
  import opened Stores
  import opened Manager
  import opened Dongle
  import opened System
  import opened Cycle
  import opened CloudBack

  // ----- The backoff sequence -----

  function Pow2(k: nat): nat { if k == 0 then 1 else 2 * Pow2(k - 1) }

  // The wait before the retry that follows failure number k, counted from 0.
  function Wait(cfg: Config, k: nat): nat {
    if k == 0 then cfg.retryInitial else Min(cfg.retryInitial * Pow2(k), cfg.retryMax)
  }

  lemma WaitFormula(cfg: Config, k: nat)
    requires cfg.retryInitial <= cfg.retryMax
    ensures Wait(cfg, k) == Min(cfg.retryInitial * Pow2(k), cfg.retryMax)
  {}

  predicate Representable(cfg: Config) { cfg.retryInitial < TWO31 && cfg.retryMax < TWO31 }

  lemma DoubleWait(initial: nat, k: nat)
    ensures initial * Pow2(k + 1) == 2 * (initial * Pow2(k))
  {
    var p := Pow2(k);
    assert initial * (2 * p) == 2 * (initial * p);
  }

  lemma NextWait(cfg: Config, k: nat)
    requires Representable(cfg)
    ensures Wait(cfg, k) < TWO31 && Min32(Wrap(Wait(cfg, k) * 2), cfg.retryMax) == Wait(cfg, k + 1)
  {
    var w := cfg.retryInitial * Pow2(k);
    DoubleWait(cfg.retryInitial, k);
    hide Pow2;
    if k > 0 {
      assert Wait(cfg, k) == Min(w, cfg.retryMax);
    } else {
      assert w == cfg.retryInitial;
    }
  }

  // Doubling is exact exactly below 2^31; from there on the next wait wraps, to 0 at 2^31 itself.
  lemma DelayWraps(m: Mgr, cfg: Config, now: u32)
    requires CycleStep(m, cfg, now).state == Backoff
    ensures Wrap(m.retryDelay * 2) == m.retryDelay * 2 <==> m.retryDelay < TWO31
    ensures m.retryDelay == TWO31 ==> CycleStep(m, cfg, now).retryDelay == 0
  {
    hide Less;
  }

  ghost predicate EntersBackoff(ws: seq<World>, acts: seq<Action>, j: nat)
    requires j < |acts| < |ws|
  {
    acts[j].Result? && ws[j].dev.mgr.state == Executing && ws[j + 1].dev.mgr.state == Backoff
  }

  // How often the episode of index j has failed since its original trigger, and when last.
  ghost function Failures(ws: seq<World>, acts: seq<Action>, j: nat): nat
    requires j <= |acts| < |ws|
  {
    if j == 0 then 0
    else if EntersQueued(ws, acts, j - 1) && ws[j - 1].dev.mgr.state == Armed then 0
    else if EntersBackoff(ws, acts, j - 1) then Failures(ws, acts, j - 1) + 1
    else Failures(ws, acts, j - 1)
  }

  ghost function FailedAt(ws: seq<World>, acts: seq<Action>, j: nat): nat
    requires j <= |acts| < |ws|
  {
    if j == 0 then 0
    else if EntersBackoff(ws, acts, j - 1) then acts[j - 1].ms
    else FailedAt(ws, acts, j - 1)
  }

  ghost predicate Paced(cfg: Config, k: nat, failedAt: nat, m: Mgr) {
    && (m.state in {Queued, Executing, Backoff} ==> m.retryDelay == Wait(cfg, k))
    && (m.state == Backoff ==> k > 0 && m.retryAt == Wrap(failedAt + Wait(cfg, k - 1)))
  }

  lemma CyclePaced(m: Mgr, cfg: Config, ms: nat, k: nat)
    requires Representable(cfg) && m.retryDelay == Wait(cfg, k)
    ensures var m' := CycleStep(m, cfg, Wrap(ms));
            if m'.state == Backoff then Paced(cfg, k + 1, ms, m') else m'.retryDelay == Wait(cfg, k)
  {
    hide Less, Wait;
    NextWait(cfg, k);
    WrapAdd(ms, Wait(cfg, k));
  }

  ghost predicate PacedAfter(cfg: Config, a: Action, k: nat, failedAt: nat, m: Mgr, m': Mgr) {
    if a.Check? && m.state == Armed && m'.state == Queued then Paced(cfg, 0, failedAt, m')
    else if a.Result? && m.state == Executing && m'.state == Backoff then Paced(cfg, k + 1, a.ms, m')
    else Paced(cfg, k, failedAt, m')
  }

  lemma CloudPaced(w: World, board: Board, a: Action, k: nat, failedAt: nat)
    requires Enabled(w, a) && a.Cloud? && Paced(board.config, k, failedAt, w.dev.mgr)
    ensures Paced(board.config, k, failedAt, Step(w, board, a).dev.mgr)
  {
    hide Step, Wait;
    CloudEffectOf(w, board, a);
  }

  lemma ResultPaced(w: World, board: Board, a: Action, k: nat, failedAt: nat)
    requires Joint(w) && Enabled(w, a) && a.Result? && Representable(board.config)
    requires Paced(board.config, k, failedAt, w.dev.mgr)
    ensures PacedAfter(board.config, a, k, failedAt, w.dev.mgr, Step(w, board, a).dev.mgr)
  {
    hide ResultStored, Wait, ResponseFor, StoreOk, Shape, RunIsCurrent, Less;
    if w.dev.exec.phase == Done && w.dev.exec.header.emergency {
      var m1 := ResultStored(w.dev.mgr, w.dev.exec.header.lines, board.codec, a.io);
      ResultStoredKeeps(w.dev.mgr, w.dev.exec.header.lines, board.codec, a.io);
      CyclePaced(m1, board.config, a.ms, k);
    }
  }

  lemma CheckPaced(w: World, board: Board, a: Action, k: nat, failedAt: nat)
    requires Enabled(w, a) && a.Check? && Paced(board.config, k, failedAt, w.dev.mgr)
    ensures PacedAfter(board.config, a, k, failedAt, w.dev.mgr, Step(w, board, a).dev.mgr)
  {
    hide Due, Reached, Elapsed;
  }

  lemma OtherPaced(w: World, board: Board, a: Action, k: nat, failedAt: nat)
    requires Enabled(w, a) && Paced(board.config, k, failedAt, w.dev.mgr)
    requires a.Dispatch? || a.Poll? || a.Toggle? || a.Reboot?
    ensures Paced(board.config, k, failedAt, Step(w, board, a).dev.mgr)
  {
    hide Polled, PersistTurned, Loaded, LoadedSome, Started, NextKey, Wait;
  }

  lemma StepPaced(w: World, board: Board, a: Action, k: nat, failedAt: nat)
    requires Joint(w) && Enabled(w, a) && Representable(board.config) && Paced(board.config, k, failedAt, w.dev.mgr)
    ensures PacedAfter(board.config, a, k, failedAt, w.dev.mgr, Step(w, board, a).dev.mgr)
  {
    hide Joint, Step, Enabled, Paced;
    match a
    case Cloud(_, _, _) => CloudPaced(w, board, a, k, failedAt);
    case Result(_, _, _) => ResultPaced(w, board, a, k, failedAt);
    case Check(_, _, _) => CheckPaced(w, board, a, k, failedAt);
    case Dispatch(_) => OtherPaced(w, board, a, k, failedAt);
    case Poll(_, _, _) => OtherPaced(w, board, a, k, failedAt);
    case Toggle(_, _) => OtherPaced(w, board, a, k, failedAt);
    case Reboot(_, _) => OtherPaced(w, board, a, k, failedAt);
  }

  lemma ResultStoredKeeps(m: Mgr, lines: seq<Line>, codec: Codec, io: NvsIo)
    ensures var m1 := ResultStored(m, lines, codec, io);
            m1.retryDelay == m.retryDelay && m1.state == m.state && m1.cloudBack == m.cloudBack
  {}

  lemma {:induction false} PacedAlways(board: Board, ws: seq<World>, acts: seq<Action>, j: nat)
    requires Behaviour(board, ws, acts) && Representable(board.config) && j <= |acts|
    ensures Paced(board.config, Failures(ws, acts, j), FailedAt(ws, acts, j), ws[j].dev.mgr)
  {
    hide Joint, Step, Enabled, Boot, Paced;
    if j == 0 {
      BootPaced(board, ws[0]);
    } else {
      PacedAlways(board, ws, acts, j - 1);
      JointAlways(board, ws, acts, j - 1);
      StepPaced(ws[j - 1], board, acts[j - 1], Failures(ws, acts, j - 1), FailedAt(ws, acts, j - 1));
      StepKeepsEntering(ws, acts, j - 1);
    }
  }

  lemma StepKeepsEntering(ws: seq<World>, acts: seq<Action>, j: nat)
    requires j < |acts| < |ws|
    ensures EntersQueued(ws, acts, j) && ws[j].dev.mgr.state == Armed <==>
            acts[j].Check? && ws[j].dev.mgr.state == Armed && ws[j + 1].dev.mgr.state == Queued
  {}

  lemma BootPaced(board: Board, w: World)
    requires exists nvs, switchOn, io :: w == Boot(board, nvs, switchOn, io)
    ensures Paced(board.config, 0, 0, w.dev.mgr)
  {
    hide PersistTurned, Loaded, LoadedSome;
  }

  // The k-th failure since the original trigger (k from 0) arms the retry for exactly Wait(k) later,
  // which is min(initial * 2^k, max) when the first wait is no longer than the longest; and a check
  // within 2^31 ms of that moment starts it exactly when the moment has come.
  lemma BackoffSequence(board: Board, ws: seq<World>, acts: seq<Action>, j: nat)
    requires Behaviour(board, ws, acts) && Representable(board.config) && j < |acts|
    ensures var cfg, k := board.config, Failures(ws, acts, j);
            EntersBackoff(ws, acts, j) ==>
              && ws[j + 1].dev.mgr.retryAt == Wrap(acts[j].ms + Wait(cfg, k))
              && (cfg.retryInitial <= cfg.retryMax ==> Wait(cfg, k) == Min(cfg.retryInitial * Pow2(k), cfg.retryMax))
    ensures var m := ws[j].dev.mgr;
            m.state == Backoff && acts[j].Check? && Elapsed(Wrap(acts[j].ms), m.lastCheck, CHECK_INTERVAL_MS) ==>
              && Failures(ws, acts, j) > 0
              && var due := FailedAt(ws, acts, j) + Wait(board.config, Failures(ws, acts, j) - 1);
                 -TWO31 <= acts[j].retryMs - due < TWO31 ==>
                   (ws[j + 1].dev.mgr.state == Queued <==> due <= acts[j].retryMs)
  {
    hide Joint, Step, Enabled, Boot, Wait;
    PacedAlways(board, ws, acts, j);
    PacedAlways(board, ws, acts, j + 1);
    StepKeepsEntering(ws, acts, j);
    if board.config.retryInitial <= board.config.retryMax {
      WaitFormula(board.config, Failures(ws, acts, j));
    }
    var m := ws[j].dev.mgr;
    if m.state == Backoff && acts[j].Check? && Elapsed(Wrap(acts[j].ms), m.lastCheck, CHECK_INTERVAL_MS) {
      var due := FailedAt(ws, acts, j) + Wait(board.config, Failures(ws, acts, j) - 1);
      RetryTest(ws[j], board, acts[j]);
      if -TWO31 <= acts[j].retryMs - due < TWO31 {
        ReachedNear(acts[j].retryMs, due);
      }
    }
  }

  lemma RetryTest(w: World, board: Board, a: Action)
    requires Enabled(w, a) && a.Check? && w.dev.mgr.state == Backoff
    requires Elapsed(Wrap(a.ms), w.dev.mgr.lastCheck, CHECK_INTERVAL_MS)
    ensures Step(w, board, a).dev.mgr.state == Queued <==> Reached(Wrap(a.retryMs), w.dev.mgr.retryAt)
  {
    hide Elapsed, Reached;
  }

  // ----- Retried or left to the cloud -----

  // An InvSetup arrived among actions i..j-1.
  predicate Spoke(acts: seq<Action>, i: nat, j: nat)
    requires j <= |acts|
  {
    exists x :: i <= x < j && IsInvSetup(acts[x])
  }

  lemma FlagStep(w: World, board: Board, a: Action)
    requires Enabled(w, a) && InCycle(w) && InCycle(Step(w, board, a))
    ensures Step(w, board, a).dev.mgr.cloudBack == (w.dev.mgr.cloudBack || IsInvSetup(a))
  {
    if a.Cloud? {
      FlagCloud(w, board, a);
    } else {
      FlagOther(w, board, a);
    }
  }

  lemma FlagCloud(w: World, board: Board, a: Action)
    requires Enabled(w, a) && a.Cloud?
    ensures var m, m' := w.dev.mgr, Step(w, board, a).dev.mgr;
            && (InCycle(w) ==> m'.cloudBack == (m.cloudBack || IsInvSetup(a)) && m'.state in {m.state, Empty})
            && (!InCycle(w) ==> m'.cloudBack == m.cloudBack && m'.state !in {Queued, Executing})
            && (m.state == Executing ==> m'.state == Executing)
  {
    hide Step, IsInvSetup;
    CloudEffectOf(w, board, a);
  }

  lemma FlagOther(w: World, board: Board, a: Action)
    requires Enabled(w, a) && !a.Cloud?
    ensures var m, m' := w.dev.mgr, Step(w, board, a).dev.mgr;
            m'.cloudBack ==> m.cloudBack && (InCycle(w) ==> InCycle(Step(w, board, a)) || a.Result?)
    ensures var m, m' := w.dev.mgr, Step(w, board, a).dev.mgr;
            InCycle(w) && InCycle(Step(w, board, a)) ==> m'.cloudBack == m.cloudBack
    ensures var m' := Step(w, board, a).dev.mgr;
            a.Result? && m'.cloudBack && InCycle(w) ==> m'.state in {Queued, w.dev.mgr.state}
  {
    hide Polled, PersistTurned, Loaded, LoadedSome, Started, NextKey, Due, Reached, Elapsed,
         ResultStored, ResponseFor;
    ResultStoredKeeps(w.dev.mgr, w.dev.exec.header.lines, board.codec, if a.Result? then a.io else ALL_WELL);
  }

  // During a cycle the flag says: set already at the trigger, or an InvSetup came since.
  lemma {:induction false} FlagDuring(board: Board, ws: seq<World>, acts: seq<Action>, i: nat, j: nat)
    requires Behaviour(board, ws, acts) && i <= j <= |acts|
    requires forall x :: i <= x <= j ==> InCycle(ws[x])
    ensures ws[j].dev.mgr.cloudBack <==> ws[i].dev.mgr.cloudBack || Spoke(acts, i, j)
    decreases j
  {
    hide Step, Enabled, Boot, IsInvSetup;
    if j > i {
      FlagDuring(board, ws, acts, i, j - 1);
      assert ws[j] == Step(ws[j - 1], board, acts[j - 1]);
      FlagStep(ws[j - 1], board, acts[j - 1]);
    }
  }

  // The step that ends a cycle with sets left over goes to BACKOFF exactly when the flag is down.
  lemma CycleEnds(w: World, board: Board, a: Action)
    requires Joint(w) && Enabled(w, a) && a.Result? && InCycle(w)
    requires Step(w, board, a).dev.mgr.state in {Armed, Backoff}
    ensures Step(w, board, a).dev.mgr.state == Backoff <==> !w.dev.mgr.cloudBack
  {
    hide ResultStored, Shape, StoreOk, RunIsCurrent, ResponseFor, Less;
    ResultStoredKeeps(w.dev.mgr, w.dev.exec.header.lines, board.codec, a.io);
  }

  // Only a result or a dispatch ends a cycle with sets left over.
  lemma CycleExit(w: World, board: Board, a: Action)
    requires Joint(w) && Enabled(w, a) && InCycle(w) && !a.Reboot?
    requires Step(w, board, a).dev.mgr.state in {Armed, Backoff}
    ensures a.Result? || a.Dispatch?
    ensures a.Dispatch? ==> Step(w, board, a).dev.mgr.state == Armed
  {
    hide Polled, PersistTurned, Started, NextKey, Due, Reached, Elapsed, ResultHandled, ResponseFor, FieldsHandled,
         RequestOf, Joint, IsInvSetup;
    if a.Cloud? {
      FlagCloud(w, board, a);
    }
  }

  // A dispatch ends a cycle exactly when the walk is under way and no stored key lies ahead of it;
  // it leaves every stored set behind, unsent or unanswered.
  lemma DispatchExit(w: World, board: Board, a: Action)
    requires Joint(w) && Enabled(w, a) && InCycle(w) && a.Dispatch?
    ensures var m, m' := w.dev.mgr, Step(w, board, a).dev.mgr;
            && (!InCycle(Step(w, board, a)) <==>
                  m.state == Queued && !Busy(w.dev.exec) && !m.walkFromStart
                  && Above(m.store.sets.Keys, m.currentKey) == {})
            && (!InCycle(Step(w, board, a)) ==> m'.state == Armed && m'.store == m.store && m.store.sets != map[])
  {
    hide Started, Shape, StoreOk, RunIsCurrent, Less;
  }

  // A cycle that leaves sets undelivered is retried exactly when a result ended it, no InvSetup came
  // during it and the flag was not left over from an earlier one. The documented rule names only
  // the second condition; it describes the device exactly when an InvSetup does come or the other
  // two hold.
  lemma RetriedExactly(board: Board, ws: seq<World>, acts: seq<Action>, i: nat, j: nat)
    requires Behaviour(board, ws, acts) && i < j < |acts| && TriggeredAt(ws, acts, i)
    requires forall x :: i < x <= j ==> InCycle(ws[x]) && !acts[x].Reboot?
    requires ws[j + 1].dev.mgr.state == Armed || ws[j + 1].dev.mgr.state == Backoff
    ensures ws[j + 1].dev.mgr.state == Backoff <==>
            acts[j].Result? && !Spoke(acts, i + 1, j) && !ws[i + 1].dev.mgr.cloudBack
    ensures (ws[j + 1].dev.mgr.state == Backoff <==> !Spoke(acts, i + 1, j)) <==>
            Spoke(acts, i + 1, j) || (acts[j].Result? && !ws[i + 1].dev.mgr.cloudBack)
    ensures !acts[j].Result? ==>
              acts[j].Dispatch? && Above(ws[j].dev.mgr.store.sets.Keys, ws[j].dev.mgr.currentKey) == {}
  {
    hide Step, Enabled, Boot, Spoke, Joint, Less;
    FlagDuring(board, ws, acts, i + 1, j);
    JointAlways(board, ws, acts, j);
    CycleExit(ws[j], board, acts[j]);
    if acts[j].Result? {
      CycleEnds(ws[j], board, acts[j]);
    } else {
      DispatchExit(ws[j], board, acts[j]);
    }
  }

  // ----- When passes are not interrupted -----

  // A waiting cycle begins its walk, or - between a result and its dispatch - has a key ahead.
  ghost predicate WalkGoesOn(m: Mgr, e: Exec, afterResult: bool) {
    m.state == Queued ==>
      m.walkFromStart || (afterResult && !Busy(e) && Above(m.store.sets.Keys, m.currentKey) != {})
  }

  lemma ResultGoesOn(w: World, board: Board, a: Action)
    requires Joint(w) && Enabled(w, a) && a.Result? && WalkGoesOn(w.dev.mgr, w.dev.exec, false)
    ensures var w' := Step(w, board, a); WalkGoesOn(w'.dev.mgr, w'.dev.exec, true)
  {
    hide ResultStored, ResponseFor, Shape, StoreOk, RunIsCurrent, Less;
    if FinishesRun(w, a) {
      StoredFewer(w.dev.mgr, w.dev.exec.header.lines, board.codec, a.io);
    }
  }

  lemma DispatchGoesOn(w: World, board: Board, a: Action)
    requires Joint(w) && Enabled(w, a) && a.Dispatch? && WalkGoesOn(w.dev.mgr, w.dev.exec, true)
    ensures var w' := Step(w, board, a);
            WalkGoesOn(w'.dev.mgr, w'.dev.exec, false) && (InCycle(w) ==> InCycle(w'))
  {
    hide Started, Shape, StoreOk, RunIsCurrent, Less;
  }

  lemma CloudGoesOn(w: World, board: Board, a: Action)
    requires Enabled(w, a) && a.Cloud? && WalkGoesOn(w.dev.mgr, w.dev.exec, false)
    ensures var w' := Step(w, board, a); WalkGoesOn(w'.dev.mgr, w'.dev.exec, false)
  {
    hide Step, IsInvSetup;
    CloudEffectOf(w, board, a);
  }

  lemma OtherGoesOn(w: World, board: Board, a: Action)
    requires Enabled(w, a) && (a.Poll? || a.Check? || a.Toggle? || a.Reboot?)
    requires WalkGoesOn(w.dev.mgr, w.dev.exec, false)
    ensures var w' := Step(w, board, a); WalkGoesOn(w'.dev.mgr, w'.dev.exec, false)
  {
    hide Polled, PersistTurned, Loaded, LoadedSome, Due, Reached, Elapsed, Less;
  }

  lemma BootGoesOn(board: Board, w: World)
    requires exists nvs, switchOn, io :: w == Boot(board, nvs, switchOn, io)
    ensures WalkGoesOn(w.dev.mgr, w.dev.exec, false)
  {
    hide PersistTurned, Loaded, LoadedSome;
  }

  lemma RebootBoots(w: World, board: Board, a: Action)
    requires Enabled(w, a) && a.Reboot?
    ensures exists nvs, switchOn, io :: Step(w, board, a) == Boot(board, nvs, switchOn, io)
  {
    assert Step(w, board, a) == Boot(board, w.dev.mgr.store.nvs, a.switchOn, a.io);
  }

  lemma {:induction false} WalkGoesOnAlways(board: Board, ws: seq<World>, acts: seq<Action>, j: nat)
    requires Behaviour(board, ws, acts) && InPasses(acts) && j <= |acts|
    ensures WalkGoesOn(ws[j].dev.mgr, ws[j].dev.exec, j > 0 && acts[j - 1].Result?)
    decreases j
  {
    hide Step, Enabled, Boot, Joint, WalkGoesOn;
    if j == 0 {
      BootGoesOn(board, ws[0]);
    } else {
      var w, a := ws[j - 1], acts[j - 1];
      WalkGoesOnAlways(board, ws, acts, j - 1);
      JointAlways(board, ws, acts, j - 1);
      if j > 1 {
        assert FollowsAt(acts, j - 1);
      }
      match a
      case Cloud(_, _, _) => CloudGoesOn(w, board, a);
      case Result(_, _, _) => ResultGoesOn(w, board, a);
      case Dispatch(_) => DispatchGoesOn(w, board, a);
      case Poll(_, _, _) => OtherGoesOn(w, board, a);
      case Check(_, _, _) => OtherGoesOn(w, board, a);
      case Toggle(_, _) => OtherGoesOn(w, board, a);
      case Reboot(_, _) =>
        RebootBoots(w, board, a);
        BootGoesOn(board, ws[j]);
    }
  }

  // ----- Until it succeeds -----

  // The cloud empties the store.
  predicate Empties(a: Action, w': World) { BringsLines(a) && w'.dev.mgr.store.sets == map[] }

  // BACKOFF is left exactly by a check at which the moment of the retry has come, an InvSetup, a
  // message that empties the store, or a reboot.
  lemma BackoffLeft(w: World, board: Board, a: Action)
    requires Joint(w) && Enabled(w, a) && w.dev.mgr.state == Backoff
    ensures var w' := Step(w, board, a);
            var retries := a.Check? && Elapsed(Wrap(a.ms), w.dev.mgr.lastCheck, CHECK_INTERVAL_MS)
                           && Reached(Wrap(a.retryMs), w.dev.mgr.retryAt);
            && (w'.dev.mgr.state != Backoff <==> retries || IsInvSetup(a) || Empties(a, w') || a.Reboot?)
            && (retries ==> w'.dev.mgr.state == Queued)
            && (IsInvSetup(a) && !Empties(a, w') ==> w'.dev.mgr.state == Armed)
            && (Empties(a, w') ==> w'.dev.mgr.state == Empty)
  {
    hide Step, IsInvSetup, BringsLines;
    ActionKinds(a);
    if a.Cloud? {
      CloudStateOf(w, board, a);
    } else {
      BackoffOther(w, board, a);
    }
  }

  lemma ActionKinds(a: Action)
    ensures IsInvSetup(a) || BringsLines(a) ==> a.Cloud?
  {}

  lemma BackoffOther(w: World, board: Board, a: Action)
    requires Joint(w) && Enabled(w, a) && w.dev.mgr.state == Backoff && !a.Cloud?
    ensures var m' := Step(w, board, a).dev.mgr;
            var retries := a.Check? && Elapsed(Wrap(a.ms), w.dev.mgr.lastCheck, CHECK_INTERVAL_MS)
                           && Reached(Wrap(a.retryMs), w.dev.mgr.retryAt);
            (m'.state != Backoff <==> retries || a.Reboot?) && (retries ==> m'.state == Queued)
  {
    hide Polled, PersistTurned, Loaded, LoadedSome, Started, NextKey, Due, Reached, Elapsed, ResponseFor, Shape,
         StoreOk, RunIsCurrent;
  }

  // The flag is never up in BACKOFF.
  lemma {:induction false} BackoffFlagDown(board: Board, ws: seq<World>, acts: seq<Action>, j: nat)
    requires Behaviour(board, ws, acts) && j <= |acts|
    ensures ws[j].dev.mgr.state == Backoff ==> !ws[j].dev.mgr.cloudBack
  {
    hide Step, Enabled, Boot, Joint, IsInvSetup;
    if j == 0 {
      BootFlagDown(board, ws[0]);
    } else {
      BackoffFlagDown(board, ws, acts, j - 1);
      JointAlways(board, ws, acts, j - 1);
      assert ws[j] == Step(ws[j - 1], board, acts[j - 1]);
      if acts[j - 1].Cloud? {
        CloudEffectOf(ws[j - 1], board, acts[j - 1]);
      } else {
        BackoffFlagStep(ws[j - 1], board, acts[j - 1]);
      }
    }
  }

  lemma BootFlagDown(board: Board, w: World)
    requires exists nvs, switchOn, io :: w == Boot(board, nvs, switchOn, io)
    ensures !w.dev.mgr.cloudBack
  {
    hide PersistTurned, Loaded, LoadedSome;
  }

  lemma BackoffFlagStep(w: World, board: Board, a: Action)
    requires Joint(w) && Enabled(w, a) && !a.Cloud? && (w.dev.mgr.state == Backoff ==> !w.dev.mgr.cloudBack)
    ensures var m' := Step(w, board, a).dev.mgr; m'.state == Backoff ==> !m'.cloudBack
  {
    hide Polled, PersistTurned, Loaded, LoadedSome, Started, NextKey, Due, Reached, Elapsed, ResponseFor, ResultStored,
         Shape, StoreOk, RunIsCurrent, Less;
  }

  ghost predicate Retrying(m: Mgr) { m.state in {Queued, Executing, Backoff} && !m.cloudBack }

  lemma RetryingStep(w: World, board: Board, a: Action)
    requires Joint(w) && Enabled(w, a) && Retrying(w.dev.mgr) && !a.Reboot? && !IsInvSetup(a)
    requires var w' := Step(w, board, a);
             && !Completes(w, a, w') && !Empties(a, w')
             && (a.Dispatch? && InCycle(w) ==> InCycle(w'))
    ensures Retrying(Step(w, board, a).dev.mgr)
  {
    hide Step, IsInvSetup, BringsLines, Joint;
    if a.Cloud? {
      CloudStateOf(w, board, a);
      CloudEffectOf(w, board, a);
    } else {
      RetryingOther(w, board, a);
    }
  }

  lemma RetryingOther(w: World, board: Board, a: Action)
    requires Joint(w) && Enabled(w, a) && Retrying(w.dev.mgr) && !a.Reboot? && !a.Cloud?
    requires var w' := Step(w, board, a); !Completes(w, a, w') && (a.Dispatch? && InCycle(w) ==> InCycle(w'))
    ensures Retrying(Step(w, board, a).dev.mgr)
  {
    hide Polled, PersistTurned, Started, NextKey, Due, Reached, Elapsed, ResponseFor, ResultStored, Shape, StoreOk,
         RunIsCurrent, Less;
    ResultStoredKeeps(w.dev.mgr, w.dev.exec.header.lines, board.codec, if a.Result? then a.io else ALL_WELL);
  }

  // From a backoff on the device keeps retrying - it waits, or a cycle runs - until everything is
  // delivered, an InvSetup comes, the cloud empties the store, or it reboots.
  lemma {:induction false} RetriesUntil(board: Board, ws: seq<World>, acts: seq<Action>, i: nat, j: nat)
    requires Behaviour(board, ws, acts) && InPasses(acts) && i <= j <= |acts| && ws[i].dev.mgr.state == Backoff
    requires forall x :: i <= x < j ==> !IsInvSetup(acts[x]) && !acts[x].Reboot?
    requires forall x :: i <= x < j ==> !Completes(ws[x], acts[x], ws[x + 1]) && !Empties(acts[x], ws[x + 1])
    ensures Retrying(ws[j].dev.mgr)
    decreases j
  {
    hide Step, Enabled, Boot, Joint, IsInvSetup, Completes, Empties, WalkGoesOn;
    if i == j {
      BackoffFlagDown(board, ws, acts, i);
    } else {
      RetriesUntil(board, ws, acts, i, j - 1);
      JointAlways(board, ws, acts, j - 1);
      assert ws[j] == Step(ws[j - 1], board, acts[j - 1]);
      if acts[j - 1].Dispatch? {
        WalkGoesOnAlways(board, ws, acts, j - 1);
        if j > 1 {
          assert FollowsAt(acts, j - 1);
        }
        DispatchGoesOn(ws[j - 1], board, acts[j - 1]);
      }
      RetryingStep(ws[j - 1], board, acts[j - 1]);
    }
  }

  // ----- The end of a cycle when passes are not interrupted -----

  // As long as no message comes between a result and its dispatch, only a result ends a cycle with
  // sets left, and then the flag alone decides.
  lemma RetriedInPasses(board: Board, ws: seq<World>, acts: seq<Action>, i: nat, j: nat)
    requires Behaviour(board, ws, acts) && InPasses(acts) && i < j < |acts| && TriggeredAt(ws, acts, i)
    requires forall x :: i < x <= j ==> InCycle(ws[x]) && !acts[x].Reboot?
    requires ws[j + 1].dev.mgr.state == Armed || ws[j + 1].dev.mgr.state == Backoff
    ensures acts[j].Result?
    ensures ws[j + 1].dev.mgr.state == Backoff <==> !Spoke(acts, i + 1, j) && !ws[i + 1].dev.mgr.cloudBack
  {
    hide Step, Enabled, Boot, Spoke, Joint, WalkGoesOn;
    RetriedExactly(board, ws, acts, i, j);
    JointAlways(board, ws, acts, j);
    WalkGoesOnAlways(board, ws, acts, j);
    assert FollowsAt(acts, j);
    if acts[j].Dispatch? {
      DispatchGoesOn(ws[j], board, acts[j]);
    }
  }

  // The flag outlives a cycle in one way only: the cloud empties the store while the cycle waits
  // for the bus.
  lemma FlagLeftOver(w: World, board: Board, a: Action)
    requires Joint(w) && Enabled(w, a)
    requires Step(w, board, a).dev.mgr.cloudBack && !InCycle(Step(w, board, a))
    ensures (w.dev.mgr.cloudBack && !InCycle(w)) ||
            (a.Cloud? && w.dev.mgr.state == Queued && Step(w, board, a).dev.mgr.state == Empty)
  {
    hide Step, Enabled, Joint;
    if a.Cloud? {
      FlagCloud(w, board, a);
    } else {
      FlagOther(w, board, a);
    }
  }
}
