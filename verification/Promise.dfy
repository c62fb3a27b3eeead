// The promise of the component: when the cloud falls silent, every stored set goes on the bus in time.

module Promise {

  import opened Options
  import opened Keys
  import opened Protocol
  import opened Batches
  import opened Stores
  import opened Manager
  import opened Dongle
  import opened System
  import opened Cycle
  import opened Gaps
  import opened Progress
  import opened CycleEnd
  import opened Deadlines
  import opened Waiting

  // From a to n no message is taken and nothing reboots.
  predicate Silent(acts: seq<Action>, a: nat, n: nat)
    requires a <= n <= |acts|
  {
    forall x :: a <= x < n ==> !FillsSlot(acts[x]) && !acts[x].Reboot?
  }

  // ----- In silence sets only ever go -----

  ghost predicate Within(sets': Sets, sets: Sets) {
    forall k :: k in sets' ==> k in sets && sets'[k] == sets[k]
  }

  lemma SilentStore(w: World, board: Board, a: Action)
    requires Enabled(w, a) && !FillsSlot(a) && !a.Reboot?
    ensures Within(Step(w, board, a).dev.mgr.store.sets, w.dev.mgr.store.sets)
  {
    hide Step, RequestOf, Synced, Delivered, Revision, PersistTurned;
    if a.Cloud? {
      CloudStore(w, board, a);
    } else if a.Result? {
      ResultStore(w, board, a);
      SyncedOk(Removed(w.dev.mgr.store, w.dev.mgr.currentKey), board.codec, a.io);
    } else if a.Toggle? {
      ToggleStore(w, board, a);
      ToggleKeepsSets(w.dev.mgr.store, a.on, board.codec, a.io);
    } else {
      QuietStore(w, board, a);
    }
  }

  lemma {:induction false} SilentStores(board: Board, ws: seq<World>, acts: seq<Action>, a: nat, n: nat)
    requires Behaviour(board, ws, acts) && a <= n <= |acts| && Silent(acts, a, n)
    ensures Within(ws[n].dev.mgr.store.sets, ws[a].dev.mgr.store.sets)
    decreases n
  {
    hide Step, Enabled, Boot, FillsSlot;
    if a < n {
      SilentStores(board, ws, acts, a, n - 1);
      assert ws[n] == Step(ws[n - 1], board, acts[n - 1]);
      SilentStore(ws[n - 1], board, acts[n - 1]);
    }
  }

  // An armed device gives none of them away.
  lemma {:induction false} ArmedStores(board: Board, ws: seq<World>, acts: seq<Action>, a: nat, n: nat)
    requires Behaviour(board, ws, acts) && a <= n < |acts| && Silent(acts, a, n + 1)
    requires forall x :: a <= x <= n ==> ws[x].dev.mgr.state == Armed
    ensures ws[n + 1].dev.mgr.store.sets == ws[a].dev.mgr.store.sets
    decreases n
  {
    hide Step, Enabled, Boot, Joint, FillsSlot;
    if a < n {
      ArmedStores(board, ws, acts, a, n - 1);
    }
    JointAlways(board, ws, acts, n);
    assert ws[n + 1] == Step(ws[n], board, acts[n]);
    OutsideCycle(ws[n], board, acts[n]);
  }

  lemma {:induction false} NothingCleared(ws: seq<World>, acts: seq<Action>, i: nat, j: nat)
    requires i <= j <= |acts| < |ws| && Silent(acts, i, j)
    ensures ClearedUnrun(ws, acts, i, j) == {}
    decreases j
  {
    hide RequestOf, Ran;
    if i < j {
      NothingCleared(ws, acts, i, j - 1);
      assert !FillsSlot(acts[j - 1]);
    }
  }

  lemma {:induction false} RanAt(ws: seq<World>, acts: seq<Action>, i: nat, j: nat, k: string) returns (y: nat)
    requires i <= j <= |acts| < |ws| && k in Ran(ws, acts, i, j)
    ensures i <= y < j && StartedKey(ws[y], acts[y]) == [k]
    decreases j
  {
    hide NextKey;
    if k in Ran(ws, acts, i, j - 1) {
      y := RanAt(ws, acts, i, j - 1, k);
    } else {
      y := j - 1;
    }
  }

  lemma {:induction false} FirstExit(ws: seq<World>, i: nat, n: nat) returns (x: nat)
    requires i < n < |ws| && InCycle(ws[i]) && exists y :: i < y <= n && !InCycle(ws[y])
    ensures i < x <= n && !InCycle(ws[x]) && forall y :: i <= y < x ==> InCycle(ws[y])
    decreases n
  {
    hide InCycle;
    if y :| i < y <= n - 1 && !InCycle(ws[y]) {
      x := FirstExit(ws, i, n - 1);
    } else {
      x := n;
    }
  }

  // ----- The promise -----

  // The set is put on the bus at y, with the lines it was stored with.
  ghost predicate SentAsStored(ws: seq<World>, acts: seq<Action>, y: nat, k: string, lines: seq<Line>)
    requires y < |acts| < |ws|
  {
    && StartedKey(ws[y], acts[y]) == [k]
    && ToStart(ws[y].dev).Some? && ToStart(ws[y].dev).value.emergency && ToStart(ws[y].dev).value.lines == lines
  }

  // Somewhere after j and before n it is.
  ghost predicate SentBetween(ws: seq<World>, acts: seq<Action>, j: nat, n: nat, k: string, lines: seq<Line>)
    requires j < n <= |acts| < |ws|
  {
    exists y :: j < y < n && SentAsStored(ws, acts, y, k, lines)
  }

  // Each of the sets is.
  ghost predicate AllSent(ws: seq<World>, acts: seq<Action>, j: nat, n: nat, sets: Sets)
    requires j < n <= |acts| < |ws|
  {
    forall k :: k in sets ==> SentBetween(ws, acts, j, n, k, sets[k])
  }

  lemma StartedIsStored(w: World, a: Action, k: string)
    requires StartedKey(w, a) == [k]
    ensures k in w.dev.mgr.store.sets && ToStart(w.dev) == Some(RunHeader(k, w.dev.mgr.store.sets[k]))
  {
    hide Next;
  }

  // Once a cycle has begun and the cloud is silent, every set stored at its trigger has been on the
  // bus when so many prompt passes have gone by.
  lemma CycleSends(board: Board, ws: seq<World>, acts: seq<Action>, j: nat, n: nat)
    requires Behaviour(board, ws, acts) && UptimeFlows(acts) && GapsFit(board.settings) && InPasses(acts)
    requires j < n <= |acts| && TriggeredAt(ws, acts, j)
    requires Silent(acts, j + 1, n)
    requires forall x :: j < x < n ==> PromptAt(board, ws, acts, x)
    ensures Polls(acts, j + 1, n) >
              PassesFor(|ws[j + 1].dev.mgr.store.sets.Keys|, board.settings) + EffortAt(board, ws, acts, j + 1)
            ==> AllSent(ws, acts, j, n, ws[j + 1].dev.mgr.store.sets)
  {
    hide Step, Enabled, Boot, PromptAt, InCycle, TriggeredAt, PassesFor, EffortAt, FillsSlot, StartedKey, SentAsStored,
         AddsKey, ClearedUnrun, Ran;
    IsTrigger(ws, acts, j);
    forall x | j < x < n ensures !AddsKey(ws[x], acts[x]) {
      SilentAddsNothing(ws[x], acts[x]);
    }
    CycleOver(board, ws, acts, j, n);
    if exists x :: j + 1 < x <= n && !InCycle(ws[x]) {
      var x := FirstExit(ws, j + 1, n);
      CycleCommitted(board, ws, acts, j, x - 1);
      NothingCleared(ws, acts, j + 1, x);
      var sets := ws[j + 1].dev.mgr.store.sets;
      forall k | k in sets
        ensures SentBetween(ws, acts, j, n, k, sets[k])
      {
        var y := RanAt(ws, acts, j + 1, x, k);
        SilentStores(board, ws, acts, j + 1, y);
        StartedIsStored(ws[y], acts[y], k);
        SentWhole(ws, acts, y, k, sets);
      }
    }
  }

  lemma SentWhole(ws: seq<World>, acts: seq<Action>, y: nat, k: string, sets: Sets)
    requires y < |acts| < |ws| && StartedKey(ws[y], acts[y]) == [k]
    requires k in ws[y].dev.mgr.store.sets && Within(ws[y].dev.mgr.store.sets, sets)
    requires ToStart(ws[y].dev) == Some(RunHeader(k, ws[y].dev.mgr.store.sets[k]))
    ensures k in sets && SentAsStored(ws, acts, y, k, sets[k])
  {
    hide ToStart, StartedKey;
  }

  lemma SilentAddsNothing(w: World, a: Action)
    requires !FillsSlot(a)
    ensures !AddsKey(w, a)
  {
    hide RequestOf, Trim;
  }

  // A device is armed before the deadline of its stamp t, and the cloud is silent. At the first check
  // at or after DueFrom(t) - with checks at most d <= 60 seconds apart before DueFrom(t) + d - the
  // cycle is triggered, and when the passes of that cycle have gone by every set it held has been on
  // the bus, with the lines it was stored with.
  lemma SentInTime(board: Board, ws: seq<World>, acts: seq<Action>, a: nat, since: nat, j: nat, d: nat, n: nat)
    requires Behaviour(board, ws, acts) && UptimeFlows(acts) && GapsFit(board.settings) && InPasses(acts)
    requires a <= j < n <= |acts| && Waits(ws, acts, a, j) && Tests(ws[j], acts[j]) && Silent(acts, a, n)
    requires since < DueFrom(StampAt(ws, acts, a), board.config.minuteThreshold)
    requires board.config.minuteThreshold <= 58 && d <= 60 && ChecksWithin(ws, acts, a, since, j + 1, d)
    requires forall x :: j < x < n ==> PromptAt(board, ws, acts, x)
    ensures acts[j].Check?
    ensures var due := DueFrom(StampAt(ws, acts, a), board.config.minuteThreshold);
            due <= acts[j].wall.seconds ==>
              && acts[j].wall.seconds < due + d && ws[j + 1].dev.mgr.state == Queued
              && (Polls(acts, j + 1, n) >
                    PassesFor(|ws[a].dev.mgr.store.sets.Keys|, board.settings) + EffortAt(board, ws, acts, j + 1)
                  ==> AllSent(ws, acts, j, n, ws[a].dev.mgr.store.sets))
  {
    hide Step, Enabled, Boot, PromptAt, PassesFor, EffortAt, FillsSlot, AllSent, Tests, ChecksWithin, Due, StampAt,
         AwaitsAt, TopOfHour;
    FiresExactly(board, ws, acts, a, since, j, d);
    if DueFrom(StampAt(ws, acts, a), board.config.minuteThreshold) <= acts[j].wall.seconds {
      ArmedStores(board, ws, acts, a, j);
      CycleSends(board, ws, acts, j, n);
    }
  }
}
