// The coalescing settings writer: any number of savers hand their snapshot to
// one slot, one worker writes the newest, and shutdown drains the slot and joins
// the worker.
module SaveWorker {
  import opened Wrappers

  // The settings at one moment; every setter makes a new version of them.
  datatype Snapshot = Snapshot(path: string, text: string, version: nat)

  // `settings_save_async` by its atomic steps: it clones the settings, then keeps
  // the handle locked from the hand-off to the spawn.
  datatype Saver = Snapped(snapshot: Snapshot) | Locked(snapshot: Snapshot) | HandedOff(queued: bool) | Saved

  datatype Worker = Unborn | Waiting | Writing(index: nat) | Exited

  // `settings_shutdown_save_worker`.
  datatype Stopper = Begin | AwaitHandle | Joining | Returned

  // `slot`, `writes` and `Writing` name snapshots by their place in `accepted`,
  // the order in which the mailbox took them. `setter` is the shutdown call
  // that set `stop`. `settings` is the shared state a saver clones. The other writer
  // of the file is in `SettingsDisk`.
  datatype Sys = Sys(
    settings: Snapshot, accepted: seq<Snapshot>, slot: Option<nat>, stop: bool, started: bool,
    lock: Option<nat>, handle: bool, worker: Worker, writes: seq<nat>,
    savers: map<nat, Saver>, stoppers: map<nat, Stopper>, setter: Option<nat>)

  datatype Step =
    | Init(path: string)
    | Change(text: string)
    | CallSave(saver: nat)
    | SaverStep(saver: nat)
    | WorkerStep
    | CallShutdown(stopper: nat)
    | StopperStep(stopper: nat)

  function Initial(): Sys {
    Sys(Snapshot("", "", 0), [], None, false, false, None, false, Unborn, [], map[], map[], None)
  }

  function AdvanceSaver(s: Sys, id: nat): Sys
    requires id in s.savers
  {
    match s.savers[id]
    case Snapped(snapshot) =>
      if s.lock.Some? then s.(started := true)
      else s.(started := true, lock := Some(id), savers := s.savers[id := Locked(snapshot)])
    case Locked(snapshot) =>
      if s.stop then s.(savers := s.savers[id := HandedOff(false)])
      else s.(accepted := s.accepted + [snapshot], slot := Some(|s.accepted|), savers := s.savers[id := HandedOff(true)])
    case HandedOff(queued) =>
      var s1 := s.(savers := s.savers[id := Saved], lock := None);
      if queued && !s.handle then s1.(handle := true, worker := Waiting) else s1
    case Saved => s
  }

  function AdvanceWorker(s: Sys): Sys {
    match s.worker
    case Waiting =>
      if s.slot.Some? then s.(worker := Writing(s.slot.value), slot := None)
      else if s.stop then s.(worker := Exited)
      else s
    case Writing(index) => s.(worker := Waiting, writes := s.writes + [index])
    case _ => s
  }

  function AdvanceStopper(s: Sys, id: nat): Sys
    requires id in s.stoppers
  {
    match s.stoppers[id]
    case Begin =>
      if !s.started || s.stop then s.(stoppers := s.stoppers[id := Returned])
      else s.(stop := true, setter := Some(id), stoppers := s.stoppers[id := AwaitHandle])
    case AwaitHandle =>
      if s.lock.Some? then s
      else s.(handle := false, stoppers := s.stoppers[id := if s.handle then Joining else Returned])
    case Joining => if s.worker.Exited? then s.(stoppers := s.stoppers[id := Returned]) else s
    case Returned => s
  }

  function Next(s: Sys, step: Step): Sys {
    match step
    // A path once set stays.
    case Init(path) => if s.settings.path == "" then s.(settings := s.settings.(path := path)) else s
    case Change(text) => s.(settings := Snapshot(s.settings.path, text, s.settings.version + 1))
    case CallSave(id) =>
      if id !in s.savers || s.savers[id].Saved? then s.(savers := s.savers[id := Snapped(s.settings)]) else s
    case SaverStep(id) => if id in s.savers then AdvanceSaver(s, id) else s
    case WorkerStep => AdvanceWorker(s)
    // A call is one call: its identity is not used again.
    case CallShutdown(id) => if id !in s.stoppers then s.(stoppers := s.stoppers[id := Begin]) else s
    case StopperStep(id) => if id in s.stoppers then AdvanceStopper(s, id) else s
  }

  function Run(s: Sys, steps: seq<Step>): Sys
    decreases |steps|
  {
    if steps == [] then s else Next(Run(s, steps[..|steps| - 1]), steps[|steps| - 1])
  }

  // ----- invariant -----

  ghost predicate Increasing(xs: seq<nat>, below: nat) {
    && (forall i, j | 0 <= i < j < |xs| :: xs[i] < xs[j])
    && (forall i | 0 <= i < |xs| :: xs[i] < below)
  }

  // The newest snapshot is waiting, being written, or written last.
  ghost predicate NewestKept(s: Sys) {
    |s.accepted| > 0 ==>
      var newest := |s.accepted| - 1;
      || s.slot == Some(newest)
      || s.worker == Writing(newest)
      || (|s.writes| > 0 && s.writes[|s.writes| - 1] == newest)
  }

  ghost predicate OrderInv(s: Sys) {
    && (s.slot.Some? ==> s.slot.value == |s.accepted| - 1)
    && Increasing(s.writes, |s.accepted|)
    && (s.worker.Writing? ==> s.worker.index < |s.accepted| && Increasing(s.writes, s.worker.index))
    && (s.slot.Some? ==> Increasing(s.writes, s.slot.value) && (s.worker.Writing? ==> s.worker.index < s.slot.value))
    && NewestKept(s)
  }

  predicate Alive(w: Worker) {
    w.Waiting? || w.Writing?
  }

  // A saver past the lock holds it.
  ghost predicate LockInv(s: Sys) {
    && (forall id | id in s.savers && (s.savers[id].Locked? || s.savers[id].HandedOff?) :: s.lock == Some(id))
    && (s.lock.Some? ==> s.lock.value in s.savers && (s.savers[s.lock.value].Locked? || s.savers[s.lock.value].HandedOff?))
  }

  // The lock's holder is about to spawn the worker its snapshot needs.
  predicate Spawning(s: Sys) {
    s.lock.Some? && s.lock.value in s.savers && s.savers[s.lock.value] == HandedOff(true) && !s.handle
  }

  ghost predicate StopInv(s: Sys) {
    && (forall id | id in s.stoppers && (s.stoppers[id].AwaitHandle? || s.stoppers[id].Joining?) :: s.setter == Some(id))
    && (s.stop <==> s.setter.Some?)
    && (s.stop ==> s.started && s.setter.value in s.stoppers && !s.stoppers[s.setter.value].Begin?)
    && (s.handle ==> Alive(s.worker) || (s.worker.Exited? && s.stop))
    && (Alive(s.worker) && !s.handle ==> s.stop && s.stoppers[s.setter.value].Joining?)
    && (s.worker.Exited? ==> s.stop && s.slot.None?)
    && (s.slot.Some? ==> Alive(s.worker) || Spawning(s))
    && (s.worker.Unborn? ==> s.writes == [])
    && (s.worker.Exited? ==> !Spawning(s))
    && (s.stop && (s.stoppers[s.setter.value].Joining? || s.stoppers[s.setter.value].Returned?) ==> !s.handle && !Spawning(s))
    && (s.stop && s.stoppers[s.setter.value].Joining? ==> !s.worker.Unborn?)
    && (s.stop && s.stoppers[s.setter.value].Returned? ==> Quiet(s))
  }

  // Nothing waits, nothing runs, and the last thing written is the newest
  // snapshot the mailbox took.
  ghost predicate Quiet(s: Sys) {
    && s.slot.None?
    && !Alive(s.worker)
    && (|s.accepted| > 0 ==> |s.writes| > 0 && s.writes[|s.writes| - 1] == |s.accepted| - 1)
  }

  ghost predicate Inv(s: Sys) {
    OrderInv(s) && LockInv(s) && StopInv(s)
  }

  lemma {:induction false} IncreasingGrows(xs: seq<nat>, below: nat, more: nat)
    requires Increasing(xs, below) && below <= more
    ensures Increasing(xs, more)
  {
  }

  // A worker is spawned only where none runs.
  lemma {:induction false} SpawnsOnlyOne(s: Sys, id: nat)
    requires Inv(s) && id in s.savers && s.savers[id] == HandedOff(true) && !s.handle
    ensures !Alive(s.worker)
  {
    assert Spawning(s);
  }

  lemma {:induction false} SaverKeepsOrder(s: Sys, id: nat)
    requires Inv(s) && id in s.savers
    ensures OrderInv(AdvanceSaver(s, id))
  {
    match s.savers[id]
    case Snapped(_) =>
    case Locked(_) => HandOffKeepsOrder(s, id);
    case HandedOff(queued) => if queued && !s.handle { SpawnsOnlyOne(s, id); }
    case Saved =>
  }

  lemma {:induction false} HandOffKeepsOrder(s: Sys, id: nat)
    requires OrderInv(s) && id in s.savers && s.savers[id].Locked?
    ensures OrderInv(AdvanceSaver(s, id))
  {
    IncreasingGrows(s.writes, |s.accepted|, |s.accepted| + 1);
  }

  lemma {:induction false} SaverKeepsLock(s: Sys, id: nat)
    requires LockInv(s) && id in s.savers
    ensures LockInv(AdvanceSaver(s, id))
  {
  }

  lemma {:induction false} SaverKeepsStop(s: Sys, id: nat)
    requires LockInv(s) && StopInv(s) && id in s.savers
    ensures StopInv(AdvanceSaver(s, id))
  {
  }

  lemma {:induction false} SaverKeeps(s: Sys, id: nat)
    requires Inv(s) && id in s.savers
    ensures Inv(AdvanceSaver(s, id))
  {
    SaverKeepsOrder(s, id);
    SaverKeepsLock(s, id);
    SaverKeepsStop(s, id);
  }

  lemma {:induction false} IncreasingPush(xs: seq<nat>, x: nat, below: nat)
    requires Increasing(xs, x) && x < below
    ensures Increasing(xs + [x], below)
  {
  }

  lemma {:induction false} WorkerKeepsOrder(s: Sys)
    requires OrderInv(s)
    ensures OrderInv(AdvanceWorker(s))
  {
    if s.worker.Writing? {
      IncreasingPush(s.writes, s.worker.index, |s.accepted|);
      if s.slot.Some? {
        IncreasingPush(s.writes, s.worker.index, s.slot.value);
      }
    }
  }

  lemma {:induction false} WorkerKeepsStop(s: Sys)
    requires LockInv(s) && StopInv(s)
    ensures LockInv(AdvanceWorker(s)) && StopInv(AdvanceWorker(s))
  {
  }

  lemma {:induction false} WorkerKeeps(s: Sys)
    requires Inv(s)
    ensures Inv(AdvanceWorker(s))
  {
    WorkerKeepsOrder(s);
    WorkerKeepsStop(s);
  }

  lemma {:induction false} StopperKeepsStop(s: Sys, id: nat)
    requires LockInv(s) && StopInv(s) && OrderInv(s) && id in s.stoppers
    ensures StopInv(AdvanceStopper(s, id))
  {
  }

  lemma {:induction false} StopperLeaves(s: Sys, id: nat)
    requires id in s.stoppers
    ensures var s1 := AdvanceStopper(s, id);
      && s1.settings == s.settings && s1.accepted == s.accepted && s1.slot == s.slot && s1.worker == s.worker
      && s1.writes == s.writes && s1.savers == s.savers && s1.lock == s.lock
  {
    match s.stoppers[id]
    case Begin =>
    case AwaitHandle =>
    case Joining =>
    case Returned =>
  }

  lemma {:induction false} StopperKeeps(s: Sys, id: nat)
    requires Inv(s) && id in s.stoppers
    ensures Inv(AdvanceStopper(s, id))
  {
    StopperKeepsStop(s, id);
    StopperLeaves(s, id);
  }

  lemma {:induction false} CallKeeps(s: Sys, step: Step)
    requires Inv(s) && (step.Init? || step.Change? || step.CallSave? || step.CallShutdown?)
    ensures Inv(Next(s, step))
  {
  }

  lemma {:induction false} NextKeeps(s: Sys, step: Step)
    requires Inv(s)
    ensures Inv(Next(s, step))
  {
    match step
    case SaverStep(id) => if id in s.savers { SaverKeeps(s, id); }
    case WorkerStep => WorkerKeeps(s);
    case StopperStep(id) => if id in s.stoppers { StopperKeeps(s, id); }
    case _ => CallKeeps(s, step);
  }

  lemma {:induction false} RunKeeps(s: Sys, steps: seq<Step>)
    requires Inv(s)
    ensures Inv(Run(s, steps))
    decreases |steps|
  {
    if steps != [] {
      RunKeeps(s, steps[..|steps| - 1]);
      NextKeeps(Run(s, steps[..|steps| - 1]), steps[|steps| - 1]);
    }
  }

  // ----- results -----

  function Written(s: Sys): seq<Snapshot>
    requires forall k | 0 <= k < |s.writes| :: s.writes[k] < |s.accepted|
  {
    seq(|s.writes|, k requires 0 <= k < |s.writes| => s.accepted[s.writes[k]])
  }

  // The background writes are an in-order subsequence of the snapshots the
  // mailbox took, whatever the savers, the worker and shutdown do.
  lemma {:induction false} WritesAreASubsequence(steps: seq<Step>)
    ensures var s := Run(Initial(), steps);
      && Increasing(s.writes, |s.accepted|)
      && |Written(s)| == |s.writes|
      && forall k | 0 <= k < |s.writes| :: Written(s)[k] == s.accepted[s.writes[k]]
  {
    RunKeeps(Initial(), steps);
  }

  // While nobody stops it, the newest snapshot is never dropped: it waits, is
  // being written, or is the last one written.
  lemma {:induction false} NewestIsNeverDropped(steps: seq<Step>)
    ensures NewestKept(Run(Initial(), steps))
  {
    RunKeeps(Initial(), steps);
  }

  // When the shutdown call that set `stop` returns, the slot is empty, no worker
  // is running, and the last background write is the last snapshot accepted; and
  // so it stays, with nothing accepted or written after it.
  lemma {:induction false} ShutdownDrains(steps: seq<Step>, more: seq<Step>)
    requires Stopped(Run(Initial(), steps))
    ensures var s, s1 := Run(Initial(), steps), Run(Run(Initial(), steps), more);
      && Quiet(s)
      && Quiet(s1) && s1.accepted == s.accepted && s1.writes == s.writes
  {
    RunKeeps(Initial(), steps);
    StaysQuiet(Run(Initial(), steps), more);
  }

  // The shutdown call that set `stop` has returned.
  predicate Stopped(s: Sys) {
    s.stop && s.setter.Some? && s.setter.value in s.stoppers && s.stoppers[s.setter.value].Returned?
  }

  lemma {:induction false} StoppedStep(s: Sys, step: Step)
    requires Inv(s) && Stopped(s)
    ensures var s1 := Next(s, step); Stopped(s1) && s1.accepted == s.accepted && s1.writes == s.writes
  {
  }

  lemma {:induction false} StaysQuiet(s: Sys, steps: seq<Step>)
    requires Inv(s) && Stopped(s)
    ensures var s1 := Run(s, steps); Inv(s1) && Stopped(s1) && s1.accepted == s.accepted && s1.writes == s.writes
    decreases |steps|
  {
    if steps != [] {
      var before := steps[..|steps| - 1];
      StaysQuiet(s, before);
      NextKeeps(Run(s, before), steps[|steps| - 1]);
      StoppedStep(Run(s, before), steps[|steps| - 1]);
    }
  }

  function WorkerSteps(s: Sys, n: nat): Sys
    decreases n
  {
    if n == 0 then s else WorkerSteps(AdvanceWorker(s), n - 1)
  }

  // What a stopped worker still has to write.
  function Owed(s: Sys): seq<nat> {
    (if s.worker.Writing? then [s.worker.index] else []) + (if s.slot.Some? then [s.slot.value] else [])
  }

  lemma {:induction false} StoppedWorkerRunsOut(s: Sys, n: nat)
    requires s.stop && (Alive(s.worker) || (s.worker.Exited? && s.slot.None?))
    requires n >= 2 * |Owed(s)| + (if s.worker.Waiting? then 1 else 0)
    ensures var s1 := WorkerSteps(s, n);
      s1.worker.Exited? && s1.slot.None? && s1.stoppers == s.stoppers && s1.writes == s.writes + Owed(s)
    decreases n
  {
    if n > 0 {
      StoppedWorkerRunsOut(AdvanceWorker(s), n - 1);
    }
  }

  // The join never waits for ever: whatever the run before it, four steps of the
  // worker's own end it, with exactly what was in hand and queued written.
  lemma {:induction false} JoinEnds(steps: seq<Step>)
    requires var s := Run(Initial(), steps);
      s.setter.Some? && s.setter.value in s.stoppers && s.stoppers[s.setter.value].Joining?
    ensures var s := Run(Initial(), steps); var s1 := WorkerSteps(s, 4);
      && s1.worker.Exited? && s1.slot.None? && s1.stoppers == s.stoppers
      && AdvanceStopper(s1, s.setter.value).stoppers[s.setter.value].Returned?
      && s1.writes == s.writes + Owed(s)
  {
    RunKeeps(Initial(), steps);
    StoppedWorkerRunsOut(Run(Initial(), steps), 4);
  }

  // ----- the worker's loop, by what lands between its waits -----

  datatype Slot = Slot(data: Option<Snapshot>, stop: bool)

  datatype Update = Offered(snapshot: Snapshot) | StopSet

  datatype Result = Result(written: seq<Snapshot>, slot: Slot, ended: bool)

  function Landed(slot: Slot, updates: seq<Update>): Slot
    decreases |updates|
  {
    if updates == [] then slot
    else
      var next :=
        match updates[0]
        case Offered(snapshot) => if slot.stop then slot else slot.(data := Some(snapshot))
        case StopSet => slot.(stop := true);
      Landed(next, updates[1..])
  }

  function Looped(slot: Slot, rounds: seq<seq<Update>>): Result
    decreases |rounds|
  {
    if rounds == [] then Result([], slot, false)
    else
      var landed := Landed(slot, rounds[0]);
      if landed.data.Some? then
        var rest := Looped(landed.(data := None), rounds[1..]);
        rest.(written := [landed.data.value] + rest.written)
      else if landed.stop then Result([], landed, true)
      else Looped(landed, rounds[1..])
  }

  // The newest snapshot to land before the stop, in what was landed.
  function NewestLanded(slot: Slot, updates: seq<Update>): Option<Snapshot>
    decreases |updates|
  {
    if updates == [] || slot.stop then slot.data
    else
      match updates[0]
      case Offered(snapshot) => NewestLanded(slot.(data := Some(snapshot)), updates[1..])
      case StopSet => slot.data
  }

  lemma {:induction false} LandedKeepsTheNewest(slot: Slot, updates: seq<Update>)
    ensures Landed(slot, updates) == Slot(NewestLanded(slot, updates), slot.stop || StopSet in updates)
    decreases |updates|
  {
    if updates != [] {
      var next := if updates[0].StopSet? then slot.(stop := true) else if slot.stop then slot else slot.(data := Some(updates[0].snapshot));
      LandedKeepsTheNewest(next, updates[1..]);
    }
  }

  // The loop ends only stopped, with the slot empty: whatever was queued at the
  // stop was written first.
  lemma {:induction false} LoopEndsEmpty(slot: Slot, rounds: seq<seq<Update>>)
    ensures var result := Looped(slot, rounds);
      result.ended ==> result.slot == Slot(None, true)
    decreases |rounds|
  {
    if rounds != [] {
      var landed := Landed(slot, rounds[0]);
      if landed.data.Some? {
        LoopEndsEmpty(landed.(data := None), rounds[1..]);
      } else if !landed.stop {
        LoopEndsEmpty(landed, rounds[1..]);
      }
    }
  }

  // What is queued at the stop is written first: the worker never exits
  // with the slot full.
  lemma {:induction false} ExitFindsSlotEmpty(steps: seq<Step>)
    ensures var s := Run(Initial(), steps); s.worker.Exited? ==> s.stop && Quiet(s)
  {
    RunKeeps(Initial(), steps);
  }

  // ----- what each call comes to -----

  function SaverSteps(s: Sys, id: nat, n: nat): Sys
    decreases n
  {
    if n == 0 then s else SaverSteps(Next(s, SaverStep(id)), id, n - 1)
  }

  // A save that has cloned the settings and finds the lock free is over in three
  // steps. It hands its clone over exactly if nobody stopped the mailbox, and then
  // there is a worker to write it.
  lemma {:induction false} SaveReturns(steps: seq<Step>, id: nat)
    requires var s := Run(Initial(), steps); id in s.savers && s.savers[id].Snapped? && s.lock.None?
    ensures var s := Run(Initial(), steps); var s1 := SaverSteps(s, id, 3);
      && s1.savers == s.savers[id := Saved] && s1.lock.None? && s1.started
      && (if s.stop then s1.accepted == s.accepted && s1.slot == s.slot && s1.handle == s.handle && s1.worker == s.worker
          else
            && s1.accepted == s.accepted + [s.savers[id].snapshot] && s1.slot == Some(|s.accepted|)
            && s1.handle && s1.worker == if s.handle then s.worker else Waiting)
  {
    SaverComesTo(Run(Initial(), steps), id);
  }

  lemma {:induction false} SaverComesTo(s: Sys, id: nat)
    requires id in s.savers && s.savers[id].Snapped? && s.lock.None?
    ensures SaverSteps(s, id, 3) ==
      var s1 := s.(started := true, savers := s.savers[id := Saved]);
      if s.stop then s1
      else s1.(accepted := s.accepted + [s.savers[id].snapshot], slot := Some(|s.accepted|), handle := true,
               worker := if s.handle then s.worker else Waiting)
  {
    var snapshot := s.savers[id].snapshot;
    var locked := s.(started := true, lock := Some(id), savers := s.savers[id := Locked(snapshot)]);
    assert Next(s, SaverStep(id)) == locked;
    if s.stop {
      SaverLeaves(locked, id, locked.(savers := s.savers[id := HandedOff(false)]));
    } else {
      SaverLeaves(locked, id, locked.(accepted := s.accepted + [snapshot], slot := Some(|s.accepted|), savers := s.savers[id := HandedOff(true)]));
    }
    assert SaverSteps(s, id, 3) == SaverSteps(locked, id, 2);
  }

  lemma {:induction false} SaverLeaves(s: Sys, id: nat, handed: Sys)
    requires id in s.savers && handed == Next(s, SaverStep(id)) && id in handed.savers && handed.savers[id].HandedOff?
    ensures var s1 := handed.(savers := handed.savers[id := Saved], lock := None);
      SaverSteps(s, id, 2) == if handed.savers[id].queued && !handed.handle then s1.(handle := true, worker := Waiting) else s1
  {
    assert SaverSteps(s, id, 2) == SaverSteps(handed, id, 1);
    assert SaverSteps(handed, id, 1) == Next(handed, SaverStep(id));
  }

  // A save that waits for the lock has made the mailbox already, so a stop reaches it.
  lemma {:induction false} WaitingSaveStarts(s: Sys, id: nat)
    requires id in s.savers && s.savers[id].Snapped? && s.lock.Some?
    ensures Next(s, SaverStep(id)) == s.(started := true)
  {
  }

  // A shutdown call that finds no mailbox, or one that another call stopped, returns
  // at once and touches nothing. Otherwise, with the handle's lock free, two steps
  // of its own, four of the worker's and one more end it, with the worker gone and
  // everything in hand or queued written.
  lemma {:induction false} ShutdownReturns(steps: seq<Step>, id: nat)
    requires var s := Run(Initial(), steps); id in s.stoppers && s.stoppers[id].Begin? && s.lock.None?
    ensures var s := Run(Initial(), steps);
      if !s.started || s.stop then Next(s, StopperStep(id)) == s.(stoppers := s.stoppers[id := Returned])
      else
        var s1 := Next(Next(s, StopperStep(id)), StopperStep(id));
        var s2 := Next(WorkerSteps(s1, 4), StopperStep(id));
        && s2.stoppers == s.stoppers[id := Returned] && s2.stop && s2.setter == Some(id) && !s2.handle
        && s2.writes == s.writes + Owed(s) && s2.slot.None? && !Alive(s2.worker)
  {
    RunKeeps(Initial(), steps);
    var s := Run(Initial(), steps);
    if s.started && !s.stop {
      StopComesTo(s, id);
    }
  }

  lemma {:induction false} StopComesTo(s: Sys, id: nat)
    requires Inv(s) && id in s.stoppers && s.stoppers[id].Begin? && s.lock.None? && s.started && !s.stop
    ensures var s1 := Next(Next(s, StopperStep(id)), StopperStep(id));
      var s2 := Next(WorkerSteps(s1, 4), StopperStep(id));
      && s2.stoppers == s.stoppers[id := Returned] && s2.stop && s2.setter == Some(id) && !s2.handle
      && s2.writes == s.writes + Owed(s) && s2.slot.None? && !Alive(s2.worker)
  {
    var s0 := s.(stop := true, setter := Some(id), stoppers := s.stoppers[id := AwaitHandle]);
    assert Next(s, StopperStep(id)) == s0;
    var s1 := s0.(handle := false, stoppers := s.stoppers[id := if s.handle then Joining else Returned]);
    assert s0.stoppers[id := s1.stoppers[id]] == s1.stoppers;
    assert Next(s0, StopperStep(id)) == s1;
    assert !Spawning(s);
    if s.handle {
      StoppedWorkerRunsOut(s1, 4);
      WorkerStepsLeave(s1, 4);
    } else {
      IdleWorkerStays(s1, 4);
    }
  }

  lemma {:induction false} WorkerStepsLeave(s: Sys, n: nat)
    ensures var s1 := WorkerSteps(s, n);
      s1.stop == s.stop && s1.setter == s.setter && s1.handle == s.handle && s1.lock == s.lock && s1.stoppers == s.stoppers
    decreases n
  {
    if n > 0 {
      WorkerStepsLeave(AdvanceWorker(s), n - 1);
    }
  }

  lemma {:induction false} IdleWorkerStays(s: Sys, n: nat)
    requires !Alive(s.worker)
    ensures WorkerSteps(s, n) == s
    decreases n
  {
    if n > 0 {
      IdleWorkerStays(s, n - 1);
    }
  }

  // ----- the settings, off the steps alone -----

  function LastText(steps: seq<Step>): string
    decreases |steps|
  {
    if steps == [] then ""
    else
      match steps[|steps| - 1]
      case Change(text) => text
      case _ => LastText(steps[..|steps| - 1])
  }

  function FirstPath(steps: seq<Step>): string
    decreases |steps|
  {
    if steps == [] then ""
    else
      var before := FirstPath(steps[..|steps| - 1]);
      match steps[|steps| - 1]
      case Init(path) => if before == "" then path else before
      case _ => before
  }

  function Changes(steps: seq<Step>): nat
    decreases |steps|
  {
    if steps == [] then 0 else Changes(steps[..|steps| - 1]) + if steps[|steps| - 1].Change? then 1 else 0
  }

  lemma {:induction false} StepSettings(s: Sys, step: Step)
    ensures Next(s, step).settings ==
      match step
      case Init(path) => if s.settings.path == "" then s.settings.(path := path) else s.settings
      case Change(text) => Snapshot(s.settings.path, text, s.settings.version + 1)
      case _ => s.settings
  {
    match step
    case StopperStep(id) => if id in s.stoppers { StopperLeaves(s, id); }
    case _ =>
  }

  // Whatever the savers, the worker and shutdown do, the settings are at the first
  // path they were given, with the last text set, in a version for every change.
  lemma {:induction false} SettingsAreTheHistory(steps: seq<Step>)
    ensures Run(Initial(), steps).settings == Snapshot(FirstPath(steps), LastText(steps), Changes(steps))
    decreases |steps|
  {
    if steps != [] {
      SettingsAreTheHistory(steps[..|steps| - 1]);
      StepSettings(Run(Initial(), steps[..|steps| - 1]), steps[|steps| - 1]);
    }
  }

  // ----- what the loop writes -----

  // What the mailbox takes before it is stopped, in order.
  function Taken(stop: bool, updates: seq<Update>): seq<Snapshot>
    decreases |updates|
  {
    if updates == [] || stop then []
    else
      match updates[0]
      case Offered(snapshot) => [snapshot] + Taken(false, updates[1..])
      case StopSet => []
  }

  function TakenInAll(slot: Slot, rounds: seq<seq<Update>>): seq<Snapshot>
    decreases |rounds|
  {
    if rounds == [] then []
    else Taken(slot.stop, rounds[0]) + TakenInAll(slot.(stop := slot.stop || StopSet in rounds[0]), rounds[1..])
  }

  function Held(slot: Slot): seq<Snapshot> {
    if slot.data.Some? then [slot.data.value] else []
  }

  // `kept` is `all` in order with some left out, but never the last.
  ghost predicate Thinned(all: seq<Snapshot>, kept: seq<Snapshot>)
    decreases |kept|
  {
    if kept == [] then all == []
    else exists cut :: 0 < cut <= |all| && KeptAt(all, kept, cut)
  }

  ghost predicate KeptAt(all: seq<Snapshot>, kept: seq<Snapshot>, cut: nat)
    requires kept != [] && 0 < cut <= |all|
    decreases |kept|, 0
  {
    all[cut - 1] == kept[0] && Thinned(all[cut..], kept[1..])
  }

  // The rounds that find something to write.
  function Writes(slot: Slot, rounds: seq<seq<Update>>): nat
    decreases |rounds|
  {
    if rounds == [] then 0
    else
      (if Held(slot) + Taken(slot.stop, rounds[0]) != [] then 1 else 0)
      + Writes(Slot(None, slot.stop || StopSet in rounds[0]), rounds[1..])
  }

  lemma {:induction false} LandedIsTheLast(slot: Slot, updates: seq<Update>)
    ensures var all := Held(slot) + Taken(slot.stop, updates);
      Landed(slot, updates) == Slot(if all == [] then None else Some(all[|all| - 1]), slot.stop || StopSet in updates)
    decreases |updates|
  {
    if updates != [] && !slot.stop {
      var next := if updates[0].StopSet? then slot.(stop := true) else slot.(data := Some(updates[0].snapshot));
      LandedIsTheLast(next, updates[1..]);
      if updates[0].Offered? {
        var all, rest := Held(slot) + Taken(false, updates), Held(next) + Taken(false, updates[1..]);
        assert Taken(false, updates) == rest;
        assert all[|all| - 1] == rest[|rest| - 1];
      }
    } else if updates != [] {
      LandedIsTheLast(slot, updates[1..]);
    }
  }

  lemma {:induction false} NothingTakenOnceStopped(slot: Slot, rounds: seq<seq<Update>>)
    requires slot.stop
    ensures TakenInAll(slot, rounds) == [] && (slot.data.None? ==> Writes(slot, rounds) == 0)
    decreases |rounds|
  {
    if rounds != [] {
      NothingTakenOnceStopped(slot, rounds[1..]);
      NothingTakenOnceStopped(slot.(data := None), rounds[1..]);
    }
  }

  lemma {:induction false} TakenIgnoresData(slot: Slot, data: Option<Snapshot>, rounds: seq<seq<Update>>)
    ensures TakenInAll(slot.(data := data), rounds) == TakenInAll(slot, rounds)
    decreases |rounds|
  {
    if rounds != [] {
      var next := slot.(stop := slot.stop || StopSet in rounds[0]);
      TakenIgnoresData(next, data, rounds[1..]);
      assert next.(data := data) == slot.(data := data).(stop := slot.stop || StopSet in rounds[0]);
    }
  }

  lemma {:induction false} ThinnedFirst(first: seq<Snapshot>, rest: seq<Snapshot>, kept: seq<Snapshot>)
    requires first != [] && Thinned(rest, kept)
    ensures Thinned(first + rest, [first[|first| - 1]] + kept)
  {
    var all, more := first + rest, [first[|first| - 1]] + kept;
    assert all[|first|..] == rest && more[1..] == kept;
    assert KeptAt(all, more, |first|);
  }

  // Nothing left out but what something newer replaced.
  ghost predicate KeepsTheNewest(slot: Slot, rounds: seq<seq<Update>>, result: Result) {
    Thinned(Held(slot) + TakenInAll(slot, rounds), result.written + Held(result.slot))
  }

  lemma {:induction false} LoopAtRest(slot: Slot)
    ensures KeepsTheNewest(slot, [], Result([], slot, false))
  {
    assert Held(slot) + [] == Held(slot) == [] + Held(slot);
    if slot.data.Some? {
      assert KeptAt(Held(slot), Held(slot), 1);
    }
  }

  // One round, and what the rest of the loop takes.
  lemma {:induction false} RoundTakes(slot: Slot, rounds: seq<seq<Update>>)
    requires rounds != []
    ensures var first := Held(slot) + Taken(slot.stop, rounds[0]); var next := Slot(None, slot.stop || StopSet in rounds[0]);
      && Held(slot) + TakenInAll(slot, rounds) == first + TakenInAll(next, rounds[1..])
      && Held(next) + TakenInAll(next, rounds[1..]) == TakenInAll(next, rounds[1..])
      && Landed(slot, rounds[0]) == next.(data := if first == [] then None else Some(first[|first| - 1]))
  {
    var stop := slot.stop || StopSet in rounds[0];
    LandedIsTheLast(slot, rounds[0]);
    TakenIgnoresData(slot.(stop := stop), None, rounds[1..]);
  }

  lemma {:induction false} RoundWrites(slot: Slot, rounds: seq<seq<Update>>)
    requires rounds != [] && Landed(slot, rounds[0]).data.Some?
    requires var next := Slot(None, slot.stop || StopSet in rounds[0]); KeepsTheNewest(next, rounds[1..], Looped(next, rounds[1..]))
    ensures KeepsTheNewest(slot, rounds, Looped(slot, rounds))
  {
    RoundTakes(slot, rounds);
    var first := Held(slot) + Taken(slot.stop, rounds[0]);
    var next := Slot(None, slot.stop || StopSet in rounds[0]);
    var rest := Looped(next, rounds[1..]);
    var last := first[|first| - 1];
    ThinnedFirst(first, TakenInAll(next, rounds[1..]), rest.written + Held(rest.slot));
    assert Looped(slot, rounds) == rest.(written := [last] + rest.written);
    assert [last] + rest.written + Held(rest.slot) == [last] + (rest.written + Held(rest.slot));
  }

  lemma {:induction false} RoundPasses(slot: Slot, rounds: seq<seq<Update>>)
    requires rounds != [] && Landed(slot, rounds[0]).data.None?
    requires var next := Slot(None, slot.stop || StopSet in rounds[0]); KeepsTheNewest(next, rounds[1..], Looped(next, rounds[1..]))
    ensures KeepsTheNewest(slot, rounds, Looped(slot, rounds))
  {
    RoundTakes(slot, rounds);
    var next := Slot(None, slot.stop || StopSet in rounds[0]);
    var all := Held(slot) + TakenInAll(slot, rounds);
    assert all == TakenInAll(next, rounds[1..]);
    if next.stop {
      NothingTakenOnceStopped(next, rounds[1..]);
    }
  }

  // Whatever lands between its waits, the loop writes in order and leaves out only
  // what something newer replaced: what was last taken before the stop is written
  // or still in the slot.
  lemma {:induction false} LoopWritesTheNewest(slot: Slot, rounds: seq<seq<Update>>)
    ensures KeepsTheNewest(slot, rounds, Looped(slot, rounds))
    decreases |rounds|
  {
    if rounds == [] {
      LoopAtRest(slot);
    } else {
      LoopWritesTheNewest(Slot(None, slot.stop || StopSet in rounds[0]), rounds[1..]);
      if Landed(slot, rounds[0]).data.Some? {
        RoundWrites(slot, rounds);
      } else {
        RoundPasses(slot, rounds);
      }
    }
  }

  // And once for every wait that finds something.
  lemma {:induction false} LoopWritesEveryRound(slot: Slot, rounds: seq<seq<Update>>)
    requires rounds != []
    ensures |Looped(slot, rounds).written| == Writes(slot, rounds) && Looped(slot, rounds).slot.data.None?
    decreases |rounds|
  {
    RoundTakes(slot, rounds);
    var next := Slot(None, slot.stop || StopSet in rounds[0]);
    if next.stop {
      NothingTakenOnceStopped(next, rounds[1..]);
    }
    if rounds[1..] != [] {
      LoopWritesEveryRound(next, rounds[1..]);
    }
  }
}

// The mailbox's slot and the handle, updated in place under their locks.
module SaveWorkerObjects {
  import opened Wrappers
  import W = SaveWorker

  class Mailbox {
    var data: Option<W.Snapshot>
    var stop: bool

    constructor ()
      ensures data == None && !stop
    {
      data, stop := None, false;
    }

    // The saver's update: only the newest snapshot survives.
    method Offer(snapshot: W.Snapshot) returns (queued: bool)
      modifies this
      ensures stop == old(stop) && queued == !old(stop)
      ensures data == if queued then Some(snapshot) else old(data)
    {
      if stop {
        return false;
      }
      data := Some(snapshot);
      return true;
    }

    // The worker's wait, once its predicate holds.
    method Take() returns (taken: Option<W.Snapshot>)
      requires data.Some? || stop
      modifies this`data
      ensures taken == old(data) && data == None
      ensures taken == None ==> stop
    {
      taken := data;
      data := None;
    }

    // The shutdown's update; `true` for the one call that set it.
    method SetStop() returns (first: bool)
      modifies this`stop
      ensures stop && first == !old(stop)
    {
      first := !stop;
      stop := true;
    }

    // Updates that land before one wait returns.
    method Land(updates: seq<W.Update>)
      modifies this
      ensures W.Slot(data, stop) == W.Landed(W.Slot(old(data), old(stop)), updates)
    {
      ghost var before := W.Slot(data, stop);
      var i := 0;
      while i < |updates|
        invariant 0 <= i <= |updates|
        invariant W.Landed(before, updates) == W.Landed(W.Slot(data, stop), updates[i..])
      {
        match updates[i] {
          case Offered(snapshot) => var _ := Offer(snapshot);
          case StopSet => var _ := SetStop();
        }
        assert updates[i..][1..] == updates[i + 1..];
        i := i + 1;
      }
    }

    // `save_worker_loop`: one round is what lands while it waits; the wait returns
    // once there is a snapshot or the stop, and without a snapshot the loop ends.
    method Loop(rounds: seq<seq<W.Update>>) returns (written: seq<W.Snapshot>, ended: bool)
      modifies this
      ensures W.Result(written, W.Slot(data, stop), ended) == W.Looped(W.Slot(old(data), old(stop)), rounds)
    {
      ghost var goal := W.Looped(W.Slot(data, stop), rounds);
      written, ended := [], false;
      var i := 0;
      assert rounds[0..] == rounds;
      while i < |rounds| && !ended
        invariant 0 <= i <= |rounds|
        invariant !ended ==>
                    var rest := W.Looped(W.Slot(data, stop), rounds[i..]);
                    goal == rest.(written := written + rest.written)
        invariant ended ==> goal == W.Result(written, W.Slot(data, stop), true)
        decreases |rounds| - i, !ended
      {
        assert rounds[i..][0] == rounds[i] && rounds[i..][1..] == rounds[i + 1..];
        ghost var before := written;
        Land(rounds[i]);
        if data.Some? || stop {
          var next := Take();
          if next.Some? {
            ghost var rest := W.Looped(W.Slot(data, stop), rounds[i + 1..]);
            assert before + ([next.value] + rest.written) == before + [next.value] + rest.written;
            written := written + [next.value];
          } else {
            ended := true;
          }
        }
        i := i + 1;
      }
    }

    // `save_worker_loop` on a mailbox that has been stopped: what is queued is
    // written, then the loop ends.
    method DrainLoop() returns (written: seq<W.Snapshot>)
      requires stop
      modifies this`data
      ensures data == None
      ensures written == if old(data).Some? then [old(data).value] else []
    {
      written := [];
      var next := Take();
      while next.Some?
        invariant data == None
        invariant next.Some? ==> written == [] && next == old(data)
        invariant next.None? ==> written == if old(data).Some? then [old(data).value] else []
        decreases if next.Some? then 1 else 0
      {
        written := written + [next.value];
        next := Take();
      }
    }
  }
}
