// Everything that writes the settings file: the worker, and the synchronous save
// at exit, which goes past the mailbox. A saver of either kind clones the
// settings in one step and gives its clone away in a later one, to the mailbox
// or to the file.
module SettingsDisk {
  import opened Wrappers
  import W = SaveWorker

  // `settings_save_async` and `settings_save`.
  datatype Saver = Queued(id: nat) | Direct(id: nat)

  // `direct` holds the clones the synchronous saves are about to write. `given`
  // and `disk` are histories: the clones given away, and what was written, in
  // order. One lock makes each write of the file one step.
  datatype World = World(sys: W.Sys, direct: map<nat, W.Snapshot>, given: seq<W.Snapshot>, disk: seq<W.Snapshot>)

  datatype Act = Do(step: W.Step) | CallDirect(saver: nat) | DirectWrite(saver: nat)

  // A run: the state before each act, and the last one.
  datatype Trace = Trace(acts: seq<Act>, ws: seq<World>)

  const INITIAL := World(W.Initial(), map[], [], [])

  // The mailbox takes the snapshot in this step.
  predicate Accepts(s: W.Sys, step: W.Step) {
    step.SaverStep? && step.saver in s.savers && s.savers[step.saver].Locked? && !s.stop
  }

  // What an act gives away.
  function Gives(w: World, act: Act): seq<W.Snapshot> {
    match act
    case Do(step) => if Accepts(w.sys, step) then [w.sys.savers[step.saver].snapshot] else []
    case CallDirect(_) => []
    case DirectWrite(id) => if id in w.direct then [w.direct[id]] else []
  }

  // What an act writes to the file. The worker only ever holds a place in `accepted`.
  function Puts(w: World, act: Act): seq<W.Snapshot> {
    match act
    case Do(step) =>
      if step.WorkerStep? && w.sys.worker.Writing? && w.sys.worker.index < |w.sys.accepted|
      then [w.sys.accepted[w.sys.worker.index]] else []
    case CallDirect(_) => []
    case DirectWrite(id) => if id in w.direct then [w.direct[id]] else []
  }

  function Next(w: World, act: Act): World {
    World(
      if act.Do? then W.Next(w.sys, act.step) else w.sys,
      match act
      case Do(_) => w.direct
      case CallDirect(id) => if id in w.direct then w.direct else w.direct[id := w.sys.settings]
      case DirectWrite(id) => w.direct - {id},
      w.given + Gives(w, act),
      w.disk + Puts(w, act))
  }

  predicate Steps(t: Trace, n: nat)
    requires n < |t.acts| && n + 1 < |t.ws|
  {
    t.ws[n + 1] == Next(t.ws[n], t.acts[n])
  }

  ghost predicate IsRun(t: Trace) {
    && |t.ws| == |t.acts| + 1 && t.ws[0] == INITIAL
    && forall n | 0 <= n < |t.acts| :: Steps(t, n)
  }

  function Last<T>(xs: seq<T>): T
    requires xs != []
  {
    xs[|xs| - 1]
  }

  // ----- clones -----

  // Who clones the settings in this act.
  function Cloner(w: World, act: Act): Option<Saver> {
    match act
    case Do(CallSave(id)) => if id !in w.sys.savers || w.sys.savers[id].Saved? then Some(Queued(id)) else None
    case CallDirect(id) => if id !in w.direct then Some(Direct(id)) else None
    case _ => None
  }

  // Who gives its clone away in this act.
  function Giver(w: World, act: Act): Option<Saver> {
    match act
    case Do(step) => if Accepts(w.sys, step) then Some(Queued(step.saver)) else None
    case DirectWrite(id) => if id in w.direct then Some(Direct(id)) else None
    case _ => None
  }

  predicate Pending(c: W.Saver) {
    c.Snapped? || c.Locked?
  }

  // A clone taken and not yet given away.
  function Holding(w: World, who: Saver): Option<W.Snapshot> {
    match who
    case Queued(id) => if id in w.sys.savers && Pending(w.sys.savers[id]) then Some(w.sys.savers[id].snapshot) else None
    case Direct(id) => if id in w.direct then Some(w.direct[id]) else None
  }

  predicate Changes(act: Act) {
    act.Do? && act.step.Change?
  }

  // What one act does to the clones: they are taken of the settings, held as they
  // are and given away.
  ghost predicate Moves(w: World, act: Act, w1: World) {
    && (forall who | Cloner(w, act) == Some(who) :: Holding(w1, who) == Some(w.sys.settings))
    && (forall who | Cloner(w, act) != Some(who) && Holding(w1, who).Some? :: Holding(w, who) == Holding(w1, who))
    && (Giver(w, act).Some? ==> Holding(w, Giver(w, act).value).Some?)
    && w1.given == w.given + (if Giver(w, act).Some? then [Holding(w, Giver(w, act).value).value] else [])
    && w1.sys.settings.version == w.sys.settings.version + (if Changes(act) then 1 else 0)
  }

  ghost predicate Moving(t: Trace) {
    && |t.ws| == |t.acts| + 1 && t.ws[0].given == [] && (forall who :: Holding(t.ws[0], who).None?)
    && forall n | 0 <= n < |t.acts| :: Moves(t.ws[n], t.acts[n], t.ws[n + 1])
  }

  // The last clone `who` took before act `n` was in act `i`.
  predicate Cloned(t: Trace, i: nat, n: nat, who: Saver)
    requires |t.acts| < |t.ws|
  {
    && i < n <= |t.acts|
    && Cloner(t.ws[i], t.acts[i]) == Some(who)
    && forall k | i < k < n :: Cloner(t.ws[k], t.acts[k]) != Some(who)
  }

  // In act `j` the clone of act `i` is given away.
  predicate Gave(t: Trace, i: nat, j: nat, who: Saver)
    requires |t.acts| < |t.ws|
  {
    j < |t.acts| && Giver(t.ws[j], t.acts[j]) == Some(who) && Cloned(t, i, j, who)
  }

  lemma {:induction false} SaverMoves(s: W.Sys, saver: nat, id: nat)
    requires saver in s.savers
    ensures var s1 := W.AdvanceSaver(s, saver);
      && s1.settings == s.settings
      && (id in s1.savers && Pending(s1.savers[id]) ==>
            id in s.savers && Pending(s.savers[id]) && s1.savers[id].snapshot == s.savers[id].snapshot)
  {
    match s.savers[saver]
    case Snapped(_) =>
    case Locked(_) =>
    case HandedOff(_) =>
    case Saved =>
  }

  lemma {:induction false} WorkerMoves(s: W.Sys)
    ensures W.AdvanceWorker(s).settings == s.settings && W.AdvanceWorker(s).savers == s.savers
  {
  }

  lemma {:induction false} SysMoves(s: W.Sys, step: W.Step, id: nat)
    ensures var s1 := W.Next(s, step);
      && s1.settings.version == s.settings.version + (if step.Change? then 1 else 0)
      && (id in s1.savers && Pending(s1.savers[id]) ==>
            if step == W.CallSave(id) && (id !in s.savers || s.savers[id].Saved?) then s1.savers[id].snapshot == s.settings
            else id in s.savers && Pending(s.savers[id]) && s1.savers[id].snapshot == s.savers[id].snapshot)
  {
    match step
    case SaverStep(saver) => if saver in s.savers { SaverMoves(s, saver, id); }
    case WorkerStep => WorkerMoves(s);
    case StopperStep(stopper) => if stopper in s.stoppers { W.StopperLeaves(s, stopper); }
    case CallSave(_) =>
    case Init(_) =>
    case Change(_) =>
    case CallShutdown(_) =>
  }

  lemma {:induction false} DoMoves(w: World, step: W.Step)
    ensures Moves(w, Do(step), Next(w, Do(step)))
  {
    forall id: nat {
      SysMoves(w.sys, step, id);
    }
  }

  lemma {:induction false} NextMoves(w: World, act: Act)
    ensures Moves(w, act, Next(w, act))
  {
    if act.Do? {
      DoMoves(w, act.step);
    }
  }

  lemma {:induction false} RunMoves(t: Trace)
    requires IsRun(t)
    ensures Moving(t)
  {
    forall n | 0 <= n < |t.acts|
      ensures Moves(t.ws[n], t.acts[n], t.ws[n + 1])
    {
      assert Steps(t, n);
      NextMoves(t.ws[n], t.acts[n]);
    }
  }

  // What a saver holds is the settings at its last clone, held ever since.
  lemma {:induction false} HeldSince(t: Trace, n: nat, who: Saver) returns (i: nat)
    requires Moving(t) && n <= |t.acts| && Holding(t.ws[n], who).Some?
    ensures Cloned(t, i, n, who) && Holding(t.ws[n], who).value == t.ws[i].sys.settings
    ensures forall k | i < k <= n :: Holding(t.ws[k], who).Some?
    decreases n
  {
    assert Moves(t.ws[n - 1], t.acts[n - 1], t.ws[n]);
    if Cloner(t.ws[n - 1], t.acts[n - 1]) == Some(who) {
      i := n - 1;
    } else {
      i := HeldSince(t, n - 1, who);
    }
  }

  lemma {:induction false} GivenFrom(t: Trace, n: nat, p: nat) returns (i: nat, j: nat, who: Saver)
    requires Moving(t) && n <= |t.acts| && p < |t.ws[n].given|
    ensures j < n && Gave(t, i, j, who) && t.ws[n].given[p] == t.ws[i].sys.settings
    decreases n
  {
    assert Moves(t.ws[n - 1], t.acts[n - 1], t.ws[n]);
    if p < |t.ws[n - 1].given| {
      i, j, who := GivenFrom(t, n - 1, p);
    } else {
      j, who := n - 1, Giver(t.ws[n - 1], t.acts[n - 1]).value;
      i := HeldSince(t, j, who);
    }
  }

  lemma {:induction false} GivenGrows(t: Trace, j: nat, n: nat)
    requires Moving(t) && j <= n <= |t.acts|
    ensures t.ws[j].given <= t.ws[n].given
    decreases n
  {
    if j < n {
      GivenGrows(t, j, n - 1);
      assert Moves(t.ws[n - 1], t.acts[n - 1], t.ws[n]);
    }
  }

  lemma {:induction false} GaveIsGiven(t: Trace, i: nat, j: nat, n: nat, who: Saver)
    requires Moving(t) && j < n <= |t.acts| && Gave(t, i, j, who)
    ensures t.ws[i].sys.settings in t.ws[n].given
  {
    assert Moves(t.ws[j], t.acts[j], t.ws[j + 1]);
    var i1 := HeldSince(t, j, who);
    assert i1 == i;
    GivenGrows(t, j + 1, n);
    assert t.ws[n].given[|t.ws[j].given|] == t.ws[i].sys.settings;
  }

  predicate ChangedWithin(t: Trace, i: nat, k: nat)
    requires k <= |t.acts|
  {
    exists m: nat :: i <= m < k && Changes(t.acts[m])
  }

  // The version moves exactly with a change.
  lemma {:induction false} NewerExactlyAfterChange(t: Trace, i: nat, k: nat)
    requires Moving(t) && i <= k <= |t.acts|
    ensures t.ws[i].sys.settings.version <= t.ws[k].sys.settings.version
    ensures t.ws[i].sys.settings.version < t.ws[k].sys.settings.version <==> ChangedWithin(t, i, k)
    decreases k
  {
    if i < k {
      NewerExactlyAfterChange(t, i, k - 1);
      assert Moves(t.ws[k - 1], t.acts[k - 1], t.ws[k]);
    }
  }

  // ----- which clone is newest -----

  // Something newer has been given away.
  predicate Overtaken(given: seq<W.Snapshot>, snapshot: W.Snapshot) {
    exists p | 0 <= p < |given| :: given[p].version > snapshot.version
  }

  // Between the clone of act `i` and act `n` the settings changed in act `m`, and a
  // clone another saver took after that, in act `k`, was given away in act `j`.
  predicate Overtakes(t: Trace, i: nat, m: nat, k: nat, j: nat, n: nat, other: Saver)
    requires |t.acts| < |t.ws|
  {
    i < m < k < j < n <= |t.acts| && Changes(t.acts[m]) && Gave(t, k, j, other)
  }

  lemma {:induction false} OvertakenBySomebody(t: Trace, i: nat, n: nat, p: nat) returns (m: nat, k: nat, j: nat, other: Saver)
    requires Moving(t) && i < n <= |t.acts| && Cloner(t.ws[i], t.acts[i]).Some?
    requires p < |t.ws[n].given| && t.ws[n].given[p].version > t.ws[i].sys.settings.version
    ensures Overtakes(t, i, m, k, j, n, other)
  {
    k, j, other := GivenFrom(t, n, p);
    if k < i {
      NewerExactlyAfterChange(t, k, i);
    }
    NewerExactlyAfterChange(t, i, k);
    m :| i <= m < k && Changes(t.acts[m]);
    assert m != i;
  }

  lemma {:induction false} SomebodyOvertakes(t: Trace, i: nat, m: nat, k: nat, j: nat, n: nat, other: Saver)
    requires Moving(t) && Overtakes(t, i, m, k, j, n, other)
    ensures Overtaken(t.ws[n].given, t.ws[i].sys.settings)
  {
    NewerExactlyAfterChange(t, i, k);
    GaveIsGiven(t, k, j, n, other);
    var given := t.ws[n].given;
    var p :| 0 <= p < |given| && given[p] == t.ws[k].sys.settings;
    assert given[p].version > t.ws[i].sys.settings.version;
  }

  lemma {:induction false} OvertakenSinceClone(t: Trace, i: nat, n: nat)
    requires Moving(t) && i < n <= |t.acts| && Cloner(t.ws[i], t.acts[i]).Some?
    ensures Overtaken(t.ws[n].given, t.ws[i].sys.settings) <==>
            exists m: nat, k: nat, j: nat, other :: Overtakes(t, i, m, k, j, n, other)
  {
    var given, snapshot := t.ws[n].given, t.ws[i].sys.settings;
    if Overtaken(given, snapshot) {
      var p :| 0 <= p < |given| && given[p].version > snapshot.version;
      var m, k, j, other := OvertakenBySomebody(t, i, n, p);
    }
    if m: nat, k: nat, j: nat, other :| Overtakes(t, i, m, k, j, n, other) {
      SomebodyOvertakes(t, i, m, k, j, n, other);
    }
  }

  // ----- what the worker writes -----

  // What one act does to the mailbox's order and to the background writes.
  ghost predicate Orders(w: World, act: Act, w1: World) {
    && w1.sys.accepted == w.sys.accepted + (if act.Do? then Gives(w, act) else [])
    && w1.given == w.given + Gives(w, act) && w1.disk == w.disk + Puts(w, act)
    && w1.sys.writes == w.sys.writes + (if act.Do? && Puts(w, act) != [] then [w.sys.worker.index] else [])
  }

  ghost predicate Ordered(t: Trace) {
    && |t.ws| == |t.acts| + 1 && t.ws[0].sys.accepted == [] && t.ws[0].disk == []
    && forall n | 0 <= n < |t.acts| :: Orders(t.ws[n], t.acts[n], t.ws[n + 1])
  }

  lemma {:induction false} SaverOrders(s: W.Sys, id: nat)
    requires id in s.savers
    ensures var s1 := W.AdvanceSaver(s, id);
      && s1.writes == s.writes
      && s1.accepted == s.accepted + if Accepts(s, W.SaverStep(id)) then [s.savers[id].snapshot] else []
  {
    match s.savers[id]
    case Snapped(_) =>
    case Locked(_) =>
    case HandedOff(_) =>
    case Saved =>
  }

  lemma {:induction false} WorkerOrders(s: W.Sys)
    requires s.worker.Writing? ==> s.worker.index < |s.accepted|
    ensures var s1 := W.AdvanceWorker(s);
      && s1.accepted == s.accepted
      && s1.writes == s.writes + if s.worker.Writing? then [s.worker.index] else []
  {
  }

  lemma {:induction false} SysOrders(s: W.Sys, step: W.Step)
    requires s.worker.Writing? ==> s.worker.index < |s.accepted|
    ensures var s1 := W.Next(s, step);
      && s1.accepted == s.accepted + (if Accepts(s, step) then [s.savers[step.saver].snapshot] else [])
      && s1.writes == s.writes + (if step.WorkerStep? && s.worker.Writing? then [s.worker.index] else [])
  {
    match step
    case SaverStep(id) => if id in s.savers { SaverOrders(s, id); }
    case WorkerStep => WorkerOrders(s);
    case StopperStep(id) => if id in s.stoppers { W.StopperLeaves(s, id); }
    case CallSave(_) =>
    case Init(_) =>
    case Change(_) =>
    case CallShutdown(_) =>
  }

  lemma {:induction false} NextOrders(w: World, act: Act)
    requires W.Inv(w.sys)
    ensures Orders(w, act, Next(w, act)) && W.Inv(Next(w, act).sys)
  {
    if act.Do? {
      SysOrders(w.sys, act.step);
      W.NextKeeps(w.sys, act.step);
    }
  }

  lemma {:induction false} InitialKept()
    ensures W.Inv(INITIAL.sys)
  {
  }

  lemma {:induction false} InvAt(t: Trace, n: nat)
    requires IsRun(t) && n <= |t.acts|
    ensures W.Inv(t.ws[n].sys)
    decreases n
  {
    if n == 0 {
      InitialKept();
    } else {
      InvAt(t, n - 1);
      assert Steps(t, n - 1);
      NextOrders(t.ws[n - 1], t.acts[n - 1]);
    }
  }

  lemma {:induction false} RunOrdered(t: Trace)
    requires IsRun(t)
    ensures Ordered(t)
  {
    forall n | 0 <= n < |t.acts|
      ensures Orders(t.ws[n], t.acts[n], t.ws[n + 1])
    {
      InvAt(t, n);
      assert Steps(t, n);
      NextOrders(t.ws[n], t.acts[n]);
    }
  }

  // In act `l` the clone of act `i` is written: by its own saver, or by the worker,
  // which holds its place in `accepted`.
  ghost predicate Wrote(t: Trace, i: nat, l: nat)
    requires |t.acts| < |t.ws|
  {
    && l < |t.acts|
    && (|| (exists id: nat :: Gave(t, i, l, Direct(id)))
        || (t.acts[l] == Do(W.WorkerStep) && t.ws[l].sys.worker.Writing?
            && exists j: nat, id: nat :: j < l && Gave(t, i, j, Queued(id)) && |t.ws[j].sys.accepted| == t.ws[l].sys.worker.index))
  }

  // The clone of act `i` is the last one written.
  ghost predicate LastWrote(t: Trace, i: nat, l: nat)
    requires |t.acts| < |t.ws|
  {
    Wrote(t, i, l) && forall l1 | l < l1 < |t.acts| :: Puts(t.ws[l1], t.acts[l1]) == []
  }

  lemma {:induction false} AcceptedFrom(t: Trace, n: nat, p: nat) returns (i: nat, j: nat, id: nat)
    requires Moving(t) && Ordered(t) && n <= |t.acts| && p < |t.ws[n].sys.accepted|
    ensures j < n && Gave(t, i, j, Queued(id)) && |t.ws[j].sys.accepted| == p
    ensures t.ws[n].sys.accepted[p] == t.ws[i].sys.settings
    decreases n
  {
    assert Orders(t.ws[n - 1], t.acts[n - 1], t.ws[n]);
    if p < |t.ws[n - 1].sys.accepted| {
      i, j, id := AcceptedFrom(t, n - 1, p);
    } else {
      j, id := n - 1, t.acts[n - 1].step.saver;
      i := HeldSince(t, j, Queued(id));
    }
  }

  lemma {:induction false} PutFrom(t: Trace, l: nat) returns (i: nat)
    requires Moving(t) && Ordered(t) && l < |t.acts| && Puts(t.ws[l], t.acts[l]) != []
    ensures Wrote(t, i, l) && Puts(t.ws[l], t.acts[l]) == [t.ws[i].sys.settings]
  {
    if t.acts[l].Do? {
      var j, id;
      i, j, id := AcceptedFrom(t, l, t.ws[l].sys.worker.index);
    } else {
      i := HeldSince(t, l, Direct(t.acts[l].saver));
      assert Gave(t, i, l, Direct(t.acts[l].saver));
    }
  }

  // The last write before act `n`.
  lemma {:induction false} LastPut(t: Trace, n: nat) returns (l: nat)
    requires Ordered(t) && n <= |t.acts| && t.ws[n].disk != []
    ensures l < n && Puts(t.ws[l], t.acts[l]) != [] && Last(t.ws[n].disk) == Last(Puts(t.ws[l], t.acts[l]))
    ensures forall l1 | l < l1 < n :: Puts(t.ws[l1], t.acts[l1]) == []
    decreases n
  {
    assert Orders(t.ws[n - 1], t.acts[n - 1], t.ws[n]);
    if Puts(t.ws[n - 1], t.acts[n - 1]) == [] {
      l := LastPut(t, n - 1);
    } else {
      l := n - 1;
    }
  }

  // While nothing is given away only the worker writes.
  lemma {:induction false} GivenStays(t: Trace, base: nat, k: nat, end: nat)
    requires Ordered(t) && base <= k <= end <= |t.acts| && t.ws[end].given == t.ws[base].given
    ensures t.ws[k].given == t.ws[base].given
  {
    GivenExtends(t, base, k);
    GivenExtends(t, k, end);
  }

  lemma {:induction false} GivenExtends(t: Trace, j: nat, n: nat)
    requires Ordered(t) && j <= n <= |t.acts|
    ensures t.ws[j].given <= t.ws[n].given
    decreases n
  {
    if j < n {
      GivenExtends(t, j, n - 1);
      assert Orders(t.ws[n - 1], t.acts[n - 1], t.ws[n]);
    }
  }

  lemma {:induction false} OnlyWorkerWrites(t: Trace, base: nat, k: nat, end: nat)
    requires Ordered(t) && base <= k <= end <= |t.acts| && t.ws[end].given == t.ws[base].given
    ensures t.ws[k].sys.accepted == t.ws[base].sys.accepted && t.ws[base].sys.writes <= t.ws[k].sys.writes
    ensures if t.ws[k].sys.writes == t.ws[base].sys.writes then t.ws[k].disk == t.ws[base].disk
            else
              && t.ws[k].disk != [] && Last(t.ws[k].sys.writes) < |t.ws[base].sys.accepted|
              && Last(t.ws[k].disk) == t.ws[base].sys.accepted[Last(t.ws[k].sys.writes)]
    decreases k
  {
    if base < k {
      OnlyWorkerWrites(t, base, k - 1, end);
      GivenStays(t, base, k - 1, end);
      GivenStays(t, base, k, end);
      assert Orders(t.ws[k - 1], t.acts[k - 1], t.ws[k]);
      assert Gives(t.ws[k - 1], t.acts[k - 1]) == [];
    }
  }

  // A worker that owes nothing has written the newest snapshot accepted, and one
  // that owes something has not.
  predicate OwesTheRest(s: W.Sys) {
    if W.Owed(s) == [] then s.accepted != [] ==> s.writes != [] && Last(s.writes) == |s.accepted| - 1
    else s.accepted != [] && (s.writes != [] ==> Last(s.writes) < |s.accepted| - 1)
  }

  lemma {:induction false} OwedIsUnwritten(s: W.Sys)
    requires W.Inv(s)
    ensures OwesTheRest(s)
  {
  }

  lemma {:induction false} StoppedOwesNothing(s: W.Sys)
    requires W.Inv(s) && W.Stopped(s)
    ensures W.Owed(s) == [] && W.Increasing(s.writes, |s.accepted|)
  {
  }

  lemma {:induction false} AcceptedIsOwed(s: W.Sys, step: W.Step)
    requires Accepts(s, step)
    ensures W.Owed(W.Next(s, step)) != []
  {
  }

  lemma {:induction false} LastGift(w: World, act: Act, who: Saver)
    requires Giver(w, act) == Some(who)
    ensures if who.Queued? then W.Owed(Next(w, act).sys) != [] else Next(w, act).sys == w.sys
  {
    if who.Queued? {
      AcceptedIsOwed(w.sys, act.step);
    }
  }

  // ----- results -----

  // Of a saver about to give its clone away, in any run: something newer has been
  // given away exactly when, after its clone, the settings changed and a clone
  // taken after that was given.
  lemma {:induction false} OvertakenExactlyInBetween(t: Trace, n: nat, who: Saver)
    requires IsRun(t) && n <= |t.acts| && Holding(t.ws[n], who).Some?
    ensures Overtaken(t.ws[n].given, Holding(t.ws[n], who).value) <==>
            exists i: nat, m: nat, k: nat, j: nat, other :: Cloned(t, i, n, who) && Overtakes(t, i, m, k, j, n, other)
  {
    RunMoves(t);
    HolderOvertaken(t, n, who);
  }

  lemma {:induction false} HolderOvertaken(t: Trace, n: nat, who: Saver)
    requires Moving(t) && n <= |t.acts| && Holding(t.ws[n], who).Some?
    ensures Overtaken(t.ws[n].given, Holding(t.ws[n], who).value) <==>
            exists i: nat, m: nat, k: nat, j: nat, other :: Cloned(t, i, n, who) && Overtakes(t, i, m, k, j, n, other)
  {
    var i := HeldSince(t, n, who);
    OvertakenSinceClone(t, i, n);
    assert forall i1: nat | Cloned(t, i1, n, who) :: i1 == i;
  }

  // What is on disk is the clone written last; and something newer was given away
  // exactly when the settings changed after that clone and a clone taken after
  // that was given. It holds of every run, so of one whose shutdown has returned.
  lemma {:induction false} OnDiskIsOldExactly(t: Trace)
    requires IsRun(t) && Last(t.ws).disk != []
    ensures exists i: nat, l: nat ::
              && LastWrote(t, i, l) && Last(Last(t.ws).disk) == t.ws[i].sys.settings
              && (Overtaken(Last(t.ws).given, Last(Last(t.ws).disk)) <==>
                  exists m: nat, k: nat, j: nat, other :: Overtakes(t, i, m, k, j, |t.acts|, other))
  {
    RunMoves(t);
    RunOrdered(t);
    LastWritten(t);
  }

  lemma {:induction false} LastWritten(t: Trace)
    requires Moving(t) && Ordered(t) && Last(t.ws).disk != []
    ensures exists i: nat, l: nat ::
              && LastWrote(t, i, l) && Last(Last(t.ws).disk) == t.ws[i].sys.settings
              && (Overtaken(Last(t.ws).given, Last(Last(t.ws).disk)) <==>
                  exists m: nat, k: nat, j: nat, other :: Overtakes(t, i, m, k, j, |t.acts|, other))
  {
    var l := LastPut(t, |t.acts|);
    var i := PutFrom(t, l);
    assert LastWrote(t, i, l);
    OvertakenSinceClone(t, i, |t.acts|);
  }

  // Act `n` gives away the last clone of the run.
  predicate GivesLast(t: Trace, n: nat, who: Saver)
    requires |t.acts| < |t.ws|
  {
    n < |t.acts| && Giver(t.ws[n], t.acts[n]) == Some(who) && Last(t.ws).given == t.ws[n + 1].given
  }

  // Once shutdown has returned, what stays on disk can be read off the state in
  // which the last clone was given away: it is that clone, unless it was written
  // past the mailbox while the worker still owed a write, and then it is the
  // worker's.
  lemma {:induction false} LastGivenStaysExactlyUnlessOwed(t: Trace, n: nat, who: Saver)
    requires IsRun(t) && GivesLast(t, n, who) && W.Stopped(Last(t.ws).sys)
    ensures Last(t.ws).disk != [] && Holding(t.ws[n], who).Some?
    ensures who.Direct? && W.Owed(t.ws[n].sys) != [] ==> t.ws[n].sys.accepted != []
    ensures Last(Last(t.ws).disk) ==
            if who.Direct? && W.Owed(t.ws[n].sys) != [] then Last(t.ws[n].sys.accepted) else Holding(t.ws[n], who).value
  {
    RunOrdered(t);
    AroundLast(t, n, who);
    if who.Queued? {
      QueuedStays(t, n, who);
    } else {
      DirectStays(t, n, who);
    }
  }

  lemma {:induction false} GiftAt(t: Trace, n: nat, who: Saver)
    requires IsRun(t) && n < |t.acts| && Giver(t.ws[n], t.acts[n]) == Some(who)
    ensures if who.Queued? then W.Owed(t.ws[n + 1].sys) != [] else t.ws[n + 1].sys == t.ws[n].sys
  {
    assert Steps(t, n);
    LastGift(t.ws[n], t.acts[n], who);
  }

  lemma {:induction false} RestAt(t: Trace, n: nat)
    requires IsRun(t) && n <= |t.acts|
    ensures OwesTheRest(t.ws[n].sys)
  {
    InvAt(t, n);
    OwedIsUnwritten(t.ws[n].sys);
  }

  lemma {:induction false} EndOwesNothing(t: Trace)
    requires IsRun(t) && W.Stopped(Last(t.ws).sys)
    ensures W.Owed(Last(t.ws).sys) == [] && W.Increasing(Last(t.ws).sys.writes, |Last(t.ws).sys.accepted|)
  {
    InvAt(t, |t.acts|);
    StoppedOwesNothing(Last(t.ws).sys);
  }

  lemma {:induction false} AroundLast(t: Trace, n: nat, who: Saver)
    requires IsRun(t) && n < |t.acts| && Giver(t.ws[n], t.acts[n]) == Some(who) && W.Stopped(Last(t.ws).sys)
    ensures OwesTheRest(t.ws[n].sys) && OwesTheRest(t.ws[n + 1].sys) && OwesTheRest(Last(t.ws).sys)
    ensures W.Owed(Last(t.ws).sys) == [] && W.Increasing(Last(t.ws).sys.writes, |Last(t.ws).sys.accepted|)
    ensures if who.Queued? then W.Owed(t.ws[n + 1].sys) != [] else t.ws[n + 1].sys == t.ws[n].sys
  {
    RestAt(t, n);
    RestAt(t, n + 1);
    RestAt(t, |t.acts|);
    EndOwesNothing(t);
    GiftAt(t, n, who);
  }

  lemma {:induction false} RoomAbove(xs: seq<nat>, p: nat, below: nat)
    requires W.Increasing(xs, below) && p < |xs|
    ensures |xs| - p <= below - xs[p]
    decreases |xs| - p
  {
    if p + 1 < |xs| {
      RoomAbove(xs, p + 1, below);
    }
  }

  lemma {:induction false} NoneAfterNewest(before: seq<nat>, after: seq<nat>, below: nat)
    requires W.Increasing(after, below) && before <= after
    requires below > 0 ==> before != [] && Last(before) == below - 1
    ensures after == before
  {
    if before != [] {
      RoomAbove(after, |before| - 1, below);
    } else if after != [] {
      RoomAbove(after, 0, below);
    }
  }

  // What is owed is written, and nothing after it.
  lemma {:induction false} OwedLandsLast(t: Trace, base: nat)
    requires Ordered(t) && base <= |t.acts| && Last(t.ws).given == t.ws[base].given
    requires OwesTheRest(t.ws[base].sys) && W.Owed(t.ws[base].sys) != []
    requires OwesTheRest(Last(t.ws).sys) && W.Owed(Last(t.ws).sys) == []
    ensures t.ws[base].sys.accepted != [] && Last(t.ws).disk != []
    ensures Last(Last(t.ws).disk) == Last(t.ws[base].sys.accepted)
  {
    OnlyWorkerWrites(t, base, |t.acts|, |t.acts|);
  }

  lemma {:induction false} AcceptedLast(w: World, act: Act, w1: World, who: Saver)
    requires Orders(w, act, w1) && Giver(w, act) == Some(who) && who.Queued?
    ensures w1.sys.accepted != [] && Holding(w, who) == Some(Last(w1.sys.accepted))
  {
  }

  lemma {:induction false} QueuedStays(t: Trace, n: nat, who: Saver)
    requires Ordered(t) && GivesLast(t, n, who) && who.Queued?
    requires OwesTheRest(t.ws[n + 1].sys) && W.Owed(t.ws[n + 1].sys) != []
    requires OwesTheRest(Last(t.ws).sys) && W.Owed(Last(t.ws).sys) == []
    ensures Last(t.ws).disk != [] && Holding(t.ws[n], who) == Some(Last(Last(t.ws).disk))
  {
    AcceptedLast(t.ws[n], t.acts[n], t.ws[n + 1], who);
    OwedLandsLast(t, n + 1);
  }

  lemma {:induction false} DirectStays(t: Trace, n: nat, who: Saver)
    requires Ordered(t) && GivesLast(t, n, who) && who.Direct? && t.ws[n + 1].sys == t.ws[n].sys
    requires OwesTheRest(t.ws[n].sys)
    requires OwesTheRest(Last(t.ws).sys) && W.Owed(Last(t.ws).sys) == [] && W.Increasing(Last(t.ws).sys.writes, |Last(t.ws).sys.accepted|)
    ensures Last(t.ws).disk != [] && (W.Owed(t.ws[n].sys) != [] ==> t.ws[n].sys.accepted != [])
    ensures if W.Owed(t.ws[n].sys) == [] then Holding(t.ws[n], who) == Some(Last(Last(t.ws).disk))
            else Last(Last(t.ws).disk) == Last(t.ws[n].sys.accepted)
  {
    assert Orders(t.ws[n], t.acts[n], t.ws[n + 1]);
    if W.Owed(t.ws[n].sys) != [] {
      OwedLandsLast(t, n + 1);
    } else {
      OnlyWorkerWrites(t, n + 1, |t.acts|, |t.acts|);
      NoneAfterNewest(t.ws[n].sys.writes, Last(t.ws).sys.writes, |t.ws[n].sys.accepted|);
    }
  }

  // Act `i` took the clone that stays, read off the state in which act `n` gives
  // the last one away.
  ghost predicate Stays(t: Trace, i: nat, n: nat, who: Saver)
    requires |t.acts| < |t.ws| && n < |t.acts|
  {
    if who.Direct? && W.Owed(t.ws[n].sys) != [] then
      exists j: nat, id: nat :: j < n && Gave(t, i, j, Queued(id)) && |t.ws[j].sys.accepted| + 1 == |t.ws[n].sys.accepted|
    else
      Cloned(t, i, n, who)
  }

  lemma {:induction false} AcceptedGrows(t: Trace, j: nat, n: nat)
    requires Ordered(t) && j <= n <= |t.acts|
    ensures t.ws[j].sys.accepted <= t.ws[n].sys.accepted
    decreases n
  {
    if j < n {
      AcceptedGrows(t, j, n - 1);
      assert Orders(t.ws[n - 1], t.acts[n - 1], t.ws[n]);
    }
  }

  lemma {:induction false} AcceptedAt(t: Trace, i: nat, j: nat, id: nat, n: nat)
    requires Moving(t) && Ordered(t) && j < n <= |t.acts| && Gave(t, i, j, Queued(id))
    ensures |t.ws[j].sys.accepted| < |t.ws[n].sys.accepted|
    ensures t.ws[n].sys.accepted[|t.ws[j].sys.accepted|] == t.ws[i].sys.settings
  {
    assert Orders(t.ws[j], t.acts[j], t.ws[j + 1]);
    AcceptedLast(t.ws[j], t.acts[j], t.ws[j + 1], Queued(id));
    var i1 := HeldSince(t, j, Queued(id));
    assert i1 == i;
    AcceptedGrows(t, j + 1, n);
  }

  lemma {:induction false} StandingClone(t: Trace, n: nat, who: Saver)
    requires Moving(t) && Ordered(t) && n < |t.acts| && Giver(t.ws[n], t.acts[n]) == Some(who)
    requires Holding(t.ws[n], who).Some? && (who.Direct? && W.Owed(t.ws[n].sys) != [] ==> t.ws[n].sys.accepted != [])
    ensures exists i: nat :: i < n && Stays(t, i, n, who)
    ensures forall i: nat | Stays(t, i, n, who) ::
              && i < n && Cloner(t.ws[i], t.acts[i]).Some?
              && t.ws[i].sys.settings ==
                 if who.Direct? && W.Owed(t.ws[n].sys) != [] then Last(t.ws[n].sys.accepted) else Holding(t.ws[n], who).value
  {
    if who.Direct? && W.Owed(t.ws[n].sys) != [] {
      var i, j, id := AcceptedFrom(t, n, |t.ws[n].sys.accepted| - 1);
      assert Stays(t, i, n, who);
      forall i1: nat, j1: nat, id1: nat | j1 < n && Gave(t, i1, j1, Queued(id1)) && |t.ws[j1].sys.accepted| + 1 == |t.ws[n].sys.accepted|
        ensures t.ws[i1].sys.settings == Last(t.ws[n].sys.accepted)
      {
        AcceptedAt(t, i1, j1, id1, n);
      }
    } else {
      var i := HeldSince(t, n, who);
      assert Stays(t, i, n, who);
      assert forall i1: nat | Cloned(t, i1, n, who) :: i1 == i;
    }
  }

  // So the newest clone given away stays exactly unless the settings changed after
  // the one that stays was taken, and a clone taken after that was given. Nothing
  // past act `n` is looked at.
  lemma {:induction false} NewestStaysExactlyUnlessOvertaken(t: Trace, n: nat, who: Saver)
    requires IsRun(t) && GivesLast(t, n, who) && W.Stopped(Last(t.ws).sys)
    ensures Last(t.ws).disk != []
    ensures Overtaken(Last(t.ws).given, Last(Last(t.ws).disk)) <==>
            exists i: nat, m: nat, k: nat, j: nat, other :: Stays(t, i, n, who) && OvertakesBy(t, i, m, k, j, n, other)
  {
    LastGivenStaysExactlyUnlessOwed(t, n, who);
    RunMoves(t);
    RunOrdered(t);
    OvertakenAtLast(t, n, who, Last(Last(t.ws).disk));
  }

  // Up to act `n` itself.
  predicate OvertakesBy(t: Trace, i: nat, m: nat, k: nat, j: nat, n: nat, other: Saver)
    requires |t.acts| < |t.ws|
  {
    Overtakes(t, i, m, k, j, n + 1, other)
  }

  lemma {:induction false} OvertakenBy(t: Trace, i: nat, n: nat)
    requires Moving(t) && i < n < |t.acts| && Cloner(t.ws[i], t.acts[i]).Some?
    ensures Overtaken(t.ws[n + 1].given, t.ws[i].sys.settings) <==>
            exists m: nat, k: nat, j: nat, other :: OvertakesBy(t, i, m, k, j, n, other)
  {
    var after := n + 1;
    OvertakenSinceClone(t, i, after);
    if m: nat, k: nat, j: nat, other :| Overtakes(t, i, m, k, j, after, other) {
      assert OvertakesBy(t, i, m, k, j, n, other);
    }
    if m: nat, k: nat, j: nat, other :| OvertakesBy(t, i, m, k, j, n, other) {
      assert Overtakes(t, i, m, k, j, after, other);
    }
  }

  lemma {:induction false} OvertakenAtLast(t: Trace, n: nat, who: Saver, stays: W.Snapshot)
    requires Moving(t) && Ordered(t) && n < |t.acts| && Giver(t.ws[n], t.acts[n]) == Some(who)
    requires Holding(t.ws[n], who).Some? && (who.Direct? && W.Owed(t.ws[n].sys) != [] ==> t.ws[n].sys.accepted != [])
    requires stays ==
             if who.Direct? && W.Owed(t.ws[n].sys) != [] then Last(t.ws[n].sys.accepted) else Holding(t.ws[n], who).value
    ensures Overtaken(t.ws[n + 1].given, stays) <==>
            exists i: nat, m: nat, k: nat, j: nat, other :: Stays(t, i, n, who) && OvertakesBy(t, i, m, k, j, n, other)
  {
    StandingClone(t, n, who);
    forall i: nat | Stays(t, i, n, who)
      ensures Overtaken(t.ws[n + 1].given, stays) <==>
              exists m: nat, k: nat, j: nat, other :: OvertakesBy(t, i, m, k, j, n, other)
    {
      OvertakenBy(t, i, n);
    }
  }

  // ----- savers that do not overlap -----

  // Nobody clones the settings while another's clone is still held.
  ghost predicate Serial(t: Trace) {
    |t.acts| < |t.ws| && forall n, who, other | 0 <= n < |t.acts| && Cloner(t.ws[n], t.acts[n]) == Some(who) :: Holding(t.ws[n], other).None?
  }

  ghost predicate VersionsOrdered(given: seq<W.Snapshot>) {
    forall p, q | 0 <= p < q < |given| :: given[p].version <= given[q].version
  }

  // Savers that do not overlap give their clones away in the order of their
  // versions, so the last one given is always the newest.
  lemma {:induction false} SerialSavesKeepVersionOrder(t: Trace, n: nat)
    requires IsRun(t) && Serial(t) && n <= |t.acts|
    ensures VersionsOrdered(t.ws[n].given)
  {
    RunMoves(t);
    SerialKeeps(t, n);
  }

  lemma {:induction false} SerialKeeps(t: Trace, n: nat)
    requires Moving(t) && Serial(t) && n <= |t.acts|
    ensures VersionsOrdered(t.ws[n].given)
    decreases n
  {
    if n > 0 {
      SerialKeeps(t, n - 1);
      assert Moves(t.ws[n - 1], t.acts[n - 1], t.ws[n]);
      if Giver(t.ws[n - 1], t.acts[n - 1]).Some? {
        NobodyOvertakes(t, n - 1, Giver(t.ws[n - 1], t.acts[n - 1]).value);
      }
    }
  }

  lemma {:induction false} NobodyOvertakes(t: Trace, n: nat, who: Saver)
    requires Moving(t) && Serial(t) && n <= |t.acts| && Holding(t.ws[n], who).Some?
    ensures !Overtaken(t.ws[n].given, Holding(t.ws[n], who).value)
  {
    var i := HeldSince(t, n, who);
    OvertakenSinceClone(t, i, n);
    if m: nat, k: nat, j: nat, other :| Overtakes(t, i, m, k, j, n, other) {
      assert false;
    }
  }

  // ----- older settings left on disk -----

  lemma {:induction false} Extend(t: Trace, act: Act, w: World) returns (t1: Trace)
    requires IsRun(t) && w == Next(Last(t.ws), act)
    ensures IsRun(t1) && t1.acts == t.acts + [act] && t1.ws == t.ws + [w]
  {
    t1 := Trace(t.acts + [act], t.ws + [w]);
    forall n | 0 <= n < |t1.acts|
      ensures Steps(t1, n)
    {
      if n < |t.acts| {
        assert Steps(t, n);
        assert t1.ws[n] == t.ws[n] && t1.ws[n + 1] == t.ws[n + 1];
      }
    }
  }

  // The state once a saver's three steps have run.
  function AfterSaver(s: W.Sys, id: nat): W.Sys
    requires id in s.savers && s.savers[id].Snapped?
  {
    s.(started := true, accepted := s.accepted + [s.savers[id].snapshot], slot := Some(|s.accepted|),
       savers := s.savers[id := W.Saved], handle := true, worker := if s.handle then s.worker else W.Waiting)
  }

  lemma {:induction false} SaverHands(t: Trace, id: nat) returns (t1: Trace)
    requires IsRun(t)
    requires var s := Last(t.ws).sys; id in s.savers && s.savers[id].Snapped? && s.lock.None? && !s.stop
    ensures var w := Last(t.ws); var s := w.sys; var snapshot := s.savers[id].snapshot;
      && IsRun(t1) && t1.acts == t.acts + [Do(W.SaverStep(id)), Do(W.SaverStep(id))]
      && |t1.ws| == |t.ws| + 2 && t.ws <= t1.ws && GivesLast(t1, |t.acts| + 1, Queued(id))
      && Last(t1.ws) == World(AfterSaver(s, id).(lock := Some(id), handle := s.handle, worker := s.worker,
                                                 savers := s.savers[id := W.HandedOff(true)]),
                              w.direct, w.given + [snapshot], w.disk)
  {
    var w := Last(t.ws);
    var s, snapshot := w.sys, w.sys.savers[id].snapshot;
    var s1 := s.(started := true, lock := Some(id), savers := s.savers[id := W.Locked(snapshot)]);
    t1 := Extend(t, Do(W.SaverStep(id)), w.(sys := s1));
    var s2 := s1.(accepted := s.accepted + [snapshot], slot := Some(|s.accepted|), savers := s.savers[id := W.HandedOff(true)]);
    t1 := Extend(t1, Do(W.SaverStep(id)), World(s2, w.direct, w.given + [snapshot], w.disk));
  }

  lemma {:induction false} SaverRuns(t: Trace, id: nat) returns (t1: Trace)
    requires IsRun(t)
    requires var s := Last(t.ws).sys; id in s.savers && s.savers[id].Snapped? && s.lock.None? && !s.stop
    ensures var w := Last(t.ws);
      && IsRun(t1) && t1.acts == t.acts + [Do(W.SaverStep(id)), Do(W.SaverStep(id)), Do(W.SaverStep(id))]
      && |t1.ws| == |t.ws| + 3 && t.ws <= t1.ws && GivesLast(t1, |t.acts| + 1, Queued(id))
      && Last(t1.ws) == World(AfterSaver(w.sys, id), w.direct, w.given + [w.sys.savers[id].snapshot], w.disk)
  {
    var w := Last(t.ws);
    t1 := SaverHands(t, id);
    t1 := Extend(t1, Do(W.SaverStep(id)), World(AfterSaver(w.sys, id), w.direct, w.given + [w.sys.savers[id].snapshot], w.disk));
  }

  lemma {:induction false} DirectSaves(t: Trace, id: nat) returns (t1: Trace)
    requires IsRun(t) && id !in Last(t.ws).direct
    ensures var w := Last(t.ws); var settings := w.sys.settings;
      && IsRun(t1) && t1.acts == t.acts + [CallDirect(id), DirectWrite(id)]
      && t1.ws == t.ws + [w.(direct := w.direct[id := settings]), World(w.sys, w.direct, w.given + [settings], w.disk + [settings])]
      && GivesLast(t1, |t.acts| + 1, Direct(id))
  {
    var w := Last(t.ws);
    var settings := w.sys.settings;
    assert w.direct[id := settings] - {id} == w.direct;
    t1 := Extend(t, CallDirect(id), w.(direct := w.direct[id := settings]));
    t1 := Extend(t1, DirectWrite(id), World(w.sys, w.direct, w.given + [settings], w.disk + [settings]));
  }

  lemma {:induction false} WorkerTakes(t: Trace) returns (t1: Trace)
    requires IsRun(t) && Last(t.ws).sys.worker.Waiting? && Last(t.ws).sys.slot.Some?
    ensures var w := Last(t.ws);
      && IsRun(t1) && t1.acts == t.acts + [Do(W.WorkerStep)]
      && t1.ws == t.ws + [w.(sys := w.sys.(slot := None, worker := W.Writing(w.sys.slot.value)))]
  {
    var w := Last(t.ws);
    t1 := Extend(t, Do(W.WorkerStep), w.(sys := w.sys.(slot := None, worker := W.Writing(w.sys.slot.value))));
  }

  lemma {:induction false} WorkerPuts(t: Trace) returns (t1: Trace)
    requires IsRun(t) && Last(t.ws).sys.worker.Writing? && Last(t.ws).sys.worker.index < |Last(t.ws).sys.accepted|
    ensures var w := Last(t.ws); var s := w.sys;
      && IsRun(t1) && t1.acts == t.acts + [Do(W.WorkerStep)]
      && t1.ws == t.ws + [World(s.(worker := W.Waiting, writes := s.writes + [s.worker.index]), w.direct, w.given,
                                w.disk + [s.accepted[s.worker.index]])]
  {
    var w := Last(t.ws);
    var s := w.sys;
    t1 := Extend(t, Do(W.WorkerStep),
                 World(s.(worker := W.Waiting, writes := s.writes + [s.worker.index]), w.direct, w.given,
                       w.disk + [s.accepted[s.worker.index]]));
  }

  // The state once a shutdown has stopped and joined a worker that owes nothing.
  function AfterStop(s: W.Sys): W.Sys {
    s.(stop := true, setter := Some(0), handle := false, worker := W.Exited, stoppers := map[0 := W.Returned])
  }

  const STOPPING: seq<Act> := [
    Do(W.CallShutdown(0)), Do(W.StopperStep(0)), Do(W.StopperStep(0)), Do(W.WorkerStep), Do(W.StopperStep(0))]

  lemma {:induction false} StopIsSet(t: Trace) returns (t1: Trace)
    requires IsRun(t)
    requires var s := Last(t.ws).sys; s.stoppers == map[] && s.started && !s.stop && s.lock.None? && s.handle
    ensures var w := Last(t.ws);
      && IsRun(t1) && t1.acts == t.acts + STOPPING[..3] && |t1.ws| == |t.ws| + 3 && t.ws <= t1.ws
      && Last(t1.ws) == w.(sys := w.sys.(stop := true, setter := Some(0), handle := false, stoppers := map[0 := W.Joining]))
  {
    var w := Last(t.ws);
    var s1 := w.sys.(stoppers := map[0 := W.Begin]);
    t1 := Extend(t, STOPPING[0], w.(sys := s1));
    var s2 := s1.(stop := true, setter := Some(0), stoppers := map[0 := W.AwaitHandle]);
    t1 := Extend(t1, STOPPING[1], w.(sys := s2));
    t1 := Extend(t1, STOPPING[2], w.(sys := s2.(handle := false, stoppers := map[0 := W.Joining])));
  }

  lemma {:induction false} StopRuns(t: Trace) returns (t1: Trace)
    requires IsRun(t)
    requires var s := Last(t.ws).sys;
      s.stoppers == map[] && s.started && !s.stop && s.lock.None? && s.handle && s.worker.Waiting? && s.slot.None?
    ensures var w := Last(t.ws);
      IsRun(t1) && t1.acts == t.acts + STOPPING && |t1.ws| == |t.ws| + 5 && t.ws <= t1.ws && Last(t1.ws) == w.(sys := AfterStop(w.sys))
  {
    t1 := StopIsSet(t);
    var w := Last(t1.ws);
    var s := w.sys.(worker := W.Exited);
    t1 := Extend(t1, STOPPING[3], w.(sys := s));
    t1 := Extend(t1, STOPPING[4], w.(sys := s.(stoppers := map[0 := W.Returned])));
  }

  const OLDER := W.Snapshot("settings.json", "", 0)
  const NEWER := W.Snapshot("settings.json", "dark", 1)

  const SNAPPED := INITIAL.(sys := W.Initial().(settings := OLDER, savers := map[0 := W.Snapped(OLDER)]))

  lemma {:induction false} OneClones() returns (t: Trace)
    ensures IsRun(t) && t.acts == [Do(W.Init("settings.json")), Do(W.CallSave(0))] && |t.ws| == 3 && Last(t.ws) == SNAPPED
  {
    t := Trace([], [INITIAL]);
    t := Extend(t, Do(W.Init("settings.json")), INITIAL.(sys := W.Initial().(settings := OLDER)));
    t := Extend(t, Do(W.CallSave(0)), SNAPPED);
  }

  // The exit's own save writes the newest settings while the worker is still
  // writing older ones, which then stay.
  const EXITING: seq<Act> := [
    Do(W.Init("settings.json")), Do(W.CallSave(0)), Do(W.SaverStep(0)), Do(W.SaverStep(0)), Do(W.SaverStep(0)),
    Do(W.WorkerStep), Do(W.Change("dark")), CallDirect(0), DirectWrite(0), Do(W.WorkerStep)]

  const EXIT := AfterSaver(SNAPPED.sys, 0).(settings := NEWER, slot := None, worker := W.Writing(0))

  lemma {:induction false} ExitTakes() returns (t: Trace)
    ensures IsRun(t) && |t.ws| == 8 && t.acts == EXITING[..7]
    ensures Last(t.ws) == World(EXIT, map[], [OLDER], [])
  {
    t := OneClones();
    t := SaverRuns(t, 0);
    t := WorkerTakes(t);
    t := Extend(t, Do(W.Change("dark")), World(EXIT, map[], [OLDER], []));
  }

  lemma {:induction false} ExitSaveCanBeOverwritten() returns (t: Trace)
    ensures IsRun(t) && t.acts == EXITING + STOPPING
    ensures GivesLast(t, 8, Direct(0)) && W.Owed(t.ws[8].sys) == [0]
    ensures var w := Last(t.ws);
      W.Stopped(w.sys) && w.disk == [NEWER, OLDER] && w.sys.settings == NEWER && Overtaken(w.given, Last(w.disk))
  {
    t := ExitTakes();
    t := DirectSaves(t, 0);
    t := WorkerPuts(t);
    t := StopRuns(t);
    assert Last(t.ws).given[1].version > OLDER.version;
  }

  // Without a save at exit too: the first saver clones, the settings change, a
  // second saver's clone is accepted, then the first's, which alone is written.
  const OVERTAKING: seq<Act> := [
    Do(W.Init("settings.json")), Do(W.CallSave(0)), Do(W.Change("dark")), Do(W.CallSave(1)),
    Do(W.SaverStep(1)), Do(W.SaverStep(1)), Do(W.SaverStep(1)), Do(W.SaverStep(0)), Do(W.SaverStep(0)), Do(W.SaverStep(0)),
    Do(W.WorkerStep), Do(W.WorkerStep)]

  lemma {:induction false} BothClone() returns (t: Trace)
    ensures IsRun(t) && |t.ws| == 5 && t.acts == OVERTAKING[..4]
    ensures Last(t.ws) == SNAPPED.(sys := SNAPPED.sys.(settings := NEWER, savers := map[0 := W.Snapped(OLDER), 1 := W.Snapped(NEWER)]))
  {
    t := OneClones();
    var s := SNAPPED.sys.(settings := NEWER);
    t := Extend(t, Do(W.Change("dark")), SNAPPED.(sys := s));
    t := Extend(t, Do(W.CallSave(1)), SNAPPED.(sys := s.(savers := map[0 := W.Snapped(OLDER), 1 := W.Snapped(NEWER)])));
  }

  lemma {:induction false} BothSave() returns (t: Trace)
    ensures IsRun(t) && |t.ws| == 11 && t.acts == OVERTAKING[..10] && GivesLast(t, 8, Queued(0))
    ensures var w := Last(t.ws); var s := w.sys;
      && w.given == [NEWER, OLDER] && w.disk == []
      && s.accepted == [NEWER, OLDER] && s.slot == Some(1) && s.settings == NEWER && s.stoppers == map[] && s.started
      && !s.stop && s.lock.None? && s.handle && s.worker.Waiting? && s.writes == []
  {
    t := BothClone();
    t := SaverRuns(t, 1);
    t := SaverRuns(t, 0);
  }

  lemma {:induction false} OlderCanStay() returns (t: Trace)
    ensures IsRun(t) && t.acts == OVERTAKING + STOPPING && GivesLast(t, 8, Queued(0))
    ensures var w := Last(t.ws);
      W.Stopped(w.sys) && w.disk == [OLDER] && w.sys.settings == NEWER && Overtaken(w.given, Last(w.disk))
  {
    t := BothSave();
    t := WorkerTakes(t);
    t := WorkerPuts(t);
    t := StopRuns(t);
    assert Last(t.ws).given[0].version > OLDER.version;
  }
}
