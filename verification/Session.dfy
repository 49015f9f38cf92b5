// The CEF session: one state machine for dispatch admission, overlay
// registration and revocation, and the two shutdown paths that run over it from
// any number of threads.
module Session {
  import opened Wrappers

  datatype Phase = Active(overlay: bool) | Closing | Drained

  // `inFlight` counts the permits; `bodies` are the dispatch bodies running, a
  // thread once per level of nesting.
  datatype Session = Session(phase: Phase, inFlight: nat, bodies: multiset<nat>)

  function New(): Session {
    Session(Active(false), 0, multiset{})
  }

  function RegisterOverlay(s: Session): (Session, bool) {
    if s.phase == Active(false) then (s.(phase := Active(true)), true) else (s, false)
  }

  // Takes a permit and enters the body; `None` is a refused dispatch.
  function Enter(s: Session, thread: nat): Option<Session> {
    if s.phase.Active? then Some(s.(inFlight := s.inFlight + 1, bodies := s.bodies + multiset{thread})) else None
  }

  // Leaves the body and drops its permit.
  function Leave(s: Session, thread: nat): Session
    requires thread in s.bodies && s.inFlight > 0
  {
    s.(inFlight := s.inFlight - 1, bodies := s.bodies - multiset{thread})
  }

  function Revoke(s: Session): Session {
    s.(phase := if s.phase == Active(false) || s.phase.Drained? then Drained else Closing)
  }

  function FinishDrain(s: Session): Session {
    s.(phase := Drained)
  }

  predicate IsDrained(s: Session) {
    s.phase.Drained? || s.phase == Active(false)
  }

  function Rank(p: Phase): nat {
    match p
    case Active(false) => 0
    case Active(true) => 1
    case Closing => 2
    case Drained => 3
  }

  // ----- the threads that shut down -----

  datatype Error = WrongThread | ConcurrentClose | Timeout | CloseFailed

  // `close_blocking`, between its atomic steps; `Done` carries its result.
  datatype Closer =
    | Start
    | TryLock
    | Recheck
    | RevokeFirst
    | AwaitIdle
    | RevokeAgain
    | CloseBody
    | SetDrained
    | Done(error: Option<Error>)

  // `try_shutdown`.
  datatype Stopper = Begin | AwaitQuiet | StopReady | CheckDrained | Native | Finished(ok: bool)

  // `everRegistered` and `closedOk` are histories; `shutdowns` counts native
  // shutdowns.
  datatype Sys = Sys(
    session: Session, closers: map<nat, Closer>, holder: Option<nat>, stopper: Stopper, complete: bool,
    everRegistered: bool, closedOk: bool, shutdowns: nat)

  datatype Step =
    | Dispatch(thread: nat)
    | Return(thread: nat)
    | Register
    | RevokeNow
    | CallClose(closer: nat)
    | CloserStep(closer: nat, onUi: bool, timedOut: bool, closeOk: bool)
    | CallShutdown
    | StopperStep(timedOut: bool)

  function Initial(): Sys {
    Sys(New(), map[], None, Finished(false), false, false, false, 0)
  }

  // Where a closer's next step takes it, and what it does to the session, the
  // close lock and the history.
  datatype Move = Move(next: Closer, session: Session, holder: Option<nat>, closedOk: bool)

  function CloserMove(s: Sys, closer: nat, c: Closer, onUi: bool, timedOut: bool, closeOk: bool): Move {
    var stay := Move(c, s.session, s.holder, s.closedOk);
    var leave := stay.(holder := if s.holder == Some(closer) then None else s.holder);
    match c
    case Start => stay.(next := if IsDrained(s.session) then Done(None) else TryLock)
    case TryLock =>
      if s.holder.Some? then stay.(next := Done(Some(ConcurrentClose))) else stay.(next := Recheck, holder := Some(closer))
    case Recheck =>
      if IsDrained(s.session) then leave.(next := Done(None))
      else if onUi then leave.(next := Done(Some(WrongThread)))
      else stay.(next := RevokeFirst)
    case RevokeFirst => stay.(next := AwaitIdle, session := Revoke(s.session))
    case AwaitIdle =>
      if s.session.inFlight == 0 then stay.(next := RevokeAgain)
      else if timedOut then leave.(next := Done(Some(Timeout)))
      else stay
    case RevokeAgain => stay.(next := CloseBody, session := Revoke(s.session))
    case CloseBody => if closeOk then stay.(next := SetDrained, closedOk := true) else leave.(next := Done(Some(CloseFailed)))
    case SetDrained => leave.(next := Done(None), session := FinishDrain(s.session))
    case Done(_) => stay
  }

  function AdvanceCloser(s: Sys, closer: nat, onUi: bool, timedOut: bool, closeOk: bool): Sys
    requires closer in s.closers
  {
    var move := CloserMove(s, closer, s.closers[closer], onUi, timedOut, closeOk);
    s.(closers := s.closers[closer := move.next], session := move.session, holder := move.holder, closedOk := move.closedOk)
  }

  function AdvanceStopper(s: Sys, timedOut: bool): Sys {
    match s.stopper
    case Begin => if s.complete then s.(stopper := Finished(true)) else s.(stopper := AwaitQuiet, session := Revoke(s.session))
    case AwaitQuiet =>
      if s.session.inFlight == 0 then s.(stopper := StopReady)
      else if timedOut then s.(stopper := Finished(false))
      else s
    case StopReady => s.(stopper := CheckDrained)
    case CheckDrained => s.(stopper := if IsDrained(s.session) then Native else Finished(false))
    case Native => s.(stopper := Finished(true), complete := true, shutdowns := s.shutdowns + 1)
    case Finished(_) => s
  }

  function Next(s: Sys, step: Step): Sys {
    match step
    case Dispatch(thread) =>
      (match Enter(s.session, thread)
       case Some(session) => s.(session := session)
       case None => s)
    case Return(thread) =>
      if thread in s.session.bodies && s.session.inFlight > 0 then s.(session := Leave(s.session, thread)) else s
    case Register =>
      var (session, registered) := RegisterOverlay(s.session);
      s.(session := session, everRegistered := s.everRegistered || registered)
    case RevokeNow => s.(session := Revoke(s.session))
    // Only a registered overlay has a handle to close with.
    case CallClose(closer) =>
      if s.everRegistered && (closer in s.closers ==> s.closers[closer].Done?) then s.(closers := s.closers[closer := Start]) else s
    case CloserStep(closer, onUi, timedOut, closeOk) =>
      if closer in s.closers then AdvanceCloser(s, closer, onUi, timedOut, closeOk) else s
    case CallShutdown => if s.stopper.Finished? then s.(stopper := Begin) else s
    case StopperStep(timedOut) => AdvanceStopper(s, timedOut)
  }

  function Run(s: Sys, steps: seq<Step>): Sys
    decreases |steps|
  {
    if steps == [] then s else Next(Run(s, steps[..|steps| - 1]), steps[|steps| - 1])
  }

  // ----- invariant -----

  // No dispatch body is running and none can start.
  predicate Quiescent(s: Session) {
    !s.phase.Active? && s.inFlight == 0
  }

  // What native shutdown needs: everything drained, nobody inside, and a
  // browser close that was confirmed if there was ever a browser to close.
  predicate SafeToStop(s: Sys) {
    s.session.phase.Drained? && s.session.inFlight == 0 && (s.everRegistered ==> s.closedOk)
  }

  // A permit is exactly a running body; the phase remembers registration, and
  // is drained only once a registered overlay's close was confirmed.
  ghost predicate SessionInv(s: Sys) {
    && s.session.inFlight == |s.session.bodies|
    && (s.session.phase == Active(false) ==> !s.everRegistered)
    && (s.session.phase == Active(true) || s.session.phase.Closing? ==> s.everRegistered)
    && (s.session.phase.Drained? && s.everRegistered ==> s.closedOk)
  }

  predicate Holding(c: Closer) {
    c.Recheck? || c.RevokeFirst? || c.AwaitIdle? || c.RevokeAgain? || c.CloseBody? || c.SetDrained?
  }

  // A closer past its revocation never sees the session active again, and past
  // its wait never sees a body again; and it alone holds the close lock.
  predicate CloserInv(s: Sys, id: nat, c: Closer) {
    && (c.AwaitIdle? ==> !s.session.phase.Active?)
    && (c.RevokeAgain? || c.CloseBody? || c.SetDrained? ==> Quiescent(s.session))
    && (c.SetDrained? ==> s.closedOk)
    && (Holding(c) ==> s.holder == Some(id))
    && (!c.Done? ==> s.everRegistered)
  }

  predicate StopperInv(s: Sys) {
    && (s.stopper.AwaitQuiet? ==> !s.session.phase.Active?)
    && (s.stopper.StopReady? || s.stopper.CheckDrained? ==> Quiescent(s.session))
    && (s.stopper.Native? ==> SafeToStop(s))
    && (s.stopper.AwaitQuiet? || s.stopper.StopReady? || s.stopper.CheckDrained? || s.stopper.Native? ==> !s.complete)
    && s.shutdowns == (if s.complete then 1 else 0)
    && (s.complete ==> SafeToStop(s))
  }

  ghost predicate Inv(s: Sys) {
    && SessionInv(s)
    && (forall id | id in s.closers :: CloserInv(s, id, s.closers[id]))
    && StopperInv(s)
  }

  // What no step takes back.
  predicate Onward(s: Sys, s1: Sys) {
    && Rank(s.session.phase) <= Rank(s1.session.phase)
    && (s.everRegistered ==> s1.everRegistered)
    && (s.closedOk ==> s1.closedOk)
    && (!s.session.phase.Active? ==> !s1.session.phase.Active? && s1.everRegistered == s.everRegistered)
    && (Quiescent(s.session) ==> Quiescent(s1.session))
    && (s.complete ==> s1.complete)
  }

  lemma {:induction false} LeaveCounts(s: Session, thread: nat)
    requires s.inFlight == |s.bodies| && thread in s.bodies
    ensures s.inFlight > 0 && Leave(s, thread).inFlight == |Leave(s, thread).bodies|
  {
    assert |s.bodies - multiset{thread}| == |s.bodies| - 1;
  }

  // The session's own steps.
  lemma {:induction false} SessionStepKeeps(s: Sys, step: Step)
    requires Inv(s)
    requires step.Dispatch? || step.Return? || step.Register? || step.RevokeNow?
    ensures Inv(Next(s, step)) && Onward(s, Next(s, step))
  {
    if step.Return? && step.thread in s.session.bodies {
      LeaveCounts(s.session, step.thread);
    }
    var s1 := Next(s, step);
    forall id | id in s1.closers
      ensures CloserInv(s1, id, s1.closers[id])
    {
      assert CloserInv(s, id, s.closers[id]);
    }
  }

  lemma {:induction false} CloserStays(s: Sys, s1: Sys, id: nat, c: Closer)
    requires CloserInv(s, id, c) && Onward(s, s1)
    requires s.holder == Some(id) ==> s1.holder == Some(id)
    ensures CloserInv(s1, id, c)
  {
  }

  lemma {:induction false} CloserMovesSession(s: Sys, closer: nat, onUi: bool, timedOut: bool, closeOk: bool)
    requires SessionInv(s) && StopperInv(s) && closer in s.closers && CloserInv(s, closer, s.closers[closer])
    ensures var s1 := AdvanceCloser(s, closer, onUi, timedOut, closeOk);
      SessionInv(s1) && StopperInv(s1) && Onward(s, s1)
  {
  }

  lemma {:induction false} CloserMovesItself(s: Sys, closer: nat, onUi: bool, timedOut: bool, closeOk: bool)
    requires SessionInv(s) && closer in s.closers && CloserInv(s, closer, s.closers[closer])
    ensures var s1 := AdvanceCloser(s, closer, onUi, timedOut, closeOk);
      closer in s1.closers && CloserInv(s1, closer, s1.closers[closer])
  {
  }

  // The others' places are left alone, and the lock is taken only when free.
  lemma {:induction false} CloserLeavesOthers(s: Sys, closer: nat, onUi: bool, timedOut: bool, closeOk: bool, id: nat)
    requires closer in s.closers && id != closer
    requires Holding(s.closers[closer]) ==> s.holder == Some(closer)
    ensures var s1 := AdvanceCloser(s, closer, onUi, timedOut, closeOk);
      && (id in s1.closers <==> id in s.closers)
      && (id in s.closers ==> s1.closers[id] == s.closers[id])
      && (s.holder == Some(id) ==> s1.holder == Some(id))
  {
  }

  lemma {:induction false} CloserStepKeeps(s: Sys, closer: nat, onUi: bool, timedOut: bool, closeOk: bool)
    requires Inv(s) && closer in s.closers
    ensures Inv(AdvanceCloser(s, closer, onUi, timedOut, closeOk))
    ensures Onward(s, AdvanceCloser(s, closer, onUi, timedOut, closeOk))
  {
    var s1 := AdvanceCloser(s, closer, onUi, timedOut, closeOk);
    CloserMovesSession(s, closer, onUi, timedOut, closeOk);
    CloserMovesItself(s, closer, onUi, timedOut, closeOk);
    forall id | id in s1.closers
      ensures CloserInv(s1, id, s1.closers[id])
    {
      if id != closer {
        CloserLeavesOthers(s, closer, onUi, timedOut, closeOk, id);
        assert CloserInv(s, id, s.closers[id]);
        CloserStays(s, s1, id, s.closers[id]);
      }
    }
  }

  lemma {:induction false} CallCloseKeeps(s: Sys, closer: nat)
    requires Inv(s)
    ensures Inv(Next(s, CallClose(closer))) && Onward(s, Next(s, CallClose(closer)))
  {
    var s1 := Next(s, CallClose(closer));
    forall id | id in s1.closers
      ensures CloserInv(s1, id, s1.closers[id])
    {
      assert id in s.closers ==> CloserInv(s, id, s.closers[id]);
    }
  }

  lemma {:induction false} StopperMoves(s: Sys, step: Step)
    requires SessionInv(s) && StopperInv(s) && (step.CallShutdown? || step.StopperStep?)
    ensures var s1 := Next(s, step);
      && SessionInv(s1) && StopperInv(s1) && Onward(s, s1)
      && s1.closers == s.closers && s1.holder == s.holder
  {
  }

  lemma {:induction false} StopperStepKeeps(s: Sys, step: Step)
    requires Inv(s) && (step.CallShutdown? || step.StopperStep?)
    ensures Inv(Next(s, step)) && Onward(s, Next(s, step))
  {
    var s1 := Next(s, step);
    StopperMoves(s, step);
    forall id | id in s1.closers
      ensures CloserInv(s1, id, s1.closers[id])
    {
      CloserStays(s, s1, id, s.closers[id]);
    }
  }

  lemma {:induction false} NextKeeps(s: Sys, step: Step)
    requires Inv(s)
    ensures Inv(Next(s, step)) && Onward(s, Next(s, step))
  {
    match step
    case CallClose(closer) => CallCloseKeeps(s, closer);
    case CloserStep(closer, onUi, timedOut, closeOk) =>
      if closer in s.closers { CloserStepKeeps(s, closer, onUi, timedOut, closeOk); }
    case CallShutdown => StopperStepKeeps(s, step);
    case StopperStep(_) => StopperStepKeeps(s, step);
    case _ => SessionStepKeeps(s, step);
  }

  lemma {:induction false} RunKeeps(s: Sys, steps: seq<Step>)
    requires Inv(s)
    ensures Inv(Run(s, steps)) && Onward(s, Run(s, steps))
    decreases |steps|
  {
    if steps != [] {
      RunKeeps(s, steps[..|steps| - 1]);
      NextKeeps(Run(s, steps[..|steps| - 1]), steps[|steps| - 1]);
    }
  }

  // ----- results -----

  // In every run the count is the permits outstanding, under any nesting, and
  // the phase never moves backwards.
  lemma {:induction false} PermitsAreBodies(steps: seq<Step>, more: seq<Step>)
    ensures var s := Run(Initial(), steps);
      && s.session.inFlight == |s.session.bodies|
      && Rank(s.session.phase) <= Rank(Run(s, more).session.phase)
  {
    RunKeeps(Initial(), steps);
    RunKeeps(Run(Initial(), steps), more);
  }

  // A successful `revoke_until`: the closer or the stopper that comes out of its
  // wait without an error. From then on, in every run, no dispatch body is
  // running and none starts.
  lemma {:induction false} RevokedIsQuiet(steps: seq<Step>, more: seq<Step>)
    requires var s := Run(Initial(), steps);
      s.stopper.StopReady? || exists id :: id in s.closers && s.closers[id].RevokeAgain?
    ensures var s := Run(Run(Initial(), steps), more);
      s.session.bodies == multiset{} && forall thread :: Enter(s.session, thread).None?
  {
    RunKeeps(Initial(), steps);
    var s := Run(Initial(), steps);
    if !s.stopper.StopReady? {
      var id :| id in s.closers && s.closers[id].RevokeAgain?;
      assert CloserInv(s, id, s.closers[id]);
    }
    RunKeeps(s, more);
  }

  // Native shutdown happens at most once, only when the session is drained with
  // no permit outstanding, and, if an overlay was ever registered, after some
  // close was confirmed; and nothing enters the session afterwards.
  lemma {:induction false} ShutdownIsSafe(steps: seq<Step>, more: seq<Step>)
    ensures var s := Run(Initial(), steps);
      && s.shutdowns <= 1
      && (s.stopper.Native? || s.shutdowns == 1 ==>
            SafeToStop(s) && s.session.bodies == multiset{} && SafeToStop(Run(s, more)))
  {
    RunKeeps(Initial(), steps);
    var s := Run(Initial(), steps);
    RunKeeps(s, more);
  }

  // The close body runs for one closer at a time, with no dispatch beside it.
  lemma {:induction false} ClosersExclude(steps: seq<Step>, a: nat, b: nat)
    requires var s := Run(Initial(), steps);
      a in s.closers && b in s.closers && s.closers[a].CloseBody? && Holding(s.closers[b])
    ensures a == b && Run(Initial(), steps).session.bodies == multiset{}
  {
    RunKeeps(Initial(), steps);
    var s := Run(Initial(), steps);
    assert CloserInv(s, a, s.closers[a]) && CloserInv(s, b, s.closers[b]);
  }

  // A failed close leaves the session closing, for a retry to finish; only a
  // confirmed one drains it.
  lemma {:induction false} DrainedMeansClosed(steps: seq<Step>)
    ensures var s := Run(Initial(), steps);
      s.everRegistered && !s.closedOk ==> s.session.phase == Active(true) || s.session.phase.Closing?
  {
    RunKeeps(Initial(), steps);
  }

  // ----- what each call comes to -----

  // A closer, or the shutdown, taking steps of its own with nobody else moving.
  function CloserAlone(s: Sys, closer: nat, onUi: bool, timedOut: bool, closeOk: bool, n: nat): Sys
    decreases n
  {
    if n == 0 then s else CloserAlone(Next(s, CloserStep(closer, onUi, timedOut, closeOk)), closer, onUi, timedOut, closeOk, n - 1)
  }

  function StopperAlone(s: Sys, timedOut: bool, n: nat): Sys
    decreases n
  {
    if n == 0 then s else StopperAlone(Next(s, StopperStep(timedOut)), timedOut, n - 1)
  }

  // What `close_blocking` answers, by what it finds.
  function CloseAnswer(s: Sys, onUi: bool, timedOut: bool, closeOk: bool): Option<Error> {
    if s.session.phase.Drained? then None
    else if s.holder.Some? then Some(ConcurrentClose)
    else if onUi then Some(WrongThread)
    else if s.session.inFlight > 0 && timedOut then Some(Timeout)
    else if !closeOk then Some(CloseFailed)
    else None
  }

  lemma {:induction false} DoneStays(s: Sys, closer: nat, onUi: bool, timedOut: bool, closeOk: bool, n: nat)
    requires closer in s.closers && s.closers[closer].Done?
    ensures CloserAlone(s, closer, onUi, timedOut, closeOk, n) == s
    decreases n
  {
    if n > 0 {
      assert s.closers[closer := s.closers[closer]] == s.closers;
      DoneStays(s, closer, onUi, timedOut, closeOk, n - 1);
    }
  }

  // One closer's step seen from outside: its own place and what it may move.
  lemma {:induction false} CloserGoes(s: Sys, closer: nat, onUi: bool, timedOut: bool, closeOk: bool, move: Move, n: nat)
    requires closer in s.closers && CloserMove(s, closer, s.closers[closer], onUi, timedOut, closeOk) == move && n > 0
    ensures CloserAlone(s, closer, onUi, timedOut, closeOk, n) ==
            CloserAlone(Moved(s, closer, move), closer, onUi, timedOut, closeOk, n - 1)
  {
  }

  function Moved(s: Sys, closer: nat, move: Move): Sys {
    s.(closers := s.closers[closer := move.next], session := move.session, holder := move.holder, closedOk := move.closedOk)
  }

  lemma {:induction false} MovedAgain(s: Sys, closer: nat, move: Move, move1: Move)
    ensures Moved(Moved(s, closer, move), closer, move1) == Moved(s, closer, move1)
  {
  }

  function Revoked(s: Sys, closer: nat): Move {
    Move(AwaitIdle, s.session.(phase := Closing), Some(closer), s.closedOk)
  }

  // The way in: past the lock and the second look, if nothing turns it back.
  lemma {:induction false} CloserEnters(s: Sys, closer: nat, timedOut: bool, closeOk: bool, n: nat)
    requires closer in s.closers && s.closers[closer].Start? && s.holder.None? && n >= 4
    requires s.session.phase == Active(true) || s.session.phase.Closing?
    ensures CloserAlone(s, closer, false, timedOut, closeOk, n) ==
            CloserAlone(Moved(s, closer, Revoked(s, closer)), closer, false, timedOut, closeOk, n - 4)
  {
    var m1, m2 := Move(TryLock, s.session, None, s.closedOk), Move(Recheck, s.session, Some(closer), s.closedOk);
    var m3, m4 := m2.(next := RevokeFirst), Revoked(s, closer);
    CloserGoes(s, closer, false, timedOut, closeOk, m1, n);
    MovedAgain(s, closer, m1, m2);
    CloserGoes(Moved(s, closer, m1), closer, false, timedOut, closeOk, m2, n - 1);
    MovedAgain(s, closer, m2, m3);
    CloserGoes(Moved(s, closer, m2), closer, false, timedOut, closeOk, m3, n - 2);
    MovedAgain(s, closer, m3, m4);
    CloserGoes(Moved(s, closer, m3), closer, false, timedOut, closeOk, m4, n - 3);
  }

  lemma {:induction false} CloserCloses(s: Sys, closer: nat, timedOut: bool, closeOk: bool)
    requires closer in s.closers && s.closers[closer].AwaitIdle? && s.session.phase.Closing?
    requires s.session.inFlight == 0 && s.holder == Some(closer)
    ensures CloserAlone(s, closer, false, timedOut, closeOk, 4) ==
            if closeOk then Moved(s, closer, Move(Done(None), s.session.(phase := Drained), None, true))
            else Moved(s, closer, Move(Done(Some(CloseFailed)), s.session, None, s.closedOk))
  {
    var m1, m2 := Move(RevokeAgain, s.session, s.holder, s.closedOk), Move(CloseBody, s.session, s.holder, s.closedOk);
    CloserGoes(s, closer, false, timedOut, closeOk, m1, 4);
    MovedAgain(s, closer, m1, m2);
    CloserGoes(Moved(s, closer, m1), closer, false, timedOut, closeOk, m2, 3);
    if closeOk {
      var m3, m4 := Move(SetDrained, s.session, s.holder, true), Move(Done(None), s.session.(phase := Drained), None, true);
      MovedAgain(s, closer, m2, m3);
      CloserGoes(Moved(s, closer, m2), closer, false, timedOut, closeOk, m3, 2);
      MovedAgain(s, closer, m3, m4);
      CloserGoes(Moved(s, closer, m3), closer, false, timedOut, closeOk, m4, 1);
    } else {
      var m3 := Move(Done(Some(CloseFailed)), s.session, None, s.closedOk);
      MovedAgain(s, closer, m2, m3);
      CloserGoes(Moved(s, closer, m2), closer, false, timedOut, closeOk, m3, 2);
      DoneStays(Moved(s, closer, m3), closer, false, timedOut, closeOk, 1);
    }
  }

  lemma {:induction false} CloserTimesOut(s: Sys, closer: nat, closeOk: bool)
    requires closer in s.closers && s.closers[closer].AwaitIdle? && s.session.inFlight > 0 && s.holder == Some(closer)
    ensures CloserAlone(s, closer, false, true, closeOk, 4) ==
            Moved(s, closer, Move(Done(Some(Timeout)), s.session, None, s.closedOk))
  {
    var m := Move(Done(Some(Timeout)), s.session, None, s.closedOk);
    CloserGoes(s, closer, false, true, closeOk, m, 4);
    DoneStays(Moved(s, closer, m), closer, false, true, closeOk, 3);
  }

  lemma {:induction false} DrainedTurnsBack(s: Sys, closer: nat, onUi: bool, timedOut: bool, closeOk: bool)
    requires closer in s.closers && s.closers[closer].Start? && s.session.phase.Drained?
    ensures CloserAlone(s, closer, onUi, timedOut, closeOk, 8) == s.(closers := s.closers[closer := Done(None)])
  {
    var done := Move(Done(None), s.session, s.holder, s.closedOk);
    CloserGoes(s, closer, onUi, timedOut, closeOk, done, 8);
    DoneStays(Moved(s, closer, done), closer, onUi, timedOut, closeOk, 7);
  }

  lemma {:induction false} LockTurnsBack(s: Sys, closer: nat, onUi: bool, timedOut: bool, closeOk: bool)
    requires closer in s.closers && s.closers[closer].Start? && !IsDrained(s.session) && s.holder.Some?
    ensures CloserAlone(s, closer, onUi, timedOut, closeOk, 8) == s.(closers := s.closers[closer := Done(Some(ConcurrentClose))])
  {
    var m := Move(TryLock, s.session, s.holder, s.closedOk);
    var done := m.(next := Done(Some(ConcurrentClose)));
    CloserGoes(s, closer, onUi, timedOut, closeOk, m, 8);
    MovedAgain(s, closer, m, done);
    CloserGoes(Moved(s, closer, m), closer, onUi, timedOut, closeOk, done, 7);
    DoneStays(Moved(s, closer, done), closer, onUi, timedOut, closeOk, 6);
  }

  lemma {:induction false} UiTurnsBack(s: Sys, closer: nat, timedOut: bool, closeOk: bool)
    requires closer in s.closers && s.closers[closer].Start? && !IsDrained(s.session) && s.holder.None?
    ensures CloserAlone(s, closer, true, timedOut, closeOk, 8) == s.(closers := s.closers[closer := Done(Some(WrongThread))])
  {
    var m1, m2 := Move(TryLock, s.session, None, s.closedOk), Move(Recheck, s.session, Some(closer), s.closedOk);
    var done := m1.(next := Done(Some(WrongThread)));
    CloserGoes(s, closer, true, timedOut, closeOk, m1, 8);
    MovedAgain(s, closer, m1, m2);
    CloserGoes(Moved(s, closer, m1), closer, true, timedOut, closeOk, m2, 7);
    MovedAgain(s, closer, m2, done);
    CloserGoes(Moved(s, closer, m2), closer, true, timedOut, closeOk, done, 6);
    DoneStays(Moved(s, closer, done), closer, true, timedOut, closeOk, 5);
  }

  // Turned back before the revocation: drained, locked out, or on the UI thread.
  lemma {:induction false} CloserTurnsBack(s: Sys, closer: nat, onUi: bool, timedOut: bool, closeOk: bool)
    requires closer in s.closers && s.closers[closer].Start? && s.session.phase != Active(false)
    requires s.session.phase.Drained? || s.holder.Some? || onUi
    ensures CloserAlone(s, closer, onUi, timedOut, closeOk, 8) ==
            s.(closers := s.closers[closer := Done(CloseAnswer(s, onUi, timedOut, closeOk))])
  {
    if s.session.phase.Drained? {
      DrainedTurnsBack(s, closer, onUi, timedOut, closeOk);
    } else if s.holder.Some? {
      LockTurnsBack(s, closer, onUi, timedOut, closeOk);
    } else {
      UiTurnsBack(s, closer, timedOut, closeOk);
    }
  }

  lemma {:induction false} CloserRevokes(s: Sys, closer: nat, timedOut: bool, closeOk: bool, n: nat)
    requires n == 8
    requires closer in s.closers && s.closers[closer].Start? && s.everRegistered
    requires s.session.phase == Active(true) || s.session.phase.Closing?
    requires s.holder.None? && (s.session.inFlight == 0 || timedOut)
    ensures var answer := CloseAnswer(s, false, timedOut, closeOk);
      CloserAlone(s, closer, false, timedOut, closeOk, n) == Moved(s, closer, Answered(s, answer))
  {
    CloserEnters(s, closer, timedOut, closeOk, n);
    RevokedEnds(s, closer, timedOut, closeOk, n - 4);
  }

  lemma {:induction false} RevokedEnds(s: Sys, closer: nat, timedOut: bool, closeOk: bool, n: nat)
    requires n == 4
    requires s.session.phase == Active(true) || s.session.phase.Closing?
    requires s.holder.None? && (s.session.inFlight == 0 || timedOut)
    ensures CloserAlone(Moved(s, closer, Revoked(s, closer)), closer, false, timedOut, closeOk, n) ==
            Moved(s, closer, Answered(s, CloseAnswer(s, false, timedOut, closeOk)))
  {
    var m := Revoked(s, closer);
    CloserEnds(Moved(s, closer, m), closer, timedOut, closeOk);
    SameAnswer(s, closer, timedOut, closeOk);
    MovedAgain(s, closer, m, Answered(s, CloseAnswer(s, false, timedOut, closeOk)));
  }

  function Answered(s: Sys, answer: Option<Error>): Move {
    Move(Done(answer), s.session.(phase := if answer.None? then Drained else Closing), None, s.closedOk || answer.None?)
  }

  lemma {:induction false} SameAnswer(s: Sys, closer: nat, timedOut: bool, closeOk: bool)
    requires s.session.phase == Active(true) || s.session.phase.Closing?
    requires s.holder.None?
    ensures var s1 := Moved(s, closer, Revoked(s, closer)); var answer := CloseAnswer(s, false, timedOut, closeOk);
      CloseAnswer(s1.(holder := None), false, timedOut, closeOk) == answer && Answered(s1, answer) == Answered(s, answer)
  {
  }

  lemma {:induction false} CloserEnds(s: Sys, closer: nat, timedOut: bool, closeOk: bool)
    requires closer in s.closers && s.closers[closer].AwaitIdle? && s.session.phase.Closing? && s.holder == Some(closer)
    requires s.session.inFlight == 0 || timedOut
    ensures CloserAlone(s, closer, false, timedOut, closeOk, 4) ==
            Moved(s, closer, Answered(s, CloseAnswer(s.(holder := None), false, timedOut, closeOk)))
  {
    if s.session.inFlight == 0 {
      CloserCloses(s, closer, timedOut, closeOk);
    } else {
      CloserTimesOut(s, closer, closeOk);
    }
  }

  // A close called in any reachable state and left alone returns within eight
  // steps, unless it waits without a deadline for bodies still running. It gives
  // that answer and the lock as it found it. It drains the session exactly if it
  // answers success, leaves it closing if it failed past the revocation, and
  // otherwise touches nothing.
  lemma {:induction false} CloseReturns(steps: seq<Step>, closer: nat, onUi: bool, timedOut: bool, closeOk: bool)
    requires var s := Run(Initial(), steps); s.everRegistered && (closer in s.closers ==> s.closers[closer].Done?)
    requires var s := Run(Initial(), steps);
      s.session.inFlight == 0 || timedOut || s.session.phase.Drained? || s.holder.Some? || onUi
    ensures var s := Run(Initial(), steps); var answer := CloseAnswer(s, onUi, timedOut, closeOk);
      var s1 := CloserAlone(Next(s, CallClose(closer)), closer, onUi, timedOut, closeOk, 8);
      s1 == s.(closers := s.closers[closer := Done(answer)], closedOk := s.closedOk || answer.None?,
               session := s.session.(phase :=
                 if answer.None? then Drained
                 else if answer.value.Timeout? || answer.value.CloseFailed? then Closing
                 else s.session.phase))
  {
    RunKeeps(Initial(), steps);
    CloseComesTo(Run(Initial(), steps), closer, onUi, timedOut, closeOk);
  }

  // The session a close leaves behind.
  function Closed(s: Sys, closer: nat, answer: Option<Error>): Sys {
    s.(closers := s.closers[closer := Done(answer)], closedOk := s.closedOk || answer.None?,
       session := s.session.(phase :=
         if answer.None? then Drained
         else if answer.value.Timeout? || answer.value.CloseFailed? then Closing
         else s.session.phase))
  }

  lemma {:induction false} CloseComesTo(s: Sys, closer: nat, onUi: bool, timedOut: bool, closeOk: bool)
    requires Inv(s) && s.everRegistered && (closer in s.closers ==> s.closers[closer].Done?)
    requires s.session.inFlight == 0 || timedOut || s.session.phase.Drained? || s.holder.Some? || onUi
    ensures CloserAlone(Next(s, CallClose(closer)), closer, onUi, timedOut, closeOk, 8) ==
            Closed(s, closer, CloseAnswer(s, onUi, timedOut, closeOk))
  {
    var s0 := s.(closers := s.closers[closer := Start]);
    var answer := CloseAnswer(s, onUi, timedOut, closeOk);
    assert s0.closers[closer := Done(answer)] == s.closers[closer := Done(answer)];
    assert CloseAnswer(s0, onUi, timedOut, closeOk) == answer;
    if s.session.phase.Drained? || s.holder.Some? || onUi {
      CloserTurnsBack(s0, closer, onUi, timedOut, closeOk);
    } else {
      CloserRevokes(s0, closer, timedOut, closeOk, 8);
    }
  }

  // A `try_shutdown` called in any reachable state and left alone returns within
  // five steps. It succeeds exactly if it had before, or no body runs and there is
  // no overlay left to close; the first success is the one native shutdown, and
  // a failure leaves the session revoked.
  lemma {:induction false} ShutdownReturns(steps: seq<Step>, timedOut: bool)
    requires var s := Run(Initial(), steps); s.stopper.Finished? && (s.complete || s.session.inFlight == 0 || timedOut)
    ensures var s := Run(Initial(), steps);
      var ok := s.complete || (s.session.inFlight == 0 && (s.session.phase == Active(false) || s.session.phase.Drained?));
      StopperAlone(Next(s, CallShutdown), timedOut, 5) ==
      s.(stopper := Finished(ok), complete := ok, shutdowns := if ok then 1 else 0,
         session := s.session.(phase := if s.session.phase == Active(false) || s.session.phase.Drained? then Drained else Closing))
  {
    RunKeeps(Initial(), steps);
    ShutdownComesTo(Run(Initial(), steps), timedOut, 5);
  }

  lemma {:induction false} StopperGoes(s: Sys, timedOut: bool, n: nat)
    requires n > 0
    ensures StopperAlone(s, timedOut, n) == StopperAlone(AdvanceStopper(s, timedOut), timedOut, n - 1)
  {
  }

  lemma {:induction false} FinishedStays(s: Sys, timedOut: bool, n: nat)
    requires s.stopper.Finished?
    ensures StopperAlone(s, timedOut, n) == s
    decreases n
  {
    if n > 0 {
      FinishedStays(s, timedOut, n - 1);
    }
  }

  // What a shutdown call comes to.
  function Shut(s: Sys): Sys {
    var ok := s.complete || (s.session.inFlight == 0 && (s.session.phase == Active(false) || s.session.phase.Drained?));
    s.(stopper := Finished(ok), complete := ok, shutdowns := if ok then 1 else 0,
       session := s.session.(phase := if s.session.phase == Active(false) || s.session.phase.Drained? then Drained else Closing))
  }

  lemma {:induction false} ShutdownComesTo(s: Sys, timedOut: bool, n: nat)
    requires n == 5 && Inv(s) && s.stopper.Finished? && (s.complete || s.session.inFlight == 0 || timedOut)
    ensures StopperAlone(Next(s, CallShutdown), timedOut, n) == Shut(s)
  {
    var s0 := s.(stopper := Begin);
    StopperGoes(s0, timedOut, n);
    if s.complete {
      FinishedStays(s.(stopper := Finished(true)), timedOut, n - 1);
    } else {
      var s1 := s0.(stopper := AwaitQuiet, session := Revoke(s.session));
      StopperGoes(s1, timedOut, n - 1);
      if s.session.inFlight == 0 {
        QuietShutdown(s1.(stopper := StopReady), timedOut, n - 2);
      } else {
        FinishedStays(s1.(stopper := Finished(false)), timedOut, n - 2);
      }
    }
  }

  lemma {:induction false} QuietShutdown(s: Sys, timedOut: bool, n: nat)
    requires n == 3 && s.stopper.StopReady? && !s.session.phase.Active?
    ensures StopperAlone(s, timedOut, n) ==
            if s.session.phase.Drained? then s.(stopper := Finished(true), complete := true, shutdowns := s.shutdowns + 1)
            else s.(stopper := Finished(false))
  {
    StopperGoes(s, timedOut, n);
    var s1 := s.(stopper := CheckDrained);
    StopperGoes(s1, timedOut, n - 1);
    if s.session.phase.Drained? {
      StopperGoes(s1.(stopper := Native), timedOut, n - 2);
    } else {
      FinishedStays(s1.(stopper := Finished(false)), timedOut, n - 2);
    }
  }

  lemma {:induction false} AloneKeeps(s: Sys, closer: nat, onUi: bool, timedOut: bool, closeOk: bool, n: nat)
    requires Inv(s)
    ensures Inv(CloserAlone(s, closer, onUi, timedOut, closeOk, n))
    decreases n
  {
    if n > 0 {
      NextKeeps(s, CloserStep(closer, onUi, timedOut, closeOk));
      AloneKeeps(Next(s, CloserStep(closer, onUi, timedOut, closeOk)), closer, onUi, timedOut, closeOk, n - 1);
    }
  }

  // From any reachable state with an overlay registered, no body running, the lock
  // free and no shutdown under way: a close that succeeds and then a shutdown end
  // with exactly one native shutdown, and nothing can enter.
  lemma {:induction false} CloseThenShutdown(steps: seq<Step>, closer: nat, timedOut: bool)
    requires var s := Run(Initial(), steps);
      && s.everRegistered && (closer in s.closers ==> s.closers[closer].Done?) && s.holder.None?
      && s.session.inFlight == 0 && s.stopper.Finished?
    ensures var s := Run(Initial(), steps);
      var s1 := CloserAlone(Next(s, CallClose(closer)), closer, false, timedOut, true, 8);
      var s2 := StopperAlone(Next(s1, CallShutdown), timedOut, 5);
      && s2.closers == s.closers[closer := Done(None)] && s2.stopper == Finished(true) && s2.shutdowns == 1
      && s2.session.phase.Drained? && forall thread :: Enter(s2.session, thread).None?
  {
    RunKeeps(Initial(), steps);
    var s := Run(Initial(), steps);
    NextKeeps(s, CallClose(closer));
    AloneKeeps(Next(s, CallClose(closer)), closer, false, timedOut, true, 8);
    CloseComesTo(s, closer, false, timedOut, true);
    ShutdownComesTo(Closed(s, closer, None), timedOut, 5);
  }

  // A closer that comes out with success has drained the session for good, however
  // the others' steps fell between its own.
  ghost predicate SucceededInv(s: Sys) {
    forall id | id in s.closers && s.closers[id] == Done(None) :: s.session.phase.Drained?
  }

  lemma {:induction false} SuccessMove(s: Sys, closer: nat, onUi: bool, timedOut: bool, closeOk: bool)
    requires Inv(s) && closer in s.closers && !s.closers[closer].Done?
    ensures var s1 := AdvanceCloser(s, closer, onUi, timedOut, closeOk);
      s1.closers[closer] == Done(None) ==> s1.session.phase.Drained?
  {
    assert CloserInv(s, closer, s.closers[closer]);
  }

  lemma {:induction false} NextKeepsSucceeded(s: Sys, step: Step)
    requires Inv(s) && SucceededInv(s)
    ensures SucceededInv(Next(s, step))
  {
    NextKeeps(s, step);
    if step.CloserStep? && step.closer in s.closers {
      var s1 := AdvanceCloser(s, step.closer, step.onUi, step.timedOut, step.closeOk);
      if !s.closers[step.closer].Done? {
        SuccessMove(s, step.closer, step.onUi, step.timedOut, step.closeOk);
      }
      forall id | id in s1.closers && s1.closers[id] == Done(None)
        ensures s1.session.phase.Drained?
      {
        assert id != step.closer ==> s.closers[id] == Done(None);
      }
    } else if step.CallClose? {
      assert forall id | id in Next(s, step).closers && Next(s, step).closers[id].Done? :: id in s.closers && s.closers[id].Done?;
    }
  }

  lemma {:induction false} RunKeepsSucceeded(steps: seq<Step>)
    ensures SucceededInv(Run(Initial(), steps))
    decreases |steps|
  {
    if steps != [] {
      RunKeepsSucceeded(steps[..|steps| - 1]);
      RunKeeps(Initial(), steps[..|steps| - 1]);
      NextKeepsSucceeded(Run(Initial(), steps[..|steps| - 1]), steps[|steps| - 1]);
    }
  }

  lemma {:induction false} SuccessIsDrained(steps: seq<Step>, more: seq<Step>, id: nat)
    requires var s := Run(Initial(), steps); id in s.closers && s.closers[id] == Done(None)
    ensures Run(Run(Initial(), steps), more).session.phase.Drained?
  {
    RunKeepsSucceeded(steps);
    RunKeeps(Initial(), steps);
    RunKeeps(Run(Initial(), steps), more);
  }

  // ----- until it is revoked -----

  predicate Revokes(step: Step) {
    step.RevokeNow? || step.CloserStep? || step.StopperStep?
  }

  // The bodies entered and not left, by the calls alone.
  function Entered(steps: seq<Step>): multiset<nat>
    decreases |steps|
  {
    if steps == [] then multiset{}
    else
      var before := Entered(steps[..|steps| - 1]);
      match steps[|steps| - 1]
      case Dispatch(thread) => before + multiset{thread}
      case Return(thread) => before - multiset{thread}
      case _ => before
  }

  lemma {:induction false} OpenStep(s: Sys, step: Step)
    requires SessionInv(s) && s.session.phase.Active? && !Revokes(step)
    requires s.session.phase == Active(s.everRegistered)
    ensures var s1 := Next(s, step);
      && s1.everRegistered == (s.everRegistered || step.Register?) && s1.session.phase == Active(s1.everRegistered)
      && s1.session.bodies ==
           match step
           case Dispatch(thread) => s.session.bodies + multiset{thread}
           case Return(thread) => s.session.bodies - multiset{thread}
           case _ => s.session.bodies
  {
    if step.Return? && step.thread in s.session.bodies {
      LeaveCounts(s.session, step.thread);
    }
  }

  // Until the first revocation every dispatch is admitted and every return leaves,
  // and the session has an overlay exactly if one was registered.
  lemma {:induction false} OpenUntilRevoked(steps: seq<Step>)
    requires forall k | 0 <= k < |steps| :: !Revokes(steps[k])
    ensures var s := Run(Initial(), steps);
      s.session.phase == Active(Register in steps) && s.session.bodies == Entered(steps) && s.everRegistered == (Register in steps)
    decreases |steps|
  {
    if steps != [] {
      var before, step := steps[..|steps| - 1], steps[|steps| - 1];
      assert Register in steps <==> Register in before || step == Register;
      OpenUntilRevoked(before);
      OpenCounts(before);
      OpenStep(Run(Initial(), before), step);
    }
  }

  lemma {:induction false} OpenCounts(steps: seq<Step>)
    ensures SessionInv(Run(Initial(), steps))
  {
    RunKeeps(Initial(), steps);
  }

  // ----- waiting, and being seen -----

  // A revocation is seen at once: no dispatch is admitted in the state it leaves, nor
  // in any state after.
  lemma {:induction false} RevocationIsSeen(steps: seq<Step>, more: seq<Step>, thread: nat)
    ensures var s := Run(Initial(), steps); var s1 := Next(s, RevokeNow);
      && s1 == s.(session := s.session.(phase := if s.session.phase == Active(false) || s.session.phase.Drained? then Drained else Closing))
      && Enter(Run(s1, more).session, thread).None?
  {
    RunKeeps(Initial(), steps);
    var s := Run(Initial(), steps);
    NextKeeps(s, RevokeNow);
    RunKeeps(Next(s, RevokeNow), more);
  }

  // While a body runs and the deadline has not passed, both waits go on; once it
  // has passed, both give up.
  lemma {:induction false} WaitsForBodies(s: Sys, closer: nat, onUi: bool, closeOk: bool)
    requires s.session.inFlight > 0
    ensures s.stopper.AwaitQuiet? ==>
              AdvanceStopper(s, false) == s && AdvanceStopper(s, true) == s.(stopper := Finished(false))
    ensures closer in s.closers && s.closers[closer].AwaitIdle? ==>
              && AdvanceCloser(s, closer, onUi, false, closeOk) == s
              && AdvanceCloser(s, closer, onUi, true, closeOk).closers[closer] == Done(Some(Timeout))
  {
    if closer in s.closers {
      assert s.closers[closer := s.closers[closer]] == s.closers;
    }
  }

  // A closer that takes the lock after another has drained the session is done.
  lemma {:induction false} SecondLookReturns(steps: seq<Step>, closer: nat, onUi: bool, timedOut: bool, closeOk: bool)
    requires var s := Run(Initial(), steps); closer in s.closers && s.closers[closer].Recheck? && s.session.phase.Drained?
    ensures var s := Run(Initial(), steps);
      Next(s, CloserStep(closer, onUi, timedOut, closeOk)) == s.(closers := s.closers[closer := Done(None)], holder := None)
  {
    RunKeeps(Initial(), steps);
    assert CloserInv(Run(Initial(), steps), closer, Run(Initial(), steps).closers[closer]);
  }
}

// The session's lock-protected fields, updated in place.
module SessionObjects {
  import opened Wrappers
  import S = Session

  class Session {
    var phase: S.Phase
    var inFlight: nat
    ghost var bodies: multiset<nat>

    ghost function Abs(): S.Session
      reads this
    {
      S.Session(phase, inFlight, bodies)
    }

    constructor ()
      ensures Abs() == S.New()
    {
      phase, inFlight, bodies := S.Active(false), 0, multiset{};
    }

    method RegisterOverlay() returns (registered: bool)
      modifies this
      ensures (Abs(), registered) == S.RegisterOverlay(old(Abs()))
    {
      if phase != S.Active(false) {
        return false;
      }
      phase := S.Active(true);
      return true;
    }

    method Acquire(ghost thread: nat) returns (admitted: bool)
      modifies this
      ensures admitted <==> old(phase).Active?
      ensures S.Enter(old(Abs()), thread) == if admitted then Some(Abs()) else None
      ensures !admitted ==> Abs() == old(Abs())
    {
      if !phase.Active? {
        return false;
      }
      inFlight := inFlight + 1;
      bodies := bodies + multiset{thread};
      return true;
    }

    // Dropping the permit; `idle` is the wake of the waiters.
    method Release(ghost thread: nat) returns (idle: bool)
      requires thread in bodies && inFlight > 0
      modifies this
      ensures Abs() == S.Leave(old(Abs()), thread)
      ensures idle <==> inFlight == 0
    {
      inFlight := inFlight - 1;
      bodies := bodies - multiset{thread};
      idle := inFlight == 0;
    }

    method Revoke()
      modifies this
      ensures Abs() == S.Revoke(old(Abs())) && inFlight == old(inFlight) && bodies == old(bodies)
      ensures phase == if old(phase) == S.Active(false) || old(phase).Drained? then S.Drained else S.Closing
    {
      match phase {
        case Active(overlay) => phase := if overlay then S.Closing else S.Drained;
        case Drained => phase := S.Drained;
        case Closing => phase := S.Closing;
      }
    }

    // `drain`: revoke, close, and only a close that succeeded drains.
    method Drain(closeOk: bool) returns (ok: bool)
      modifies this
      ensures ok == closeOk
      ensures phase == if closeOk || old(phase) == S.Active(false) || old(phase).Drained? then S.Drained else S.Closing
      ensures inFlight == old(inFlight) && bodies == old(bodies)
    {
      Revoke();
      if !closeOk {
        return false;
      }
      phase := S.Drained;
      return true;
    }

    method IsDrained() returns (drained: bool)
      ensures drained <==> S.IsDrained(Abs())
    {
      drained := phase.Drained? || phase == S.Active(false);
    }
  }
}
