// The application's control-plane thread: any thread pushes a message and
// signals a latched wake; one manager drains the wake, takes the whole queue and
// handles it, then parks.
module Manager {

  datatype Message = SetVisible(visible: bool) | Suspend | Resume | Shutdown

  datatype State = Running | Hidden | Suspended | ShuttingDown

  // The overlay as the manager drives it: what it was last told, every
  // `set_hidden` it was sent, and how often its blocking close was called.
  datatype Overlay = Overlay(hidden: bool, calls: seq<bool>, closes: nat)

  // `failed` is the close delivery error that ends the thread.
  datatype Outcome = Outcome(state: State, overlay: Overlay, failed: bool)

  function SetHidden(o: Overlay, hidden: bool): Overlay {
    o.(hidden := hidden, calls := o.calls + [hidden])
  }

  // `closeOk` says whether the blocking close, if it is called, delivers.
  function Transition(state: State, o: Overlay, message: Message, closeOk: bool): Outcome {
    match (state, message)
    case (ShuttingDown, _) => Outcome(ShuttingDown, o, false)
    case (_, Shutdown) =>
      var closed := o.(closes := o.closes + 1);
      if closeOk then Outcome(ShuttingDown, closed, false) else Outcome(state, closed, true)
    case (Running, SetVisible(visible)) =>
      if visible then Outcome(Running, o, false) else Outcome(Hidden, SetHidden(o, true), false)
    case (Hidden, SetVisible(visible)) =>
      if visible then Outcome(Running, SetHidden(o, false), false) else Outcome(Hidden, o, false)
    case (Running, Suspend) => Outcome(Suspended, SetHidden(o, true), false)
    case (Hidden, Suspend) => Outcome(Suspended, o, false)
    case (Suspended, Resume) => Outcome(Running, SetHidden(o, false), false)
    case _ => Outcome(state, o, false)
  }

  // One pass over the taken messages, stopping where the loop returns.
  function HandleAll(state: State, o: Overlay, work: seq<Message>, closeOk: bool): Outcome
    decreases |work|
  {
    if work == [] then Outcome(state, o, false)
    else
      var step := Transition(state, o, work[0], closeOk);
      if step.failed || step.state.ShuttingDown? then step else HandleAll(step.state, step.overlay, work[1..], closeOk)
  }

  // ----- the manager and the threads that send to it -----

  datatype Loop = Draining | Taking | Processing(work: seq<Message>) | Waiting | Ended(ok: bool)

  // `sending` counts the senders between their push and their signal;
  // `notifying` is the shutdown request between setting its flag and running
  // the handler that signals. `pushed` and `handled` are histories.
  datatype Sys = Sys(
    queue: seq<Message>, wake: bool, sending: nat, requested: bool, notifying: bool,
    loop: Loop, state: State, overlay: Overlay, pushed: seq<Message>, handled: seq<Message>)

  datatype Step =
    | Push(message: Message)
    | Signal
    | Request
    | Notify
    | Manage(closeOk: bool)

  function Initial(): Sys {
    Sys([], false, 0, false, false, Draining, Running, Overlay(false, [], 0), [], [])
  }

  // What the loop finds under the queue's lock.
  function Found(s: Sys): seq<Message> {
    s.queue + if s.requested && !s.state.ShuttingDown? then [Shutdown] else []
  }

  // One atomic step of the loop.
  function Advance(s: Sys, closeOk: bool): Sys {
    match s.loop
    case Draining => s.(wake := false, loop := Taking)
    case Taking =>
      s.(queue := [], loop := Processing(Found(s)), pushed := s.pushed + Found(s)[|s.queue|..])
    case Processing(work) =>
      if work == [] then s.(loop := Waiting)
      else
        var step := Transition(s.state, s.overlay, work[0], closeOk);
        s.(state := step.state, overlay := step.overlay, handled := s.handled + [work[0]],
        loop := if step.failed then Ended(false) else if step.state.ShuttingDown? then Ended(true) else Processing(work[1..]))
    case Waiting => if s.wake then s.(loop := Draining) else s
    case Ended(_) => s
  }

  function Next(s: Sys, step: Step): Sys {
    match step
    case Push(message) => s.(queue := s.queue + [message], pushed := s.pushed + [message], sending := s.sending + 1)
    case Signal => if s.sending == 0 then s else s.(wake := true, sending := s.sending - 1)
    case Request => if s.requested then s else s.(requested := true, notifying := true)
    case Notify => if s.notifying then s.(wake := true, notifying := false) else s
    case Manage(closeOk) => Advance(s, closeOk)
  }

  function Run(s: Sys, steps: seq<Step>): Sys
    decreases |steps|
  {
    if steps == [] then s else Next(Run(s, steps[..|steps| - 1]), steps[|steps| - 1])
  }

  // ----- invariant -----

  // Blocked: the next step of the loop needs a signal.
  predicate Parked(s: Sys) {
    s.loop.Waiting? && !s.wake
  }

  predicate InHand(s: Sys) {
    s.loop.Processing? || s.loop.Waiting?
  }

  function Work(s: Sys): seq<Message> {
    if s.loop.Processing? then s.loop.work else []
  }

  ghost predicate WakeInv(s: Sys) {
    InHand(s) ==>
      && (s.queue != [] ==> s.wake || s.sending > 0)
      && (s.requested ==> s.wake || s.notifying || Shutdown in Work(s))
  }

  // Everything pushed is handled, in hand or queued, in that order.
  ghost predicate OrderInv(s: Sys) {
    && (!s.loop.Ended? ==> s.pushed == s.handled + Work(s) + s.queue)
    && s.handled <= s.pushed
    && (forall k | 0 <= k < |s.handled| :: s.handled[k] == Shutdown ==> k == |s.handled| - 1 && s.loop.Ended?)
    && (s.loop.Ended? ==> |s.handled| > 0 && s.handled[|s.handled| - 1] == Shutdown)
  }

  ghost predicate OverlayInv(s: Sys) {
    && (s.state.ShuttingDown? ==> s.loop == Ended(true))
    && (s.loop == Ended(true) ==> s.state.ShuttingDown?)
    && (!s.state.ShuttingDown? ==> (s.overlay.hidden <==> s.state.Hidden? || s.state.Suspended?))
    && Alternates(s.overlay)
    && s.overlay.closes == (if s.loop.Ended? then 1 else 0)
  }

  // Every call flips what the overlay was told before.
  ghost predicate Alternates(o: Overlay) {
    && (forall k | 0 <= k < |o.calls| :: o.calls[k] <==> k % 2 == 0)
    && (o.hidden <==> |o.calls| % 2 == 1)
  }

  ghost predicate Inv(s: Sys) {
    WakeInv(s) && OrderInv(s) && OverlayInv(s)
  }

  lemma {:induction false} TransitionKeeps(state: State, o: Overlay, message: Message, closeOk: bool)
    requires !state.ShuttingDown? && Alternates(o) && (o.hidden <==> state.Hidden? || state.Suspended?)
    ensures var step := Transition(state, o, message, closeOk);
      && Alternates(step.overlay)
      && (!step.state.ShuttingDown? ==> (step.overlay.hidden <==> step.state.Hidden? || step.state.Suspended?))
      && step.overlay.closes == o.closes + (if message == Shutdown then 1 else 0)
      && (step.failed || step.state.ShuttingDown? <==> message == Shutdown)
  {
  }

  lemma {:induction false} AdvanceKeepsWake(s: Sys, closeOk: bool)
    requires Inv(s)
    ensures WakeInv(Advance(s, closeOk))
  {
    if s.loop.Processing? && s.loop.work != [] {
      TransitionKeeps(s.state, s.overlay, s.loop.work[0], closeOk);
    } else if s.loop.Taking? && s.requested {
      assert Found(s)[|s.queue|] == Shutdown;
    }
  }

  lemma {:induction false} HandlingKeepsOrder(s: Sys, closeOk: bool)
    requires OrderInv(s) && OverlayInv(s) && s.loop.Processing? && s.loop.work != []
    ensures OrderInv(Advance(s, closeOk))
  {
    var s1, message := Advance(s, closeOk), s.loop.work[0];
    TransitionKeeps(s.state, s.overlay, message, closeOk);
    assert s.loop.work == [message] + s.loop.work[1..];
    assert s.pushed == s1.handled + (s.loop.work[1..] + s.queue);
    assert s1.handled[|s.handled|] == message;
    assert forall k | 0 <= k < |s.handled| :: s1.handled[k] == s.handled[k];
    if s1.loop.Processing? {
      assert s1.pushed == s1.handled + s1.loop.work + s1.queue;
    }
  }

  lemma {:induction false} TakingKeepsOrder(s: Sys, closeOk: bool)
    requires OrderInv(s) && s.loop.Taking?
    ensures OrderInv(Advance(s, closeOk))
  {
    assert Found(s) == s.queue + Found(s)[|s.queue|..];
    assert Advance(s, closeOk).pushed == s.handled + Found(s);
  }

  lemma {:induction false} AdvanceKeepsOrder(s: Sys, closeOk: bool)
    requires Inv(s)
    ensures OrderInv(Advance(s, closeOk))
  {
    if s.loop.Processing? && s.loop.work != [] {
      HandlingKeepsOrder(s, closeOk);
    } else if s.loop.Taking? {
      TakingKeepsOrder(s, closeOk);
    }
  }

  lemma {:induction false} AdvanceKeepsOverlay(s: Sys, closeOk: bool)
    requires Inv(s)
    ensures OverlayInv(Advance(s, closeOk))
  {
    if s.loop.Processing? && s.loop.work != [] {
      TransitionKeeps(s.state, s.overlay, s.loop.work[0], closeOk);
    }
  }

  lemma {:induction false} AdvanceKeeps(s: Sys, closeOk: bool)
    requires Inv(s)
    ensures Inv(Advance(s, closeOk))
  {
    AdvanceKeepsWake(s, closeOk);
    AdvanceKeepsOrder(s, closeOk);
    AdvanceKeepsOverlay(s, closeOk);
  }

  lemma {:induction false} NextKeeps(s: Sys, step: Step)
    requires Inv(s)
    ensures Inv(Next(s, step))
  {
    if step.Manage? {
      AdvanceKeeps(s, step.closeOk);
    }
  }

  lemma {:induction false} RunKeeps(steps: seq<Step>)
    ensures Inv(Run(Initial(), steps))
    decreases |steps|
  {
    if steps != [] {
      RunKeeps(steps[..|steps| - 1]);
      NextKeeps(Run(Initial(), steps[..|steps| - 1]), steps[|steps| - 1]);
    }
  }

  // ----- results -----

  // No wake-up is lost: a parked manager with no sender between push and signal
  // has handled everything ever pushed, and one that is parked after a shutdown
  // request is about to be notified.
  lemma {:induction false} NoLostWakeup(steps: seq<Step>)
    requires Parked(Run(Initial(), steps))
    ensures var s := Run(Initial(), steps);
      && (s.sending == 0 ==> s.queue == [] && s.handled == s.pushed)
      && (s.requested ==> s.notifying)
  {
    RunKeeps(steps);
  }

  // Messages are handled in the order they were pushed, up to and including the
  // first shutdown among them, which is the last message handled.
  lemma {:induction false} HandledInOrder(steps: seq<Step>)
    ensures var s := Run(Initial(), steps);
      && s.handled <= s.pushed
      && (forall k | 0 <= k < |s.handled| :: s.handled[k] == Shutdown ==> k == |s.handled| - 1)
      && (s.loop.Ended? <==> Shutdown in s.handled)
      && (s.overlay.closes == if s.loop.Ended? then 1 else 0)
  {
    RunKeeps(steps);
  }

  // Until shutdown the overlay is hidden exactly in the hidden and suspended
  // states, and it is never sent the value it already holds.
  lemma {:induction false} HiddenMatchesState(steps: seq<Step>)
    ensures var s := Run(Initial(), steps);
      && (!s.state.ShuttingDown? ==> (s.overlay.hidden <==> s.state.Hidden? || s.state.Suspended?))
      && Alternates(s.overlay)
  {
    RunKeeps(steps);
  }

  // ----- progress of the loop alone -----

  function Drive(s: Sys, closeOk: bool, n: nat): Sys
    decreases n
  {
    if n == 0 then s else Drive(Advance(s, closeOk), closeOk, n - 1)
  }

  // How many steps of its own the loop can still take.
  function Left(s: Sys): nat {
    match s.loop
    case Draining => |s.queue| + 4
    case Taking => |s.queue| + 3 + if s.wake then 5 else 0
    case Processing(work) => |work| + 1 + if s.wake then |s.queue| + 5 else 0
    case Waiting => if s.wake then |s.queue| + 5 else 0
    case Ended(_) => 0
  }

  lemma {:induction false} StepMakesProgress(s: Sys, closeOk: bool)
    ensures Left(Advance(s, closeOk)) < Left(s) || (Advance(s, closeOk) == s && (s.loop.Ended? || Parked(s)))
    ensures Left(s) == 0 ==> s.loop.Ended? || Parked(s)
  {
    if s.loop.Processing? && s.loop.work != [] {
      var step := Transition(s.state, s.overlay, s.loop.work[0], closeOk);
    }
  }

  lemma {:induction false} AdvanceIsTheManagersOwn(s: Sys, closeOk: bool)
    ensures var s1 := Advance(s, closeOk);
      s1.sending == s.sending && s1.requested == s.requested && s1.notifying == s.notifying && s.pushed <= s1.pushed
  {
  }

  lemma {:induction false} DriveKeeps(s: Sys, closeOk: bool, n: nat)
    requires Inv(s)
    ensures Inv(Drive(s, closeOk, n))
    decreases n
  {
    if n > 0 {
      AdvanceKeeps(s, closeOk);
      DriveKeeps(Advance(s, closeOk), closeOk, n - 1);
    }
  }

  lemma {:induction false} DriveIsTheManagersOwn(s: Sys, closeOk: bool, n: nat)
    ensures var s1 := Drive(s, closeOk, n);
      s1.sending == s.sending && s1.requested == s.requested && s1.notifying == s.notifying && s.pushed <= s1.pushed
    decreases n
  {
    if n > 0 {
      AdvanceIsTheManagersOwn(s, closeOk);
      DriveIsTheManagersOwn(Advance(s, closeOk), closeOk, n - 1);
    }
  }

  lemma {:induction false} DriveSettles(s: Sys, closeOk: bool, n: nat)
    requires n >= Left(s)
    ensures var s1 := Drive(s, closeOk, n); s1.loop.Ended? || Parked(s1)
    decreases n
  {
    StepMakesProgress(s, closeOk);
    if n > 0 {
      DriveSettles(Advance(s, closeOk), closeOk, n - 1);
    }
  }

  // Left to itself after any run, the loop stops within `Left` steps of its own:
  // with no sender mid-way everything pushed by then is handled, unless a
  // shutdown ended it first; and with the request notified, it has ended.
  lemma {:induction false} QuiescesServed(steps: seq<Step>, closeOk: bool)
    ensures var s := Run(Initial(), steps); var s1 := Drive(s, closeOk, Left(s));
      && (s1.loop.Ended? || Parked(s1))
      && (s.sending == 0 && !s1.loop.Ended? ==> s1.queue == [] && s1.handled == s1.pushed && s.pushed <= s1.handled)
      && (s.requested && !s.notifying ==> s1.loop.Ended? && s1.overlay.closes == 1)
  {
    RunKeeps(steps);
    var s := Run(Initial(), steps);
    DriveKeeps(s, closeOk, Left(s));
    DriveIsTheManagersOwn(s, closeOk, Left(s));
    DriveSettles(s, closeOk, Left(s));
  }

  // The loop's steps over the messages in hand are one pass of `HandleAll`.
  lemma {:induction false} ProcessingIsHandleAll(s: Sys, closeOk: bool)
    requires s.loop.Processing?
    ensures var s1, all := Drive(s, closeOk, |s.loop.work|), HandleAll(s.state, s.overlay, s.loop.work, closeOk);
      && s1.state == all.state && s1.overlay == all.overlay
      && s1.loop == (if all.failed then Ended(false) else if all.state.ShuttingDown? && s.loop.work != [] then Ended(true) else Processing([]))
    decreases |s.loop.work|
  {
    if s.loop.work != [] {
      var s1 := Advance(s, closeOk);
      if s1.loop.Processing? {
        ProcessingIsHandleAll(s1, closeOk);
      } else {
        EndedStays(s1, closeOk, |s.loop.work| - 1);
      }
    }
  }

  lemma {:induction false} EndedStays(s: Sys, closeOk: bool, n: nat)
    requires s.loop.Ended?
    ensures Drive(s, closeOk, n) == s
    decreases n
  {
    if n > 0 {
      EndedStays(s, closeOk, n - 1);
    }
  }

  // ----- the state as a reading of the messages -----

  function StateAfter(work: seq<Message>): State
    decreases |work|
  {
    if work == [] then Running
    else Transition(StateAfter(work[..|work| - 1]), Overlay(false, [], 0), work[|work| - 1], true).state
  }

  // The last of the suspensions and resumes is a suspension.
  predicate SuspendedBy(work: seq<Message>) {
    exists i | 0 <= i < |work| :: work[i] == Suspend && forall k | i < k < |work| :: work[k] != Resume
  }

  // A hiding outside any suspension, and neither shown nor suspended since.
  predicate HiddenBy(work: seq<Message>) {
    exists i | 0 <= i < |work| :: HidesAt(work, i)
  }

  predicate HidesAt(work: seq<Message>, i: nat)
    requires i < |work|
  {
    && work[i] == SetVisible(false) && !SuspendedBy(work[..i])
    && forall k | i < k < |work| :: work[k] != SetVisible(true) && work[k] != Suspend
  }

  // Which messages count and which are ignored: the state is shut down by the
  // first shutdown, and otherwise told by the last messages alone.
  lemma {:induction false} StateIsTheHistory(work: seq<Message>)
    ensures var state := StateAfter(work);
      if Shutdown in work then state == ShuttingDown
      else
        && (state == Suspended <==> SuspendedBy(work))
        && (state == Hidden <==> HiddenBy(work) && !SuspendedBy(work))
        && state != ShuttingDown
    decreases |work|
  {
    if work != [] {
      var before, last := work[..|work| - 1], work[|work| - 1];
      StateIsTheHistory(before);
      assert Shutdown in work <==> Shutdown in before || last == Shutdown;
      SuspendedByNext(before, last);
      HiddenByNext(before, last);
      assert before + [last] == work;
      if last == Suspend {
        SuspendedExcludesHidden(before, last);
      }
    }
  }

  lemma {:induction false} SuspendedByNext(work: seq<Message>, last: Message)
    ensures SuspendedBy(work + [last]) <==> last == Suspend || (SuspendedBy(work) && last != Resume)
  {
    var all := work + [last];
    if last == Suspend {
      assert all[|work|] == Suspend;
    }
    if SuspendedBy(work) && last != Resume {
      var i :| 0 <= i < |work| && work[i] == Suspend && forall k | i < k < |work| :: work[k] != Resume;
      assert all[i] == Suspend;
    }
    if SuspendedBy(all) && last != Suspend {
      var i :| 0 <= i < |all| && all[i] == Suspend && forall k | i < k < |all| :: all[k] != Resume;
      assert i < |work| && all[|work|] == last;
      assert work[i] == Suspend && forall k | i < k < |work| :: work[k] == all[k];
    }
  }

  lemma {:induction false} HiddenByNext(work: seq<Message>, last: Message)
    ensures HiddenBy(work + [last]) <==>
            || (last == SetVisible(false) && !SuspendedBy(work))
            || (HiddenBy(work) && last != SetVisible(true) && last != Suspend)
  {
    var all := work + [last];
    assert all[..|work|] == work;
    if last == SetVisible(false) && !SuspendedBy(work) {
      assert HidesAt(all, |work|);
    }
    if HiddenBy(work) && last != SetVisible(true) && last != Suspend {
      var i :| 0 <= i < |work| && HidesAt(work, i);
      assert all[..i] == work[..i];
      assert HidesAt(all, i);
    }
    if HiddenBy(all) {
      var i :| 0 <= i < |all| && HidesAt(all, i);
      if i < |work| {
        assert all[..i] == work[..i] && all[|work|] == last;
        assert HidesAt(work, i);
      }
    }
  }

  lemma {:induction false} SuspendedExcludesHidden(work: seq<Message>, last: Message)
    requires last == Suspend
    ensures !HiddenBy(work + [last])
  {
    HiddenByNext(work, last);
  }

  // And it is the state the manager holds, in every run in which no close
  // failed.
  lemma {:induction false} StateIsStateAfter(steps: seq<Step>)
    requires Run(Initial(), steps).loop != Ended(false)
    ensures var s := Run(Initial(), steps); s.state == StateAfter(s.handled)
    decreases |steps|
  {
    if steps != [] {
      var s, step := Run(Initial(), steps[..|steps| - 1]), steps[|steps| - 1];
      RunKeeps(steps[..|steps| - 1]);
      if s.loop != Ended(false) {
        StateIsStateAfter(steps[..|steps| - 1]);
        HandlingSteps(s, step);
      }
    }
  }

  lemma {:induction false} StateAfterNext(work: seq<Message>, o: Overlay, message: Message, closeOk: bool)
    requires !Transition(StateAfter(work), o, message, closeOk).failed
    ensures StateAfter(work + [message]) == Transition(StateAfter(work), o, message, closeOk).state
  {
    assert (work + [message])[..|work|] == work;
  }

  lemma {:induction false} HandlingSteps(s: Sys, step: Step)
    requires s.state == StateAfter(s.handled) && s.loop != Ended(false)
    ensures var s1 := Next(s, step); s1.loop != Ended(false) ==> s1.state == StateAfter(s1.handled)
  {
    if step.Manage? && s.loop.Processing? && s.loop.work != [] {
      if !Transition(s.state, s.overlay, s.loop.work[0], step.closeOk).failed {
        StateAfterNext(s.handled, s.overlay, s.loop.work[0], step.closeOk);
      }
    } else {
      assert Next(s, step).state == s.state && Next(s, step).handled == s.handled;
    }
  }

  // ----- a window shown although it was reported hidden -----

  // What the window last reported; it starts visible.
  function WindowVisible(work: seq<Message>): bool
    decreases |work|
  {
    if work == [] then true
    else if work[|work| - 1].SetVisible? then work[|work| - 1].visible
    else WindowVisible(work[..|work| - 1])
  }

  // A resume that ended a suspension of a hidden window, with neither a new
  // report nor a suspension since.
  predicate ResumesHidden(work: seq<Message>) {
    exists k | 0 <= k < |work| :: ResumesHiddenAt(work, k)
  }

  predicate ResumesHiddenAt(work: seq<Message>, k: nat)
    requires k < |work|
  {
    && work[k] == Resume && SuspendedBy(work[..k]) && !WindowVisible(work[..k])
    && forall j | k < j < |work| :: !work[j].SetVisible? && work[j] != Suspend
  }

  lemma {:induction false} ResumesHiddenNext(work: seq<Message>, last: Message)
    ensures ResumesHidden(work + [last]) <==>
            || (last == Resume && SuspendedBy(work) && !WindowVisible(work))
            || (ResumesHidden(work) && !last.SetVisible? && last != Suspend)
  {
    var all := work + [last];
    assert all[..|work|] == work;
    if last == Resume && SuspendedBy(work) && !WindowVisible(work) {
      assert ResumesHiddenAt(all, |work|);
    }
    if ResumesHidden(work) && !last.SetVisible? && last != Suspend {
      var k :| 0 <= k < |work| && ResumesHiddenAt(work, k);
      assert all[..k] == work[..k];
      assert ResumesHiddenAt(all, k);
    }
    if ResumesHidden(all) {
      var k :| 0 <= k < |all| && ResumesHiddenAt(all, k);
      if k < |work| {
        assert all[..k] == work[..k] && all[|work|] == last;
        assert ResumesHiddenAt(work, k);
      }
    }
  }

  // Suspending forgets what the window reports: short of a shutdown the manager
  // runs a window that last reported itself hidden exactly after such a resume.
  lemma {:induction false} RunsHiddenExactlyAfterResume(work: seq<Message>)
    requires Shutdown !in work
    ensures StateAfter(work) == Running && !WindowVisible(work) <==> ResumesHidden(work)
    decreases |work|
  {
    if work != [] {
      var before, last := work[..|work| - 1], work[|work| - 1];
      assert before + [last] == work;
      RunsHiddenExactlyAfterResume(before);
      StateIsTheHistory(before);
      StateIsTheHistory(work);
      ResumesHiddenNext(before, last);
    }
  }

  // In every run, a resume taken in the suspended state shows the overlay,
  // whatever the window last reported.
  lemma {:induction false} ResumeShowsHiddenWindow(steps: seq<Step>, closeOk: bool)
    requires var s := Run(Initial(), steps);
      s.state.Suspended? && s.loop.Processing? && s.loop.work != [] && s.loop.work[0] == Resume
    ensures var s := Run(Initial(), steps); var s1 := Advance(s, closeOk);
      && s.overlay.hidden && s1.state.Running? && !s1.overlay.hidden
      && WindowVisible(s1.handled) == WindowVisible(s.handled)
      && (ResumesHidden(s1.handled) <==> !WindowVisible(s.handled))
  {
    RunKeeps(steps);
    var s := Run(Initial(), steps);
    StateIsStateAfter(steps);
    StateIsTheHistory(s.handled);
    assert (s.handled + [Resume])[..|s.handled|] == s.handled;
    ResumesHiddenNext(s.handled, Resume);
    if ResumesHidden(s.handled) {
      RunsHiddenExactlyAfterResume(s.handled);
    }
  }

  // ----- what was sent, off the steps alone -----

  function Pushes(steps: seq<Step>): seq<Message>
    decreases |steps|
  {
    if steps == [] then []
    else Pushes(steps[..|steps| - 1]) + if steps[|steps| - 1].Push? then [steps[|steps| - 1].message] else []
  }

  // `all` is `sent`, or `sent` with one shutdown put in by the manager itself.
  ghost predicate SentOr(all: seq<Message>, sent: seq<Message>, requested: bool) {
    all == sent || (requested && exists k | 0 <= k < |all| :: InsertedAt(all, sent, k))
  }

  predicate InsertedAt(all: seq<Message>, sent: seq<Message>, k: nat)
    requires k < |all|
  {
    all[k] == Shutdown && all[..k] + all[k + 1..] == sent
  }

  lemma {:induction false} SentMore(all: seq<Message>, sent: seq<Message>, requested: bool, message: Message)
    requires SentOr(all, sent, requested)
    ensures SentOr(all + [message], sent + [message], requested)
  {
    if all != sent {
      var k :| 0 <= k < |all| && InsertedAt(all, sent, k);
      var more := all + [message];
      assert more[..k] + more[k + 1..] == all[..k] + all[k + 1..] + [message];
      assert InsertedAt(more, sent + [message], k);
    }
  }

  // The manager puts its shutdown in once: it is then in hand until it ends the loop.
  ghost predicate SentInv(s: Sys, steps: seq<Step>) {
    && (s.requested <==> Request in steps)
    && SentOr(s.pushed, Pushes(steps), s.requested)
    && (s.pushed != Pushes(steps) ==> s.loop.Ended? || (s.loop.Processing? && Shutdown in s.loop.work))
  }

  lemma {:induction false} TakingSends(s: Sys, steps: seq<Step>, closeOk: bool)
    requires SentInv(s, steps) && s.loop.Taking?
    ensures var s1 := Advance(s, closeOk);
      && s1.requested == s.requested && SentOr(s1.pushed, Pushes(steps), s1.requested)
      && (s1.pushed != Pushes(steps) ==> s1.loop.Processing? && Shutdown in s1.loop.work)
  {
    var s1 := Advance(s, closeOk);
    if s.requested && !s.state.ShuttingDown? {
      var k := |s.pushed|;
      assert s1.pushed == s.pushed + [Shutdown];
      assert s1.pushed[..k] + s1.pushed[k + 1..] == s.pushed;
      assert InsertedAt(s1.pushed, Pushes(steps), k);
      assert s1.loop.work[|s.queue|] == Shutdown;
    } else {
      assert s1.pushed == s.pushed;
    }
  }

  lemma {:induction false} HandlingSends(s: Sys, closeOk: bool)
    requires s.loop.Processing? && s.loop.work != [] && !s.state.ShuttingDown? && Shutdown in s.loop.work
    ensures var s1 := Advance(s, closeOk); s1.loop.Ended? || (s1.loop.Processing? && Shutdown in s1.loop.work)
  {
    var work := s.loop.work;
    if work[0] != Shutdown {
      assert work == [work[0]] + work[1..];
    }
  }

  lemma {:induction false} AdvanceSends(s: Sys, steps: seq<Step>, closeOk: bool)
    requires OverlayInv(s) && SentInv(s, steps)
    ensures SentInv(Advance(s, closeOk), steps)
  {
    if s.loop.Taking? {
      TakingSends(s, steps, closeOk);
    } else if s.loop.Processing? && s.loop.work != [] && Shutdown in s.loop.work {
      HandlingSends(s, closeOk);
    }
  }

  lemma {:induction false} NextSends(s: Sys, steps: seq<Step>, step: Step)
    requires OverlayInv(s) && SentInv(s, steps)
    ensures SentInv(Next(s, step), steps + [step])
  {
    var all := steps + [step];
    assert all[..|steps|] == steps && (Request in all <==> Request in steps || step == Request);
    if step.Push? {
      SentMore(s.pushed, Pushes(steps), s.requested, step.message);
      assert Pushes(all) == Pushes(steps) + [step.message];
    } else {
      assert Pushes(all) == Pushes(steps) + [] == Pushes(steps);
      if step.Manage? {
        AdvanceSends(s, steps, step.closeOk);
      }
    }
  }

  lemma {:induction false} RunSends(steps: seq<Step>)
    ensures SentInv(Run(Initial(), steps), steps)
    decreases |steps|
  {
    if steps != [] {
      var before := steps[..|steps| - 1];
      RunSends(before);
      RunKeeps(before);
      NextSends(Run(Initial(), before), before, steps[|steps| - 1]);
      assert before + [steps[|steps| - 1]] == steps;
    }
  }

  // Senders between their push and their signal: a signal is the last of some push.
  function Sending(steps: seq<Step>): nat
    decreases |steps|
  {
    if steps == [] then 0
    else
      var before := Sending(steps[..|steps| - 1]);
      match steps[|steps| - 1]
      case Push(_) => before + 1
      case Signal => if before == 0 then 0 else before - 1
      case _ => before
  }

  // The one request is being notified until its handler has run.
  function Notifying(steps: seq<Step>): bool
    decreases |steps|
  {
    if steps == [] then false
    else
      var before := steps[..|steps| - 1];
      match steps[|steps| - 1]
      case Request => Notifying(before) || Request !in before
      case Notify => false
      case _ => Notifying(before)
  }

  // In every run what the manager handles comes from the senders, in their order,
  // with at most one shutdown of its own, put in only once one was requested; and
  // the sends still under way are those the steps left under way.
  lemma {:induction false} PushedIsWhatWasSent(steps: seq<Step>)
    ensures var s := Run(Initial(), steps);
      && (s.requested <==> Request in steps) && SentOr(s.pushed, Pushes(steps), Request in steps)
      && s.sending == Sending(steps) && s.notifying == Notifying(steps)
    decreases |steps|
  {
    RunSends(steps);
    if steps != [] {
      PushedIsWhatWasSent(steps[..|steps| - 1]);
      SendingStep(Run(Initial(), steps[..|steps| - 1]), steps[|steps| - 1]);
    }
  }

  lemma {:induction false} SendingStep(s: Sys, step: Step)
    ensures var s1 := Next(s, step);
      && s1.sending == (match step
                        case Push(_) => s.sending + 1
                        case Signal => if s.sending == 0 then 0 else s.sending - 1
                        case _ => s.sending)
      && s1.notifying == (match step
                          case Request => s.notifying || !s.requested
                          case Notify => false
                          case _ => s.notifying)
  {
  }

  // The loop ends well exactly by a close that delivered, in the step that called it.
  lemma {:induction false} EndsByItsClose(steps: seq<Step>, step: Step)
    requires !Run(Initial(), steps).loop.Ended? && Next(Run(Initial(), steps), step).loop.Ended?
    ensures step.Manage? && Next(Run(Initial(), steps), step).loop == Ended(step.closeOk)
    ensures var s, s1 := Run(Initial(), steps), Next(Run(Initial(), steps), step);
      s1.overlay.closes == s.overlay.closes + 1 && (s1.state.ShuttingDown? <==> step.closeOk)
  {
    RunKeeps(steps);
    EndStep(Run(Initial(), steps), step);
  }

  lemma {:induction false} EndStep(s: Sys, step: Step)
    requires OverlayInv(s) && !s.loop.Ended? && Next(s, step).loop.Ended?
    ensures step.Manage? && Next(s, step).loop == Ended(step.closeOk)
    ensures var s1 := Next(s, step); s1.overlay.closes == s.overlay.closes + 1 && (s1.state.ShuttingDown? <==> step.closeOk)
  {
  }
}

// The manager's fields, updated in place.
module ManagerObjects {
  import M = Manager

  class Manager {
    var queue: seq<M.Message>
    var wake: bool
    var state: M.State
    var overlay: M.Overlay

    constructor ()
      ensures queue == [] && !wake && state == M.Running && overlay == M.Overlay(false, [], 0)
    {
      queue, wake, state, overlay := [], false, M.Running, M.Overlay(false, [], 0);
    }

    method Send(message: M.Message)
      modifies this`queue, this`wake
      ensures queue == old(queue) + [message] && wake
    {
      queue := queue + [message];
      wake := true;
    }

    // One turn of the loop up to its wait: the wake is drained before the queue
    // is taken, and the messages are handled until one ends the thread.
    method Turn(requested: bool, closeOk: bool) returns (ended: bool, ok: bool)
      requires !state.ShuttingDown?
      modifies this
      ensures queue == [] && !wake
      ensures var all := M.HandleAll(old(state), old(overlay), old(queue) + (if requested then [M.Shutdown] else []), closeOk);
        && state == all.state && overlay == all.overlay
        && ended == (all.failed || all.state.ShuttingDown?) && ok == !all.failed
    {
      wake := false;
      if requested {
        queue := queue + [M.Shutdown];
      }
      var work := queue;
      assert work == old(queue) + (if requested then [M.Shutdown] else []);
      ghost var state0, overlay0 := state, overlay;
      queue := [];
      var i := 0;
      assert work[i..] == work;
      while i < |work|
        invariant 0 <= i <= |work|
        invariant queue == [] && !wake && !state.ShuttingDown?
        invariant M.HandleAll(state0, overlay0, work, closeOk) == M.HandleAll(state, overlay, work[i..], closeOk)
      {
        var step := M.Transition(state, overlay, work[i], closeOk);
        assert work[i..][0] == work[i];
        assert step.failed || step.state.ShuttingDown? ==> M.HandleAll(state0, overlay0, work, closeOk) == step;
        state, overlay := step.state, step.overlay;
        if step.failed {
          assert state == M.HandleAll(state0, overlay0, work, closeOk).state;
          return true, false;
        }
        if state.ShuttingDown? {
          return true, true;
        }
        i := i + 1;
        assert work[i - 1..][1..] == work[i..];
      }
      return false, true;
    }
  }
}
