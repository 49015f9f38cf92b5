// CEF UI readiness: callbacks registered before the UI is ready wait in a
// vector, later ones are posted to the UI task queue, and after `stop` both are
// dropped. `Queue` is the whole system a callback travels through: the shared
// state, the UI thread's FIFO task queue, and the UI thread's own position in
// what it is running. Every function below is one atomic step of it.
module Readiness {
  import opened Wrappers

  datatype State<T> = Pending(waiting: seq<T>) | Ready | Stopped

  datatype Task<T> = MarkReady | Deliver(callback: T)

  // Where the UI thread is. `Checked` is the window between the stop check and
  // the call, in which other threads may still stop or revoke.
  datatype Ui<T> = Idle | Draining(rest: seq<T>) | Checked(callback: T, rest: seq<T>)

  // `admitting` is the session's answer to a dispatch. `accepted` and
  // `executed` are the histories of callbacks taken and callbacks run.
  datatype Queue<T> = Queue(
    state: State<T>, admitting: bool, tasks: seq<Task<T>>, ui: Ui<T>,
    accepted: seq<T>, executed: seq<T>)

  datatype Outcome = Accepted | SessionStopped | PostRejected

  function Initial<T>(): Queue<T> {
    Queue(Pending([]), true, [], Idle, [], [])
  }

  // `on_cef_ready`. `raced` is a caller that took its permit before a
  // concurrent revocation; `posted` is CEF's answer to `post_task`.
  function Offer<T>(q: Queue<T>, callback: T, raced: bool, posted: bool): (Queue<T>, Outcome) {
    if !q.admitting && !raced then (q, SessionStopped)
    else match q.state
      case Pending(waiting) =>
        (q.(state := Pending(waiting + [callback]), accepted := q.accepted + [callback]), Accepted)
      case Ready =>
        if posted then
          (q.(tasks := q.tasks + [Deliver(callback)], accepted := q.accepted + [callback]), Accepted)
        else (q, PostRejected)
      case Stopped => (q, SessionStopped)
  }

  function Stop<T>(q: Queue<T>): Queue<T> {
    q.(state := Stopped)
  }

  function Revoke<T>(q: Queue<T>): Queue<T> {
    q.(admitting := false)
  }

  function PostCefReady<T>(q: Queue<T>, posted: bool): Queue<T> {
    if posted then q.(tasks := q.tasks + [MarkReady]) else Stop(q)
  }

  // The UI thread takes its next task up to the point of the first call.
  function Begin<T>(q: Queue<T>): Queue<T> {
    if !q.ui.Idle? || q.tasks == [] then q
    else
      var q1 := q.(tasks := q.tasks[1..]);
      match q.tasks[0]
      case MarkReady =>
        (match q1.state
         case Stopped => q1
         case Ready => q1.(ui := Draining([]))
         case Pending(waiting) => q1.(state := Ready, ui := Draining(waiting)))
      case Deliver(callback) =>
        if q1.state.Stopped? then q1 else q1.(ui := Checked(callback, []))
  }

  // The stop check before each drained callback.
  function Check<T>(q: Queue<T>): Queue<T> {
    match q.ui
    case Draining(rest) =>
      if rest == [] || q.state.Stopped? then q.(ui := Idle)
      else q.(ui := Checked(rest[0], rest[1..]))
    case _ => q
  }

  // The call itself; the session drops it once it admits no dispatch.
  function Call<T>(q: Queue<T>): Queue<T> {
    match q.ui
    case Checked(callback, rest) =>
      var q1 := q.(ui := Draining(rest));
      if q.admitting then q1.(executed := q.executed + [callback]) else q1
    case _ => q
  }

  datatype Step<T> =
    | DoRegister(callback: T, raced: bool, posted: bool)
    | DoPostReady(posted: bool)
    | DoStop
    | DoRevoke
    | DoBegin
    | DoCheck
    | DoCall

  function Next<T>(q: Queue<T>, step: Step<T>): Queue<T> {
    match step
    case DoRegister(callback, raced, posted) => Offer(q, callback, raced, posted).0
    case DoPostReady(posted) => PostCefReady(q, posted)
    case DoStop => Stop(q)
    case DoRevoke => Revoke(q)
    case DoBegin => Begin(q)
    case DoCheck => Check(q)
    case DoCall => Call(q)
  }

  function Run<T>(q: Queue<T>, steps: seq<Step<T>>): Queue<T>
    decreases |steps|
  {
    if steps == [] then q else Run(Next(q, steps[0]), steps[1..])
  }

  // ----- what is still on its way -----

  function Callbacks<T>(tasks: seq<Task<T>>): seq<T> {
    if tasks == [] then []
    else (if tasks[0].Deliver? then [tasks[0].callback] else []) + Callbacks(tasks[1..])
  }

  function InHand<T>(ui: Ui<T>): seq<T> {
    match ui
    case Idle => []
    case Draining(rest) => rest
    case Checked(callback, rest) => [callback] + rest
  }

  function Waiting<T>(state: State<T>): seq<T> {
    if state.Pending? then state.waiting else []
  }

  // Every callback taken and not yet run, next to run first.
  function OnTheWay<T>(q: Queue<T>): seq<T> {
    InHand(q.ui) + Callbacks(q.tasks) + Waiting(q.state)
  }

  // While both gates are open nothing is lost; once one closes, the callbacks
  // that did run are still the oldest ones.
  ghost predicate Inv<T>(q: Queue<T>) {
    && (q.state.Pending? ==> q.ui.Idle? && Callbacks(q.tasks) == [])
    && (q.admitting && !q.state.Stopped? ==> q.accepted == q.executed + OnTheWay(q))
    && (q.admitting && q.ui.Checked? ==> q.executed + [q.ui.callback] <= q.accepted)
    && q.executed <= q.accepted
  }

  lemma {:induction false} CallbacksAppend<T>(tasks: seq<Task<T>>, task: Task<T>)
    ensures Callbacks(tasks + [task]) == Callbacks(tasks) + Callbacks([task])
  {
    if tasks == [] {
      assert tasks + [task] == [task];
    } else {
      CallbacksAppend(tasks[1..], task);
      assert (tasks + [task])[1..] == tasks[1..] + [task];
    }
  }

  lemma {:induction false} WaitKeeps<T>(q: Queue<T>, callback: T)
    requires Inv(q) && q.state.Pending?
    ensures Inv(q.(state := Pending(q.state.waiting + [callback]), accepted := q.accepted + [callback]))
  {
    var q1 := q.(state := Pending(q.state.waiting + [callback]), accepted := q.accepted + [callback]);
    assert OnTheWay(q1) == OnTheWay(q) + [callback];
  }

  lemma {:induction false} DeliverKeeps<T>(q: Queue<T>, callback: T)
    requires Inv(q) && q.state.Ready?
    ensures Inv(q.(tasks := q.tasks + [Deliver(callback)], accepted := q.accepted + [callback]))
  {
    var q1 := q.(tasks := q.tasks + [Deliver(callback)], accepted := q.accepted + [callback]);
    CallbacksAppend(q.tasks, Deliver(callback));
    assert Callbacks([Deliver(callback)]) == [callback];
    assert OnTheWay(q1) == OnTheWay(q) + [callback];
  }

  lemma {:induction false} RegisterKeeps<T>(q: Queue<T>, callback: T, raced: bool, posted: bool)
    requires Inv(q)
    ensures Inv(Offer(q, callback, raced, posted).0)
  {
    if q.admitting || raced {
      if q.state.Pending? {
        WaitKeeps(q, callback);
      } else if q.state.Ready? && posted {
        DeliverKeeps(q, callback);
      }
    }
  }

  lemma {:induction false} BeginKeeps<T>(q: Queue<T>)
    requires Inv(q)
    ensures Inv(Begin(q))
  {
    var q1 := Begin(q);
    if q1 != q && q.admitting && !q.state.Stopped? {
      assert OnTheWay(q1) == OnTheWay(q);
    }
  }

  lemma {:induction false} CallKeeps<T>(q: Queue<T>)
    requires Inv(q)
    ensures Inv(Call(q))
  {
    var q1 := Call(q);
    if q1 != q && q.admitting && !q.state.Stopped? {
      assert OnTheWay(q) == [q.ui.callback] + OnTheWay(q1);
    }
  }

  lemma {:induction false} CheckKeeps<T>(q: Queue<T>)
    requires Inv(q)
    ensures Inv(Check(q))
  {
    var q1 := Check(q);
    if q1 != q && q.admitting && !q.state.Stopped? {
      assert OnTheWay(q1) == OnTheWay(q);
      if q1.ui.Checked? {
        assert q.accepted == q.executed + [q1.ui.callback] + OnTheWay(q)[1..];
      }
    }
  }

  lemma {:induction false} PostKeeps<T>(q: Queue<T>, posted: bool)
    requires Inv(q)
    ensures Inv(PostCefReady(q, posted))
  {
    CallbacksAppend(q.tasks, MarkReady);
    assert Callbacks<T>([MarkReady]) == [];
    var q1 := PostCefReady(q, posted);
    if posted && q.admitting && !q.state.Stopped? {
      assert OnTheWay(q1) == OnTheWay(q);
    }
  }

  lemma {:induction false} NextKeeps<T>(q: Queue<T>, step: Step<T>)
    requires Inv(q)
    ensures Inv(Next(q, step))
  {
    match step
    case DoRegister(callback, raced, posted) => RegisterKeeps(q, callback, raced, posted);
    case DoPostReady(posted) => PostKeeps(q, posted);
    case DoStop =>
    case DoRevoke =>
    case DoBegin => BeginKeeps(q);
    case DoCheck => CheckKeeps(q);
    case DoCall => CallKeeps(q);
  }

  lemma {:induction false} RunKeeps<T>(q: Queue<T>, steps: seq<Step<T>>)
    requires Inv(q)
    ensures Inv(Run(q, steps))
    decreases |steps|
  {
    if steps != [] {
      NextKeeps(q, steps[0]);
      RunKeeps(Next(q, steps[0]), steps[1..]);
    }
  }

  // In every interleaving of registrations, the ready task, posted tasks,
  // revocation and stop, the callbacks that ran are the oldest accepted ones,
  // each once and in order; and while neither gate has closed, none is missing.
  lemma {:induction false} ExecutedInRegistrationOrder<T>(steps: seq<Step<T>>)
    ensures var q := Run(Initial<T>(), steps);
      && q.executed <= q.accepted
      && (q.admitting && !q.state.Stopped? ==> q.accepted == q.executed + OnTheWay(q))
  {
    RunKeeps(Initial<T>(), steps);
  }

  // Seen from outside the channel is a FIFO: a step either accepts one callback
  // at the back, runs the callback at the front, or does neither.
  predicate FifoStep<T(==)>(q: Queue<T>, q1: Queue<T>) {
    || (q1.executed == q.executed && q.accepted <= q1.accepted && |q1.accepted| <= |q.accepted| + 1)
    || (q1.accepted == q.accepted && |q.executed| < |q.accepted| && q1.executed == q.executed + [q.accepted[|q.executed|]])
  }

  lemma {:induction false} NextIsFifo<T>(q: Queue<T>, step: Step<T>)
    requires Inv(q)
    ensures FifoStep(q, Next(q, step))
  {
    if step.DoCall? && q.ui.Checked? && q.admitting {
      var head := q.executed + [q.ui.callback];
      assert head[|q.executed|] == q.accepted[|q.executed|];
    }
  }

  // ----- the UI thread left alone -----

  // The thread's only next step.
  function UiStep<T>(q: Queue<T>): Step<T> {
    match q.ui
    case Idle => DoBegin
    case Draining(_) => DoCheck
    case Checked(_, _) => DoCall
  }

  function Pump<T>(q: Queue<T>, n: nat): Queue<T>
    decreases n
  {
    if n == 0 then q else Pump(Next(q, UiStep(q)), n - 1)
  }

  function TaskWeight<T>(tasks: seq<Task<T>>): nat {
    if tasks == [] then 0 else (if tasks[0].MarkReady? then 2 else 3) + TaskWeight(tasks[1..])
  }

  // How many steps the thread can still take.
  function Weight<T>(q: Queue<T>): nat {
    TaskWeight(q.tasks) + 2 * |Waiting(q.state)|
    + (match q.ui
       case Idle => 0
       case Draining(rest) => 1 + 2 * |rest|
       case Checked(_, rest) => 2 + 2 * |rest|)
  }

  // Both gates are open, and readiness has come or is queued.
  predicate WillRun<T>(q: Queue<T>) {
    q.admitting && !q.state.Stopped? && (q.state.Ready? || exists k :: 0 <= k < |q.tasks| && q.tasks[k].MarkReady?)
  }

  lemma {:induction false} UiStepProgress<T>(q: Queue<T>)
    requires Inv(q) && WillRun(q)
    ensures var q1 := Next(q, UiStep(q));
      && WillRun(q1) && q1.accepted == q.accepted
      && (Weight(q1) < Weight(q) || (q1 == q && q.ui.Idle? && q.tasks == []))
  {
  }

  // Left alone with both gates open, the UI thread runs every callback accepted,
  // within as many steps as its tasks weigh.
  lemma {:induction false} UiRunsEverything<T>(q: Queue<T>, n: nat)
    requires Inv(q) && WillRun(q) && n >= Weight(q)
    ensures var q1 := Pump(q, n);
      && Inv(q1) && WillRun(q1) && q1.accepted == q.accepted && q1.executed == q.accepted
    decreases n
  {
    UiStepProgress(q);
    if n > 0 {
      NextKeeps(q, UiStep(q));
      UiRunsEverything(Next(q, UiStep(q)), n - 1);
    } else {
      assert q.ui.Idle? && q.tasks == [];
      assert OnTheWay(q) == [];
    }
  }

  // ----- the gates, off the steps alone -----

  // CEF rejecting the readiness task stops the channel too.
  predicate Stops<T>(step: Step<T>) {
    step.DoStop? || (step.DoPostReady? && !step.posted)
  }

  lemma {:induction false} GateStep<T>(q: Queue<T>, step: Step<T>)
    ensures var q1 := Next(q, step);
      && q1.admitting == (q.admitting && !step.DoRevoke?)
      && (q1.state.Stopped? <==> q.state.Stopped? || Stops(step))
  {
  }

  // In every run the session admits until it is revoked, and the channel is stopped
  // from the first stop or rejected readiness on, and by nothing else.
  lemma {:induction false} GatesAreTheHistory<T>(steps: seq<Step<T>>)
    ensures var q := Run(Initial(), steps);
      && (q.admitting <==> forall k | 0 <= k < |steps| :: !steps[k].DoRevoke?)
      && (q.state.Stopped? <==> exists k | 0 <= k < |steps| :: Stops(steps[k]))
  {
    GatesFrom(Initial(), steps);
  }

  lemma {:induction false} GatesFrom<T>(q: Queue<T>, steps: seq<Step<T>>)
    ensures var q1 := Run(q, steps);
      && (q1.admitting <==> q.admitting && forall k | 0 <= k < |steps| :: !steps[k].DoRevoke?)
      && (q1.state.Stopped? <==> q.state.Stopped? || exists k | 0 <= k < |steps| :: Stops(steps[k]))
    decreases |steps|
  {
    if steps != [] {
      GateStep(q, steps[0]);
      GatesFrom(Next(q, steps[0]), steps[1..]);
      assert forall k | 0 < k < |steps| :: steps[k] == steps[1..][k - 1];
      assert forall k | 0 <= k < |steps[1..]| :: steps[1..][k] == steps[k + 1];
    }
  }

  // A callback is taken exactly if the session lets its caller in, the channel is not
  // stopped, and it need not be posted or is; what refused it decides the error, and
  // a refusal changes nothing.
  lemma {:induction false} TakenExactly<T>(q: Queue<T>, callback: T, raced: bool, posted: bool)
    ensures var (q1, outcome) := Offer(q, callback, raced, posted);
      var open := (q.admitting || raced) && !q.state.Stopped?;
      && (outcome == Accepted <==> open && (q.state.Ready? ==> posted))
      && (outcome == SessionStopped <==> !open)
      && (if outcome == Accepted then q1.accepted == q.accepted + [callback] && q1.executed == q.executed else q1 == q)
  {
  }

  // ----- after stop -----

  // The UI thread has looked at the state and seen stop, or has nothing in hand.
  predicate Silenced<T>(q: Queue<T>) {
    q.state.Stopped? && !q.ui.Checked?
  }

  // Once stop is seen, no callback runs again, whatever was queued before.
  lemma {:induction false} SilencedForEver<T>(q: Queue<T>, steps: seq<Step<T>>)
    requires Silenced(q)
    ensures Silenced(Run(q, steps)) && Run(q, steps).executed == q.executed
    decreases |steps|
  {
    if steps != [] {
      SilencedForEver(Next(q, steps[0]), steps[1..]);
    }
  }

  // A stop lets at most the one callback through whose check it missed.
  lemma {:induction false} StopLetsOneThrough<T>(q: Queue<T>, steps: seq<Step<T>>)
    requires q.state.Stopped?
    ensures var after := Run(q, steps).executed;
      after == q.executed || (q.ui.Checked? && after == q.executed + [q.ui.callback])
    decreases |steps|
  {
    if Silenced(q) {
      SilencedForEver(q, steps);
    } else if steps != [] {
      StopLetsOneThrough(Next(q, steps[0]), steps[1..]);
    }
  }

  // Revocation lets none through.
  lemma {:induction false} RevokedForEver<T>(q: Queue<T>, steps: seq<Step<T>>)
    requires !q.admitting
    ensures var q1 := Run(q, steps); !q1.admitting && q1.executed == q.executed
    decreases |steps|
  {
    if steps != [] {
      RevokedForEver(Next(q, steps[0]), steps[1..]);
    }
  }

  // ----- the shared state and its two updates, in place -----

  class Channel<T> {
    var state: State<T>
    var admitting: bool
    var tasks: seq<Task<T>>
    var ui: Ui<T>
    ghost var accepted: seq<T>
    ghost var executed: seq<T>

    ghost function Abs(): Queue<T>
      reads this
    {
      Queue(state, admitting, tasks, ui, accepted, executed)
    }

    constructor ()
      ensures Abs() == Initial()
    {
      state, admitting, tasks, ui := Pending([]), true, [], Idle;
      accepted, executed := [], [];
    }

    // `Readiness::register`: the callback comes back when it is to be posted.
    method Register(callback: T) returns (toPost: Option<T>, stopped: bool)
      modifies this`state
      ensures stopped <==> old(state).Stopped?
      ensures toPost == if old(state).Ready? then Some(callback) else None
      ensures state == if old(state).Pending? then Pending(old(state).waiting + [callback]) else old(state)
    {
      toPost, stopped := None, false;
      match state {
        case Pending(waiting) => state := Pending(waiting + [callback]);
        case Ready => toPost := Some(callback);
        case Stopped => stopped := true;
      }
    }

    method OnCefReady(callback: T, raced: bool, posted: bool) returns (outcome: Outcome)
      modifies this
      ensures (Abs(), outcome) == Offer(old(Abs()), callback, raced, posted)
    {
      if !admitting && !raced {
        return SessionStopped;
      }
      var toPost, stopped := Register(callback);
      if stopped {
        return SessionStopped;
      }
      if toPost.Some? {
        if !posted {
          return PostRejected;
        }
        tasks := tasks + [Deliver(toPost.value)];
      }
      accepted := accepted + [callback];
      return Accepted;
    }

    method StopNow()
      modifies this
      ensures Abs() == Stop(old(Abs()))
    {
      state := Stopped;
    }

    // `Readiness::mark_ready`: the waiters, handed over once.
    method MarkReadyNow() returns (waiting: seq<T>)
      modifies this`state
      ensures waiting == Waiting(old(state))
      ensures state == if old(state).Stopped? then Stopped else Ready
    {
      waiting := [];
      if !state.Stopped? {
        if state.Pending? {
          waiting := state.waiting;
        }
        state := Ready;
      }
    }

    method BeginTask()
      modifies this
      ensures Abs() == Begin(old(Abs()))
    {
      if !ui.Idle? || tasks == [] {
        return;
      }
      var task := tasks[0];
      tasks := tasks[1..];
      match task {
        case MarkReady =>
          var stopped := state.Stopped?;
          var waiting := MarkReadyNow();
          if !stopped {
            ui := Draining(waiting);
          }
        case Deliver(callback) =>
          if !state.Stopped? {
            ui := Checked(callback, []);
          }
      }
    }

    method CheckNext()
      modifies this
      ensures Abs() == Check(old(Abs()))
    {
      if ui.Draining? {
        if ui.rest == [] || state.Stopped? {
          ui := Idle;
        } else {
          ui := Checked(ui.rest[0], ui.rest[1..]);
        }
      }
    }

    // Returns the callback to run, when the session still admits it.
    method CallNext() returns (callback: Option<T>)
      modifies this
      ensures Abs() == Call(old(Abs()))
      ensures callback == if old(ui).Checked? && old(admitting) then Some(old(ui).callback) else None
    {
      callback := None;
      if ui.Checked? {
        if admitting {
          callback := Some(ui.callback);
          executed := executed + [ui.callback];
        }
        ui := Draining(ui.rest);
      }
    }
  }
}
