// The rich-presence worker: one thread, one connection, a projected view that
// is pushed when it changed, throttled and retried with a growing pause.
// Instants and durations are whole milliseconds.
module Discord {
  import opened Wrappers

  const MIN_UPDATE_INTERVAL: nat := 4_000
  const RECONNECT_MIN: nat := 5_000
  const RECONNECT_MAX: nat := 60_000
  // The rate limit the interval is chosen for.
  const RATE_WINDOW: nat := 20_000
  const RATE_LIMIT: nat := 5

  datatype Kind = Episode | Movie | Music

  datatype StatusLine = AppName | Title

  datatype Progress = Progress(elapsedUs: int, remainingUs: int)

  datatype Activity = Activity(
    kind: Kind, details: string, state: string, largeImage: string, largeText: string,
    progress: Option<Progress>, paused: bool, statusLine: StatusLine)

  const NOTHING := Activity(Movie, "", "", "", "", None, false, AppName)

  datatype Metadata = Metadata(id: string, fields: map<string, string>)

  datatype Snapshot = Snapshot(phase: nat, positionUs: int, rate: real)

  datatype EventKind =
    | MetadataChanged
    | Started | Paused | Finished | Canceled | Failed | TrackLoaded | DurationChanged | RateChanged
    | MediaTypeChanged | Seeked
    | PositionChanged | SeekingChanged | BufferingChanged | ArtworkChanged | FullscreenChanged
    | BufferedRangesChanged | DisplayHzChanged | QueueCapsChanged

  datatype Settings = Settings(serverUrl: string, statusTitle: bool)

  // Every event carries the snapshot after its batch; the settings are read
  // while it is handled.
  datatype Event = Event(kind: EventKind, metadata: Metadata, snapshot: Snapshot, settings: Settings)

  datatype State = State(content: Metadata, snapshot: Snapshot, view: Activity)

  type Projection = (Metadata, Snapshot, Settings) -> Activity

  predicate Accepts(content: Metadata, ev: Event) {
    ev.metadata.id == "" || ev.metadata.id != content.id
  }

  predicate Recomputes(content: Metadata, ev: Event) {
    match ev.kind
    case MetadataChanged => Accepts(content, ev)
    case PositionChanged | SeekingChanged | BufferingChanged | ArtworkChanged | FullscreenChanged
         | BufferedRangesChanged | DisplayHzChanged | QueueCapsChanged => false
    case _ => true
  }

  function HandleEvent(ev: Event, st: State, project: Projection): (State, bool) {
    var st1 := st.(snapshot := ev.snapshot);
    var st2 := if ev.kind.MetadataChanged? && Accepts(st.content, ev) then st1.(content := ev.metadata) else st1;
    if !Recomputes(st.content, ev) then (st1, false)
    else
      var next := project(st2.content, st2.snapshot, ev.settings);
      if next == st.view then (st2, false) else (st2.(view := next), true)
  }

  // What one push asks of Discord; a new connection shows nothing.
  datatype Request = Clear | Show(view: Activity)

  function Render(view: Activity): Request {
    if view.details == "" && view.state == "" then Clear else Show(view)
  }

  // ----- the worker -----

  datatype Message = Deliver(event: Event) | Stop

  // One turn of the loop: the message, what the connection and the push
  // returned if they were tried, and the clock where the turn reads it. The
  // push's request leaves between the due check and its return.
  datatype Turn = Turn(
    message: Option<Message>, connectAt: nat, connectOk: bool, failedAt: nat,
    dueAt: nat, sentAt: nat, pushOk: bool, doneAt: nat)

  datatype Attempt = Attempt(at: nat, request: Request, ok: bool)

  // `attempts`, `shown`, `failures`, `clock` and `cleared` are histories: every
  // push tried, the last request this connection took, the failures since the
  // last connection, the latest clock read, and the clear sent on the way out.
  datatype Worker = Worker(
    state: State, connected: bool, backoff: nat, nextConnect: nat, pending: bool, lastSent: Option<nat>,
    ended: bool, attempts: seq<Attempt>, shown: Request, failures: nat, clock: nat, cleared: Option<nat>)

  function New(now: nat): Worker {
    Worker(
      State(Metadata("", map[]), Snapshot(3, 0, 0.0), NOTHING), false, RECONNECT_MIN, now, false, None,
      false, [], Clear, 0, now, None)
  }

  // The clock never runs backwards, within a turn or across turns.
  predicate InOrder(w: Worker, t: Turn) {
    w.clock <= t.connectAt <= t.failedAt <= t.dueAt <= t.sentAt <= t.doneAt
  }

  function Min(a: nat, b: nat): nat {
    if a < b then a else b
  }

  function Backed(w: Worker, now: nat): Worker {
    w.(nextConnect := now + w.backoff, backoff := Min(w.backoff * 2, RECONNECT_MAX), failures := w.failures + 1)
  }

  function Receive(w: Worker, event: Option<Message>, project: Projection): Worker {
    if event.Some? && event.value.Deliver? then
      var (state, changed) := HandleEvent(event.value.event, w.state, project);
      w.(state := state, pending := w.pending || changed)
    else w
  }

  function TryConnect(w: Worker, t: Turn): Worker {
    if w.connected || t.connectAt < w.nextConnect then w.(clock := t.failedAt)
    else if t.connectOk then
      w.(clock := t.failedAt, connected := true, backoff := RECONNECT_MIN, pending := w.state.view != NOTHING, lastSent := None,
      shown := Clear, failures := 0)
    else Backed(w.(clock := t.failedAt), t.failedAt)
  }

  predicate Due(w: Worker, now: nat) {
    w.lastSent.None? || now - w.lastSent.value >= MIN_UPDATE_INTERVAL
  }

  function TryPush(w: Worker, t: Turn): Worker {
    if !(w.connected && w.pending && Due(w, t.dueAt)) then w.(clock := t.doneAt)
    else
      var request := Render(w.state.view);
      var w1 := w.(clock := t.doneAt, attempts := w.attempts + [Attempt(t.sentAt, request, t.pushOk)]);
      if t.pushOk then w1.(pending := false, lastSent := Some(t.doneAt), shown := request)
      else Backed(w1.(connected := false), t.doneAt)
  }

  function Finish(w: Worker, now: nat): Worker {
    if w.connected then w.(ended := true, cleared := Some(now), shown := Clear, connected := false)
    else w.(ended := true)
  }

  function Next(w: Worker, t: Turn, project: Projection): Worker {
    if w.ended then w
    else if t.message == Some(Stop) then Finish(w, t.sentAt).(clock := t.doneAt)
    else TryPush(TryConnect(Receive(w, t.message, project), t), t)
  }

  function Run(w: Worker, turns: seq<Turn>, project: Projection): Worker
    decreases |turns|
  {
    if turns == [] then w else Next(Run(w, turns[..|turns| - 1], project), turns[|turns| - 1], project)
  }

  // Every turn read a clock that had not run backwards.
  ghost predicate Timely(w: Worker, turns: seq<Turn>, project: Projection) {
    forall k | 0 <= k < |turns| :: InOrder(Run(w, turns[..k], project), turns[k])
  }

  // ----- invariant -----

  function Capped(failures: nat): nat
    decreases failures
  {
    if failures == 0 then RECONNECT_MIN else Min(Capped(failures - 1) * 2, RECONNECT_MAX)
  }

  lemma {:induction false} CappedBounds(failures: nat)
    ensures RECONNECT_MIN <= Capped(failures) <= RECONNECT_MAX
    ensures failures >= 4 ==> Capped(failures) == RECONNECT_MAX
    decreases failures
  {
    if failures > 0 {
      CappedBounds(failures - 1);
      if failures == 4 {
        assert Capped(1) == 10_000 && Capped(2) == 20_000 && Capped(3) == 40_000;
      }
    }
  }

  ghost predicate Spaced(attempts: seq<Attempt>) {
    forall k | 1 <= k < |attempts| :: attempts[k - 1].at + MIN_UPDATE_INTERVAL <= attempts[k].at
  }

  ghost predicate TimeInv(w: Worker) {
    && Spaced(w.attempts)
    && w.backoff == Capped(w.failures)
    && (w.connected ==> w.failures == 0)
    && (!w.ended ==> w.cleared.None?)
    && (w.lastSent.Some? ==> w.lastSent.value <= w.clock)
    && (w.attempts != [] ==>
          var last := w.attempts[|w.attempts| - 1].at;
          && last <= w.clock
          && (w.ended
              || (!w.connected && last + MIN_UPDATE_INTERVAL <= w.nextConnect)
              || (w.connected && w.lastSent.Some? && last <= w.lastSent.value)
              || (w.connected && w.lastSent.None? && last + MIN_UPDATE_INTERVAL <= w.clock)))
  }

  // What Discord shows, unless a push is owed.
  ghost predicate ShownInv(w: Worker) {
    w.connected && !w.pending ==> w.shown == Render(w.state.view)
  }

  lemma {:induction false} PushKeepsTime(w: Worker, t: Turn)
    requires TimeInv(w) && !w.ended && w.clock <= t.dueAt <= t.sentAt <= t.doneAt
    ensures TimeInv(TryPush(w, t))
  {
    var w1 := TryPush(w, t);
    CappedBounds(w.failures);
    if w1.attempts != w.attempts {
      assert w1.attempts[|w.attempts|].at == t.sentAt;
      forall k | 1 <= k < |w1.attempts|
        ensures w1.attempts[k - 1].at + MIN_UPDATE_INTERVAL <= w1.attempts[k].at
      {
        assert w1.attempts[k - 1] == w.attempts[k - 1];
        assert k < |w.attempts| ==> w1.attempts[k] == w.attempts[k];
      }
    }
  }

  lemma {:induction false} ConnectKeepsTime(w: Worker, t: Turn)
    requires TimeInv(w) && !w.ended && w.clock <= t.connectAt <= t.failedAt
    ensures var w1 := TryConnect(w, t); TimeInv(w1) && !w1.ended && w1.clock == t.failedAt
  {
    CappedBounds(w.failures);
    assert TryConnect(w, t).attempts == w.attempts;
  }

  lemma {:induction false} ReceiveKeepsTime(w: Worker, message: Option<Message>, project: Projection)
    requires TimeInv(w)
    ensures var w1 := Receive(w, message, project); TimeInv(w1) && w1.ended == w.ended && w1.clock == w.clock
  {
  }

  lemma {:induction false} NextKeepsTime(w: Worker, t: Turn, project: Projection)
    requires TimeInv(w) && InOrder(w, t)
    ensures TimeInv(Next(w, t, project))
  {
    if !w.ended && t.message != Some(Stop) {
      var w1 := Receive(w, t.message, project);
      ReceiveKeepsTime(w, t.message, project);
      ConnectKeepsTime(w1, t);
      PushKeepsTime(TryConnect(w1, t), t);
    }
  }

  lemma {:induction false} NextKeepsShown(w: Worker, t: Turn, project: Projection)
    requires ShownInv(w)
    ensures ShownInv(Next(w, t, project))
  {
  }

  lemma {:induction false} TimelyPrefix(w: Worker, turns: seq<Turn>, project: Projection)
    requires Timely(w, turns, project) && turns != []
    ensures var before := turns[..|turns| - 1];
      Timely(w, before, project) && InOrder(Run(w, before, project), turns[|turns| - 1])
  {
    var before, last := turns[..|turns| - 1], |turns| - 1;
    forall k | 0 <= k < |before|
      ensures InOrder(Run(w, before[..k], project), before[k])
    {
      assert before[..k] == turns[..k];
      assert InOrder(Run(w, turns[..k], project), turns[k]);
    }
    assert InOrder(Run(w, turns[..last], project), turns[last]);
  }

  lemma {:induction false} RunKeeps(now: nat, turns: seq<Turn>, project: Projection)
    requires Timely(New(now), turns, project)
    ensures TimeInv(Run(New(now), turns, project)) && ShownInv(Run(New(now), turns, project))
    decreases |turns|
  {
    if turns != [] {
      var before, last := turns[..|turns| - 1], turns[|turns| - 1];
      TimelyPrefix(New(now), turns, project);
      RunKeeps(now, before, project);
      NextKeepsTime(Run(New(now), before, project), last, project);
      NextKeepsShown(Run(New(now), before, project), last, project);
    }
  }

  // ----- results -----

  // How many attempts fall in the half-open window that starts at `start`.
  function CountIn(attempts: seq<Attempt>, start: nat): nat
    decreases |attempts|
  {
    if attempts == [] then 0
    else
      var last := attempts[|attempts| - 1].at;
      CountIn(attempts[..|attempts| - 1], start) + if start <= last < start + RATE_WINDOW then 1 else 0
  }

  lemma {:induction false} SpacedCount(attempts: seq<Attempt>, start: nat)
    requires Spaced(attempts)
    ensures var n := CountIn(attempts, start);
      n <= RATE_LIMIT && (n > 0 ==> start + (n - 1) * MIN_UPDATE_INTERVAL <= attempts[|attempts| - 1].at)
    decreases |attempts|
  {
    if attempts != [] {
      var before := attempts[..|attempts| - 1];
      SpacedCount(before, start);
      if |before| > 0 {
        assert attempts[|attempts| - 2] == before[|before| - 1];
      }
    }
  }

  // Any two consecutive pushes, whether they succeeded or broke the connection
  // and across every reconnection, are at least the interval apart.
  lemma {:induction false} AttemptsAreSpaced(now: nat, turns: seq<Turn>, project: Projection)
    requires Timely(New(now), turns, project)
    ensures Spaced(Run(New(now), turns, project).attempts)
  {
    RunKeeps(now, turns, project);
  }

  // So no half-open window of twenty seconds holds more than five of them.
  lemma {:induction false} WithinRateLimit(now: nat, turns: seq<Turn>, project: Projection, start: nat)
    requires Timely(New(now), turns, project)
    ensures CountIn(Run(New(now), turns, project).attempts, start) <= RATE_LIMIT
  {
    RunKeeps(now, turns, project);
    SpacedCount(Run(New(now), turns, project).attempts, start);
  }

  // The clear sent when the worker stops is not throttled: counted with the
  // pushes, a window can hold one request more.
  function RequestsIn(w: Worker, start: nat): nat {
    CountWith(w.attempts, w.cleared, start)
  }

  function CountWith(attempts: seq<Attempt>, cleared: Option<nat>, start: nat): nat {
    CountIn(attempts, start) + if cleared.Some? && start <= cleared.value < start + RATE_WINDOW then 1 else 0
  }

  lemma {:induction false} Ordered(attempts: seq<Attempt>, i: nat, k: nat)
    requires Spaced(attempts) && i <= k < |attempts|
    ensures attempts[i].at <= attempts[k].at
    decreases k
  {
    if i < k {
      Ordered(attempts, i, k - 1);
    }
  }

  // The last `m` attempts are counted if the window holds the first and the last
  // of them.
  lemma {:induction false} CountsTheLast(attempts: seq<Attempt>, start: nat, m: nat)
    requires Spaced(attempts) && 0 < m <= |attempts|
    requires start <= attempts[|attempts| - m].at && attempts[|attempts| - 1].at < start + RATE_WINDOW
    ensures CountIn(attempts, start) >= m
    decreases m
  {
    var before := attempts[..|attempts| - 1];
    Ordered(attempts, |attempts| - m, |attempts| - 1);
    if m > 1 {
      assert before[|before| - (m - 1)] == attempts[|attempts| - m];
      Ordered(attempts, |before| - 1, |before|);
      CountsTheLast(before, start, m - 1);
    }
  }

  // And `m` counted are the last `m` at the least.
  lemma {:induction false} CountedAreLast(attempts: seq<Attempt>, start: nat, m: nat)
    requires Spaced(attempts) && 0 < m <= CountIn(attempts, start)
    ensures m <= |attempts| && start <= attempts[|attempts| - m].at
    decreases |attempts|
  {
    var before, last := attempts[..|attempts| - 1], attempts[|attempts| - 1].at;
    if !(start <= last < start + RATE_WINDOW) {
      CountedAreLast(before, start, m);
      Ordered(attempts, |before| - m, |attempts| - m);
    } else if m > 1 {
      CountedAreLast(before, start, m - 1);
      assert before[|before| - (m - 1)] == attempts[|attempts| - m];
    }
  }

  // Whether a clear at `at` makes one request too many depends on the fifth last
  // push alone.
  predicate FifthIsNear(attempts: seq<Attempt>, at: nat) {
    |attempts| >= RATE_LIMIT && at < attempts[|attempts| - RATE_LIMIT].at + RATE_WINDOW
  }

  lemma {:induction false} TooManyMeansNear(attempts: seq<Attempt>, cleared: Option<nat>, start: nat)
    requires Spaced(attempts) && CountWith(attempts, cleared, start) > RATE_LIMIT
    ensures cleared.Some? && FifthIsNear(attempts, cleared.value)
  {
    SpacedCount(attempts, start);
    CountedAreLast(attempts, start, RATE_LIMIT);
  }

  lemma {:induction false} NearMeansTooMany(attempts: seq<Attempt>, at: nat)
    requires Spaced(attempts) && FifthIsNear(attempts, at) && attempts[|attempts| - 1].at <= at
    ensures CountWith(attempts, Some(at), attempts[|attempts| - RATE_LIMIT].at) > RATE_LIMIT
  {
    Ordered(attempts, |attempts| - RATE_LIMIT, |attempts| - 1);
    CountsTheLast(attempts, attempts[|attempts| - RATE_LIMIT].at, RATE_LIMIT);
  }

  lemma {:induction false} StopClears(w: Worker, t: Turn, project: Projection)
    requires TimeInv(w) && !w.ended && InOrder(w, t) && t.message == Some(Stop)
    ensures var w1 := Next(w, t, project);
      w1.attempts == w.attempts && w1.cleared == (if w.connected then Some(t.sentAt) else None)
    ensures w.attempts != [] ==> w.attempts[|w.attempts| - 1].at <= t.sentAt
  {
  }

  // A state some run of turns in clock order leads to.
  ghost predicate Reached(w: Worker, now: nat, turns: seq<Turn>, project: Projection) {
    Timely(New(now), turns, project) && w == Run(New(now), turns, project)
  }

  lemma {:induction false} ReachedKeeps(w: Worker, now: nat, turns: seq<Turn>, project: Projection)
    requires Reached(w, now, turns, project)
    ensures TimeInv(w)
  {
    RunKeeps(now, turns, project);
  }

  // Stopping goes over the limit exactly on a live connection whose fifth last
  // push is less than the window before the stop's clear.
  lemma {:induction false} OverLimitExactlyByTheClear(w: Worker, now: nat, turns: seq<Turn>, project: Projection, t: Turn)
    requires Reached(w, now, turns, project) && !w.ended
    requires InOrder(w, t) && t.message == Some(Stop)
    ensures (exists start: nat :: RequestsIn(Next(w, t, project), start) > RATE_LIMIT) <==>
            w.connected && |w.attempts| >= RATE_LIMIT && t.sentAt < w.attempts[|w.attempts| - RATE_LIMIT].at + RATE_WINDOW
  {
    ReachedKeeps(w, now, turns, project);
    OverLimitAtStop(w, t, project);
  }

  lemma {:induction false} OverLimitAtStop(w: Worker, t: Turn, project: Projection)
    requires TimeInv(w) && !w.ended && InOrder(w, t) && t.message == Some(Stop)
    ensures (exists start: nat :: RequestsIn(Next(w, t, project), start) > RATE_LIMIT) <==>
            w.connected && |w.attempts| >= RATE_LIMIT && t.sentAt < w.attempts[|w.attempts| - RATE_LIMIT].at + RATE_WINDOW
  {
    var w1 := Next(w, t, project);
    StopClears(w, t, project);
    forall start: nat | RequestsIn(w1, start) > RATE_LIMIT
      ensures w.connected && FifthIsNear(w.attempts, t.sentAt)
    {
      TooManyMeansNear(w.attempts, w1.cleared, start);
    }
    if w.connected && FifthIsNear(w.attempts, t.sentAt) {
      NearMeansTooMany(w.attempts, t.sentAt);
      assert RequestsIn(w1, w.attempts[|w.attempts| - RATE_LIMIT].at) > RATE_LIMIT;
    }
  }

  // Such a run: a change of view every four seconds, then a stop.
  const EACH_POSITION: Projection :=
    (content: Metadata, snapshot: Snapshot, settings: Settings) =>
      NOTHING.(details := "title", progress := Some(Progress(snapshot.positionUs, 0)))

  function At(message: Message, now: nat): Turn {
    Turn(Some(message), now, true, now, now, now, true, now)
  }

  function Seek(n: nat): Event {
    Event(Seeked, Metadata("", map[]), Snapshot(1, n, 1.0), Settings("", false))
  }

  function BusyTurn(n: nat): Turn
    requires n > 0
  {
    At(Deliver(Seek(n)), MIN_UPDATE_INTERVAL * (n - 1))
  }

  lemma {:induction false} TimelyStep(w: Worker, turns: seq<Turn>, t: Turn, project: Projection)
    requires Timely(w, turns, project) && InOrder(Run(w, turns, project), t)
    ensures Timely(w, turns + [t], project)
    ensures Run(w, turns + [t], project) == Next(Run(w, turns, project), t, project)
  {
    var all := turns + [t];
    assert all[..|all| - 1] == turns;
    forall k | 0 <= k < |all|
      ensures InOrder(Run(w, all[..k], project), all[k])
    {
      assert k < |turns| ==> all[..k] == turns[..k] && all[k] == turns[k];
      assert k == |turns| ==> all[..k] == turns;
    }
  }

  ghost predicate AfterBusy(w: Worker, n: nat) {
    if n == 0 then w == New(0)
    else
      && !w.ended && w.connected && w.clock == MIN_UPDATE_INTERVAL * (n - 1) && w.lastSent == Some(w.clock)
      && w.state.view.progress == Some(Progress(n, 0))
      && CountIn(w.attempts, 0) == n
  }

  lemma {:induction false} BusyPush(w: Worker, n: nat)
    requires 1 <= n <= RATE_LIMIT && AfterBusy(w, n - 1)
    ensures AfterBusy(Next(w, BusyTurn(n), EACH_POSITION), n)
  {
    var w1 := Receive(w, BusyTurn(n).message, EACH_POSITION);
    assert w1.state.view.progress == Some(Progress(n, 0)) && w1.state.view.details == "title";
    assert w1.pending && w1.attempts == w.attempts;
    var w2 := TryConnect(w1, BusyTurn(n));
    assert w2.connected && w2.pending && Due(w2, BusyTurn(n).dueAt);
    var w3 := TryPush(w2, BusyTurn(n));
    assert w3.attempts == w.attempts + [Attempt(MIN_UPDATE_INTERVAL * (n - 1), Render(w2.state.view), true)];
    assert w3.attempts[..|w3.attempts| - 1] == w.attempts;
  }

  lemma {:induction false} BusyInOrder(w: Worker, n: nat)
    requires 1 <= n && AfterBusy(w, n - 1)
    ensures InOrder(w, BusyTurn(n))
  {
  }

  lemma {:induction false} BusyExtend(w: Worker, turns: seq<Turn>, n: nat) returns (w1: Worker, more: seq<Turn>)
    requires 1 <= n <= RATE_LIMIT && Reached(w, 0, turns, EACH_POSITION) && AfterBusy(w, n - 1)
    ensures Reached(w1, 0, more, EACH_POSITION) && AfterBusy(w1, n)
  {
    w1, more := Next(w, BusyTurn(n), EACH_POSITION), turns + [BusyTurn(n)];
    BusyInOrder(w, n);
    TimelyStep(New(0), turns, BusyTurn(n), EACH_POSITION);
    BusyPush(w, n);
  }

  lemma {:induction false} BusyStart()
    ensures Reached(New(0), 0, [], EACH_POSITION)
  {
  }

  lemma {:induction false} BusyRun(n: nat) returns (w: Worker, turns: seq<Turn>)
    requires n <= RATE_LIMIT
    ensures Reached(w, 0, turns, EACH_POSITION) && AfterBusy(w, n)
    decreases n
  {
    if n == 0 {
      BusyStart();
      w, turns := New(0), [];
    } else {
      w, turns := BusyRun(n - 1);
      w, turns := BusyExtend(w, turns, n);
    }
  }

  lemma {:induction false} ClearCanBeTheSixth() returns (turns: seq<Turn>)
    ensures Timely(New(0), turns, EACH_POSITION)
    ensures RequestsIn(Run(New(0), turns, EACH_POSITION), 0) == RATE_LIMIT + 1
  {
    var w, busy := BusyRun(RATE_LIMIT);
    TimelyStep(New(0), busy, At(Stop, 16_001), EACH_POSITION);
    turns := busy + [At(Stop, 16_001)];
  }

  // The pause before the next connection doubles with every failure since the
  // last connection, from five seconds to sixty.
  lemma {:induction false} BackoffFollowsFailures(now: nat, turns: seq<Turn>, project: Projection)
    requires Timely(New(now), turns, project)
    ensures var w := Run(New(now), turns, project);
      w.backoff == Capped(w.failures) && RECONNECT_MIN <= w.backoff <= RECONNECT_MAX
  {
    RunKeeps(now, turns, project);
    CappedBounds(Run(New(now), turns, project).failures);
  }

  // Connected with nothing pending, the last request Discord took on this
  // connection, or the nothing it starts with, renders the current view.
  lemma {:induction false} ShownIsCurrent(now: nat, turns: seq<Turn>, project: Projection)
    requires Timely(New(now), turns, project)
    ensures var w := Run(New(now), turns, project);
      w.connected && !w.pending ==>
        w.shown == if w.state.view.details == "" && w.state.view.state == "" then Clear else Show(w.state.view)
  {
    RunKeeps(now, turns, project);
  }

  // A turn never leaves an update waiting on a live connection unless the last
  // push returned less than the interval before the turn's due check.
  lemma {:induction false} WaitsOnlyForTheThrottle(w: Worker, t: Turn, project: Projection)
    requires !w.ended
    ensures var w1 := Next(w, t, project);
      w1.connected && w1.pending ==> w1.lastSent.Some? && t.dueAt - w1.lastSent.value < MIN_UPDATE_INTERVAL
  {
    var w1 := TryConnect(Receive(w, t.message, project), t);
    if t.message != Some(Stop) && w1.connected && w1.pending && Due(w1, t.dueAt) {
      assert !TryPush(w1, t).pending || !TryPush(w1, t).connected;
    }
  }

  // ----- the view -----

  function Handled(events: seq<Event>, st: State, project: Projection): State
    decreases |events|
  {
    if events == [] then st
    else HandleEvent(events[|events| - 1], Handled(events[..|events| - 1], st, project), project).0
  }

  // Only a push is owed when the view moved, and the snapshot is always the
  // event's.
  lemma {:induction false} ChangedMeansMoved(ev: Event, st: State, project: Projection)
    ensures var (st1, changed) := HandleEvent(ev, st, project);
      && (changed <==> st1.view != st.view)
      && st1.snapshot == ev.snapshot
      && (changed ==> st1.view == project(st1.content, st1.snapshot, ev.settings))
  {
  }

  // Repeating an item's metadata, however it differs, never replaces what the
  // item was first announced with.
  lemma {:induction false} FirstAnnouncementStays(events: seq<Event>, st: State, project: Projection)
    requires st.content.id != ""
    requires forall k | 0 <= k < |events| ::
      events[k].kind.MetadataChanged? ==> events[k].metadata.id == st.content.id
    ensures Handled(events, st, project).content == st.content
    decreases |events|
  {
    if events != [] {
      FirstAnnouncementStays(events[..|events| - 1], st, project);
      assert events[|events| - 1].kind.MetadataChanged? ==> events[|events| - 1].metadata.id == st.content.id;
    }
  }

  // ----- the view, off the events alone -----

  // The item last announced, by name.
  function LastItem(events: seq<Event>, first: string): string
    decreases |events|
  {
    if events == [] then first
    else if events[|events| - 1].kind.MetadataChanged? then events[|events| - 1].metadata.id
    else LastItem(events[..|events| - 1], first)
  }

  // An event opens an item when it announces another one than the last, or one
  // without a name.
  predicate Opens(events: seq<Event>, first: string, k: nat)
    requires k < |events|
  {
    && events[k].kind.MetadataChanged?
    && (events[k].metadata.id == "" || events[k].metadata.id != LastItem(events[..k], first))
  }

  // Only the bookkeeping of playback leaves the view alone.
  predicate Bookkeeping(kind: EventKind) {
    kind in {PositionChanged, SeekingChanged, BufferingChanged, ArtworkChanged, FullscreenChanged,
             BufferedRangesChanged, DisplayHzChanged, QueueCapsChanged}
  }

  predicate Tells(events: seq<Event>, first: string, k: nat)
    requires k < |events|
  {
    if events[k].kind.MetadataChanged? then Opens(events, first, k) else !Bookkeeping(events[k].kind)
  }

  // What the last opening event announced.
  function LastContent(events: seq<Event>, first: Metadata): Metadata
    decreases |events|
  {
    if events == [] then first
    else if Opens(events, first.id, |events| - 1) then events[|events| - 1].metadata
    else LastContent(events[..|events| - 1], first)
  }

  // The projection of what was announced and of the last telling event's own
  // snapshot and settings.
  function LastView(events: seq<Event>, st: State, project: Projection): Activity
    decreases |events|
  {
    if events == [] then st.view
    else
      var ev := events[|events| - 1];
      if Tells(events, st.content.id, |events| - 1) then project(LastContent(events, st.content), ev.snapshot, ev.settings)
      else LastView(events[..|events| - 1], st, project)
  }

  lemma {:induction false} ContentIsLastAnnounced(events: seq<Event>, st: State, project: Projection)
    ensures var st1 := Handled(events, st, project);
      st1.content.id == LastItem(events, st.content.id) && st1.content == LastContent(events, st.content)
    decreases |events|
  {
    if events != [] {
      ContentIsLastAnnounced(events[..|events| - 1], st, project);
    }
  }

  // The view is the projection taken at the last event that tells anything, of the
  // item announced by then; both are read off the events alone.
  lemma {:induction false} ViewIsLastProjection(events: seq<Event>, st: State, project: Projection)
    ensures Handled(events, st, project).view == LastView(events, st, project)
    ensures events != [] ==> Handled(events, st, project).snapshot == events[|events| - 1].snapshot
    decreases |events|
  {
    if events != [] {
      var before := events[..|events| - 1];
      ViewIsLastProjection(before, st, project);
      ContentIsLastAnnounced(before, st, project);
      ContentIsLastAnnounced(events, st, project);
    }
  }

  // ----- what a turn does to the connection -----

  // Broken off, and waiting for the next try.
  predicate Down(w: Worker) {
    !w.connected && !w.ended
  }

  predicate BeforeRetry(w: Worker, turns: seq<Turn>) {
    forall k | 0 <= k < |turns| :: turns[k].connectAt < w.nextConnect && turns[k].message != Some(Stop)
  }

  // Until its time comes nothing is tried and nothing is sent.
  lemma {:induction false} WaitsForRetry(w: Worker, turns: seq<Turn>, project: Projection)
    requires Down(w) && BeforeRetry(w, turns)
    ensures var w1 := Run(w, turns, project);
      && Down(w1) && w1.nextConnect == w.nextConnect && w1.backoff == w.backoff && w1.failures == w.failures
      && w1.attempts == w.attempts && w1.cleared == w.cleared
    decreases |turns|
  {
    if turns != [] {
      WaitsForRetry(w, turns[..|turns| - 1], project);
    }
  }

  // The view once a turn has taken its message.
  function ViewAfter(w: Worker, t: Turn, project: Projection): Activity {
    match t.message
    case Some(Deliver(event)) => HandleEvent(event, w.state, project).0.view
    case _ => w.state.view
  }

  function Sent(view: Activity): Request {
    if view.details == "" && view.state == "" then Clear else Show(view)
  }

  // An outage of any reachable worker, from one failure to the end of the next try:
  // nothing happens before the pause is over, the first turn past it tries, and
  // either fails into a pause doubled up to the limit, counted from that failure,
  // or connects and pushes the view at once if there is anything to show, staying
  // connected exactly if that push goes through.
  lemma {:induction false} RetriesAfterThePause(
      w: Worker, now: nat, earlier: seq<Turn>, turns: seq<Turn>, t: Turn, project: Projection)
    requires Reached(w, now, earlier, project) && Down(w)
    requires BeforeRetry(w, turns) && t.connectAt >= w.nextConnect && t.message != Some(Stop)
    ensures var w0 := Run(w, turns, project); var w1 := Next(w0, t, project); var view := ViewAfter(w0, t, project);
      && w0.attempts == w.attempts && !w0.connected && w1.state.view == view
      && (!t.connectOk ==>
            && Down(w1) && w1.attempts == w.attempts && w1.failures == w.failures + 1
            && w1.nextConnect == t.failedAt + Capped(w.failures))
      && (t.connectOk && view == NOTHING ==> w1.connected && w1.attempts == w.attempts && !w1.pending)
      && (t.connectOk && view != NOTHING ==>
            && w1.attempts == w.attempts + [Attempt(t.sentAt, Sent(view), t.pushOk)]
            && w1.connected == t.pushOk && w1.pending == !t.pushOk
            && (!t.pushOk ==> w1.failures == 1 && w1.nextConnect == t.doneAt + RECONNECT_MIN))
  {
    ReachedKeeps(w, now, earlier, project);
    WaitsForRetry(w, turns, project);
    Retry(Run(w, turns, project), t, project);
  }

  lemma {:induction false} ReceivedView(w: Worker, t: Turn, project: Projection)
    ensures var w1 := Receive(w, t.message, project);
      && w1.state.view == ViewAfter(w, t, project) && w1.pending == (w.pending || w1.state.view != w.state.view)
      && w1 == w.(state := w1.state, pending := w1.pending)
  {
    if t.message.Some? && t.message.value.Deliver? {
      ChangedMeansMoved(t.message.value.event, w.state, project);
    }
  }

  lemma {:induction false} Retry(w: Worker, t: Turn, project: Projection)
    requires Down(w) && w.backoff == Capped(w.failures) && t.connectAt >= w.nextConnect && t.message != Some(Stop)
    ensures var w1 := Next(w, t, project); var view := ViewAfter(w, t, project);
      && w1.state.view == view
      && (!t.connectOk ==>
            && Down(w1) && w1.attempts == w.attempts && w1.failures == w.failures + 1
            && w1.nextConnect == t.failedAt + Capped(w.failures))
      && (t.connectOk && view == NOTHING ==> w1.connected && w1.attempts == w.attempts && !w1.pending)
      && (t.connectOk && view != NOTHING ==>
            && w1.attempts == w.attempts + [Attempt(t.sentAt, Sent(view), t.pushOk)]
            && w1.connected == t.pushOk && w1.pending == !t.pushOk
            && (!t.pushOk ==> w1.failures == 1 && w1.nextConnect == t.doneAt + RECONNECT_MIN))
  {
    ReceivedView(w, t, project);
    var w0 := TryConnect(Receive(w, t.message, project), t);
    assert t.connectOk ==> w0.connected && w0.pending == (ViewAfter(w, t, project) != NOTHING) && Due(w0, t.dueAt);
  }

  // On a live connection a turn pushes exactly when something is owed, by then or
  // by this turn's event, and the interval since the last push is over.
  lemma {:induction false} PushesWhenOwed(w: Worker, t: Turn, project: Projection)
    requires w.connected && !w.ended && t.message != Some(Stop)
    ensures var w1 := Next(w, t, project); var view := ViewAfter(w, t, project);
      var owed := w.pending || view != w.state.view;
      var due := w.lastSent.None? || t.dueAt - w.lastSent.value >= MIN_UPDATE_INTERVAL;
      && w1.state.view == view
      && (!(owed && due) ==> w1.attempts == w.attempts && w1.connected && w1.pending == owed && w1.lastSent == w.lastSent)
      && (owed && due ==>
            && w1.attempts == w.attempts + [Attempt(t.sentAt, Sent(view), t.pushOk)]
            && w1.connected == t.pushOk && w1.pending == !t.pushOk
            && (if t.pushOk then w1.lastSent == Some(t.doneAt) else w1.nextConnect == t.doneAt + w.backoff))
  {
    ReceivedView(w, t, project);
  }

  // A stop ends it for good: whatever turns came after would do nothing, and the
  // clear was sent exactly if there was a connection to send it on.
  lemma {:induction false} StoppedForEver(w: Worker, t: Turn, more: seq<Turn>, project: Projection)
    requires !w.ended && t.message == Some(Stop)
    ensures var w1 := Next(w, t, project);
      && Run(w1, more, project) == w1 && w1.ended && !w1.connected && w1.attempts == w.attempts
      && w1.cleared == (if w.connected then Some(t.sentAt) else w.cleared)
      && (w.connected ==> w1.shown == Clear)
    decreases |more|
  {
    if more != [] {
      StoppedForEver(w, t, more[..|more| - 1], project);
    }
  }

  // The clock a run has reached is the last one its last turn read.
  lemma {:induction false} ClockIsTheLastRead(w: Worker, turns: seq<Turn>, project: Projection)
    requires turns != [] && !Run(w, turns[..|turns| - 1], project).ended
    ensures Run(w, turns, project).clock == turns[|turns| - 1].doneAt
  {
  }
}

// The worker's fields, updated in place turn by turn.
module DiscordObjects {
  import opened Wrappers
  import D = Discord

  class Worker {
    var state: D.State
    var connected: bool
    var backoff: nat
    var nextConnect: nat
    var pending: bool
    var lastSent: Option<nat>
    ghost var history: D.Worker

    ghost function Abs(): D.Worker
      reads this
    {
      history.(state := state, connected := connected, backoff := backoff, nextConnect := nextConnect,
               pending := pending, lastSent := lastSent)
    }

    constructor (now: nat)
      ensures Abs() == D.New(now)
    {
      state := D.State(D.Metadata("", map[]), D.Snapshot(3, 0, 0.0), D.NOTHING);
      connected, backoff, nextConnect, pending, lastSent := false, D.RECONNECT_MIN, now, false, None;
      history := D.New(now);
    }

    method Receive(message: Option<D.Message>, project: D.Projection)
      modifies this
      ensures Abs() == D.Receive(old(Abs()), message, project)
    {
      ghost var start := Abs();
      if message.Some? && message.value.Deliver? {
        var (next, changed) := D.HandleEvent(message.value.event, state, project);
        state := next;
        if changed {
          pending := true;
        }
      }
      history := D.Receive(start, message, project);
    }

    method BackOff(now: nat)
      modifies this
      ensures Abs() == D.Backed(old(Abs()), now)
    {
      ghost var start := Abs();
      nextConnect := now + backoff;
      backoff := D.Min(backoff * 2, D.RECONNECT_MAX);
      history := D.Backed(start, now);
    }

    method TryConnect(t: D.Turn)
      modifies this
      ensures Abs() == D.TryConnect(old(Abs()), t)
    {
      ghost var start := Abs();
      if !connected && t.connectAt >= nextConnect {
        if t.connectOk {
          connected := true;
          backoff := D.RECONNECT_MIN;
          pending := state.view != D.NOTHING;
          lastSent := None;
        } else {
          BackOff(t.failedAt);
        }
      }
      history := D.TryConnect(start, t);
    }

    method TryPush(t: D.Turn)
      modifies this
      ensures Abs() == D.TryPush(old(Abs()), t)
    {
      ghost var start := Abs();
      var due := lastSent.None? || t.dueAt - lastSent.value >= D.MIN_UPDATE_INTERVAL;
      if connected && pending && due {
        if t.pushOk {
          pending := false;
          lastSent := Some(t.doneAt);
        } else {
          connected := false;
          BackOff(t.doneAt);
        }
      }
      history := D.TryPush(start, t);
    }

    // One turn once its message was received; `stopped` breaks the loop.
    method Turn(t: D.Turn, project: D.Projection) returns (stopped: bool)
      requires !Abs().ended
      modifies this
      ensures Abs() == D.Next(old(Abs()), t, project)
      ensures stopped == Abs().ended == (t.message == Some(D.Stop))
    {
      if t.message == Some(D.Stop) {
        history := D.Next(Abs(), t, project);
        connected := false;
        return true;
      }
      Receive(t.message, project);
      TryConnect(t);
      TryPush(t);
      return false;
    }

    // The loop: it turns until it is stopped.
    method Loop(turns: seq<D.Turn>, project: D.Projection) returns (taken: nat)
      requires !Abs().ended
      modifies this
      ensures taken <= |turns|
      ensures Abs() == D.Run(old(Abs()), turns[..taken], project)
      ensures Abs().ended <==> taken > 0 && turns[taken - 1].message == Some(D.Stop)
      ensures !Abs().ended ==> taken == |turns|
    {
      ghost var start := Abs();
      taken := 0;
      while taken < |turns|
        invariant taken <= |turns|
        invariant !Abs().ended
        invariant Abs() == D.Run(start, turns[..taken], project)
        invariant taken > 0 ==> turns[taken - 1].message != Some(D.Stop)
      {
        var stopped := Turn(turns[taken], project);
        taken := taken + 1;
        assert turns[..taken][..taken - 1] == turns[..taken - 1];
        if stopped {
          return;
        }
      }
    }
  }
}
