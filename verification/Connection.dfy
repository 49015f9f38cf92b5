// The shell actor's half of the connection protocol: which phase it is in,
// which requests it has issued, and what each message does to both.
module Connection {
  import opened Wrappers
  import Urls

  // Instants and durations, in milliseconds.
  type Time = int
  const SPINNER_FLOOR: Time := 1000
  const FADE: Time := 500

  datatype Request =
    | CancelProbe
    | Probe(cycle: nat, url: string)
    | Navigate(navigation: nat, url: string)
    | Abandon(navigation: nat)

  datatype Phase =
    | Editing(url: string)
    | Probing(url: string, cycle: nat, since: Time, unresolved: bool)
    | Loading(base: string, navigation: nat, since: Time)
    | Failed(url: string)
    | Retiring(navigation: nat, fadeFrom: Time)
    | Connected(navigation: nat)
  {
    // The navigation this phase names.
    function Navigation(): Option<nat> {
      match this
      case Loading(_, n, _) => Some(n)
      case Retiring(n, _) => Some(n)
      case Connected(n) => Some(n)
      case _ => None
    }

    // The probe this phase waits for.
    function Cycle(): Option<nat> {
      match this
      case Probing(_, cycle, _, _) => Some(cycle)
      case _ => None
    }

    // The URL the form returns to.
    function Url(): Option<string> {
      match this
      case Editing(url) => Some(url)
      case Probing(url, _, _, _) => Some(url)
      case Loading(base, _, _) => Some(base)
      case Failed(url) => Some(url)
      case _ => None
    }
  }

  datatype Screen =
    | Form(url: string)
    | Working(since: Time)
    | FailureView
    | Fading(fadeFrom: Time)
    | Gone

  // `saved` is the process-wide server URL setting and `saves` the snapshots
  // of it handed to the save worker; `requests` are issued and not yet flushed.
  datatype Conn = Conn(
    phase: Phase, cycles: nat, navigations: nat, requests: seq<Request>,
    saved: string, saves: seq<string>)

  // `now.saturating_duration_since(since)`.
  function Elapsed(now: Time, since: Time): Time {
    if now < since then 0 else now - since
  }

  // Cancels the work of the phase being left, then takes the next one.
  function Enter(c: Conn, next: Phase): Conn {
    var c1 :=
      if c.phase.Probing? then c.(cycles := c.cycles + 1, requests := c.requests + [CancelProbe]) else c;
    var c2 :=
      match c.phase.Navigation()
      case Some(n) => if next.Navigation() != Some(n) then c1.(requests := c1.requests + [Abandon(n)]) else c1
      case None => c1;
    c2.(phase := next)
  }

  function Connect(c: Conn, now: Time): Conn {
    var url := if c.phase.Url().Some? then c.phase.Url().value else c.saved;
    if Urls.IsBlank(url) then Enter(c, Editing(url))
    else
      var cycle := c.cycles + 1;
      var c1 := Enter(c.(cycles := cycle), Probing(url, cycle, now, false));
      c1.(requests := c1.requests + [Probe(cycle, url)])
  }

  function New(url: string, saved: string, now: Time): Conn {
    Connect(Conn(Editing(url), 0, 0, [], saved, []), now)
  }

  function NavigateTo(c: Conn, base: string, now: Time): Conn {
    var n := c.navigations + 1;
    var since := if c.phase.Probing? then c.phase.since else now;
    var c1 := Enter(c.(saved := base, saves := c.saves + [base], navigations := n), Loading(base, n, since));
    c1.(requests := c1.requests + [Navigate(n, base)])
  }

  function EditUrl(c: Conn, url: string): Conn {
    if c.phase.Probing? || c.phase.Failed? then c else Enter(c, Editing(url))
  }

  function Cancel(c: Conn): Conn {
    match c.phase
    case Probing(url, _, _, _) => Enter(c, Editing(url))
    case Loading(base, _, _) => Enter(c, Editing(base))
    case _ => c
  }

  function DismissFailure(c: Conn): Conn {
    if c.phase.Failed? then Enter(c, Editing(c.phase.url)) else c
  }

  function ProbeResolved(c: Conn, cycle: nat, base: string, now: Time): Conn {
    if c.phase.Cycle() == Some(cycle) then NavigateTo(c, base, now) else c
  }

  function ProbeFailed(c: Conn, cycle: nat, now: Time): Conn {
    if c.phase.Cycle() != Some(cycle) then c
    else if Elapsed(now, c.phase.since) < SPINNER_FLOOR then c.(phase := c.phase.(unresolved := true))
    else Enter(c, Failed(c.phase.url))
  }

  function NavigationFailed(c: Conn, navigation: nat): Conn {
    if c.phase.Loading? && c.phase.navigation == navigation then Enter(c, Failed(c.phase.base)) else c
  }

  function FinishNavigation(c: Conn, navigation: nat, now: Time): Conn {
    if c.phase.Loading? && c.phase.navigation == navigation then Enter(c, Retiring(navigation, now)) else c
  }

  function Tick(c: Conn, now: Time): Conn {
    match c.phase
    case Probing(url, _, since, unresolved) =>
      if unresolved && Elapsed(now, since) >= SPINNER_FLOOR then Enter(c, Failed(url)) else c
    case Retiring(n, fadeFrom) =>
      if Elapsed(now, fadeFrom) >= FADE then Enter(c, Connected(n)) else c
    case _ => c
  }

  function Deadline(phase: Phase): Option<Time> {
    match phase
    case Probing(_, _, since, unresolved) => if unresolved then Some(since + SPINNER_FLOOR) else None
    case Retiring(_, fadeFrom) => Some(fadeFrom + FADE)
    case _ => None
  }

  function ScreenOf(phase: Phase): Screen {
    match phase
    case Editing(url) => Form(url)
    case Probing(_, _, since, _) => Working(since)
    case Loading(_, _, since) => Working(since)
    case Failed(_) => FailureView
    case Retiring(_, fadeFrom) => Fading(fadeFrom)
    case Connected(_) => Gone
  }

  // Everything the actor can be told. `SetServer` is any other writer of the
  // saved URL.
  datatype Input =
    | InConnect(now: Time)
    | InEdit(url: string)
    | InCancel
    | InDismiss
    | InResolved(cycle: nat, base: string, now: Time)
    | InProbeFailed(cycle: nat, now: Time)
    | InNavFailed(navigation: nat)
    | InPresented(navigation: nat, now: Time)
    | InTick(now: Time)
    | SetServer(url: string)

  function Act(c: Conn, input: Input): Conn {
    match input
    case InConnect(now) => Connect(c, now)
    case InEdit(url) => EditUrl(c, url)
    case InCancel => Cancel(c)
    case InDismiss => DismissFailure(c)
    case InResolved(cycle, base, now) => ProbeResolved(c, cycle, base, now)
    case InProbeFailed(cycle, now) => ProbeFailed(c, cycle, now)
    case InNavFailed(n) => NavigationFailed(c, n)
    case InPresented(n, now) => FinishNavigation(c, n, now)
    case InTick(now) => Tick(c, now)
    case SetServer(url) => c.(saved := url)
  }

  function Run(c: Conn, inputs: seq<Input>): Conn
    decreases |inputs|
  {
    if inputs == [] then c else Act(Run(c, inputs[..|inputs| - 1]), inputs[|inputs| - 1])
  }

  // ----- the request log -----

  predicate Opens(r: Request) {
    r.Probe? || r.Navigate?
  }

  predicate Closes(open: Request, r: Request) {
    (open.Probe? && r.CancelProbe?) || (open.Navigate? && r == Abandon(open.navigation))
  }

  // Openings and closings alternate and match, so at most one probe or
  // navigation is open in total; identities never repeat and only grow.
  ghost predicate Bracketed(log: seq<Request>) {
    && (forall i | 0 <= i < |log| && i % 2 == 0 :: Opens(log[i]))
    && (forall i | 0 <= i < |log| && i % 2 == 1 :: Closes(log[i - 1], log[i]))
    && Fresh(log)
  }

  ghost predicate Fresh(log: seq<Request>) {
    && (forall i, j | 0 <= i < j < |log| && log[i].Probe? && log[j].Probe? :: log[i].cycle < log[j].cycle)
    && (forall i, j | 0 <= i < j < |log| && CitesNavigation(log[i]) && log[j].Navigate? :: log[i].navigation < log[j].navigation)
  }

  predicate CitesNavigation(r: Request) {
    r.Navigate? || r.Abandon?
  }

  // No identity in the log is beyond the counters.
  ghost predicate Below(log: seq<Request>, cycles: nat, navigations: nat) {
    && (forall i | 0 <= i < |log| && log[i].Probe? :: log[i].cycle <= cycles)
    && (forall i | 0 <= i < |log| && CitesNavigation(log[i]) :: log[i].navigation <= navigations)
  }

  ghost predicate Counted(c: Conn, log: seq<Request>) {
    && Below(log, c.cycles, c.navigations)
    && (c.phase.Cycle().Some? ==> c.phase.Cycle().value <= c.cycles)
    && (c.phase.Navigation().Some? ==> c.phase.Navigation().value <= c.navigations)
  }

  // The one open request of the log is the one the phase names.
  ghost predicate OpenIs(c: Conn, log: seq<Request>) {
    match c.phase
    case Probing(url, cycle, _, _) => |log| % 2 == 1 && log[|log| - 1] == Probe(cycle, url)
    case Loading(base, n, _) => |log| % 2 == 1 && log[|log| - 1] == Navigate(n, base)
    case Retiring(n, _) => |log| % 2 == 1 && log[|log| - 1].Navigate? && log[|log| - 1].navigation == n
    case Connected(n) => |log| % 2 == 1 && log[|log| - 1].Navigate? && log[|log| - 1].navigation == n
    case _ => |log| % 2 == 0
  }

  // `earlier` are the requests already flushed.
  ghost predicate LogInv(c: Conn, earlier: seq<Request>) {
    var log := earlier + c.requests;
    Bracketed(log) && Counted(c, log) && OpenIs(c, log)
  }

  lemma {:induction false} BracketPush(log: seq<Request>, r: Request)
    requires Bracketed(log)
    requires if |log| % 2 == 0 then Opens(r) else Closes(log[|log| - 1], r)
    requires r.Probe? ==> forall i | 0 <= i < |log| && log[i].Probe? :: log[i].cycle < r.cycle
    requires r.Navigate? ==> forall i | 0 <= i < |log| && CitesNavigation(log[i]) :: log[i].navigation < r.navigation
    ensures Bracketed(log + [r])
  {
  }

  // What `Enter` appends.
  function Closing(phase: Phase, next: Phase): seq<Request> {
    if phase.Probing? then [CancelProbe]
    else if phase.Navigation().Some? && next.Navigation() != phase.Navigation() then [Abandon(phase.Navigation().value)]
    else []
  }

  lemma {:induction false} EnterAppends(c: Conn, next: Phase)
    ensures Enter(c, next).requests == c.requests + Closing(c.phase, next)
    ensures Enter(c, next) == c.(phase := next, requests := c.requests + Closing(c.phase, next),
                                 cycles := if c.phase.Probing? then c.cycles + 1 else c.cycles)
  {
  }

  // Leaving a phase closes what it had open, unless the same navigation goes on.
  lemma {:induction false} ClosingCloses(c: Conn, next: Phase, log: seq<Request>)
    requires Bracketed(log) && Counted(c, log) && OpenIs(c, log)
    requires next.Navigation() != c.phase.Navigation() || next.Navigation() == None
    ensures var log1 := log + Closing(c.phase, next);
      Bracketed(log1) && Below(log1, c.cycles, c.navigations) && |log1| % 2 == 0
  {
    var closing := Closing(c.phase, next);
    if closing == [] {
      assert log + closing == log;
    } else {
      BracketPush(log, closing[0]);
    }
  }

  // A phase that has nothing open.
  lemma {:induction false} Settles(c: Conn, next: Phase, earlier: seq<Request>)
    requires LogInv(c, earlier)
    requires next.Editing? || next.Failed?
    ensures LogInv(Enter(c, next), earlier)
  {
    var log := earlier + c.requests;
    ClosingCloses(c, next, log);
    EnterAppends(c, next);
    assert earlier + Enter(c, next).requests == log + Closing(c.phase, next);
  }

  // A phase that goes on with the same navigation.
  lemma {:induction false} GoesOn(c: Conn, next: Phase, earlier: seq<Request>)
    requires LogInv(c, earlier)
    requires c.phase.Navigation().Some? && next.Navigation() == c.phase.Navigation() && !next.Loading?
    ensures LogInv(Enter(c, next), earlier)
  {
    assert Enter(c, next) == c.(phase := next);
  }

  // What `c1` opens with `r` lies beyond the counters of `c`.
  predicate OpensBeyond(c: Conn, c1: Conn, r: Request) {
    && c1.cycles >= c.cycles && c1.navigations >= c.navigations
    && (|| (c1.phase.Probing? && r == Probe(c1.phase.cycle, c1.phase.url) && c.cycles < r.cycle <= c1.cycles)
        || (c1.phase.Loading? && r == Navigate(c1.phase.navigation, c1.phase.base) && c.navigations < r.navigation <= c1.navigations))
  }

  lemma {:induction false} OpenedIsCounted(c: Conn, c1: Conn, closed: seq<Request>, r: Request)
    requires Below(closed, c.cycles, c.navigations) && OpensBeyond(c, c1, r)
    ensures Counted(c1, closed + [r])
  {
  }

  lemma {:induction false} OpenedIsBracketed(c: Conn, c1: Conn, closed: seq<Request>, r: Request)
    requires Bracketed(closed) && |closed| % 2 == 0 && Below(closed, c.cycles, c.navigations) && OpensBeyond(c, c1, r)
    ensures Bracketed(closed + [r]) && OpenIs(c1, closed + [r])
  {
    BracketPush(closed, r);
  }

  // A phase that opens `r` once the one before is closed.
  lemma {:induction false} OpensNext(c: Conn, c1: Conn, r: Request, earlier: seq<Request>)
    requires LogInv(c, earlier)
    requires c1.requests == c.requests + Closing(c.phase, c1.phase) + [r]
    requires OpensBeyond(c, c1, r)
    ensures LogInv(c1, earlier)
  {
    var log := earlier + c.requests;
    var closed := log + Closing(c.phase, c1.phase);
    ClosingCloses(c, c1.phase, log);
    OpenedIsCounted(c, c1, closed, r);
    OpenedIsBracketed(c, c1, closed, r);
    assert earlier + c1.requests == closed + [r];
  }

  lemma {:induction false} ConnectKeepsLog(c: Conn, now: Time, earlier: seq<Request>)
    requires LogInv(c, earlier)
    ensures LogInv(Connect(c, now), earlier)
  {
    var url := if c.phase.Url().Some? then c.phase.Url().value else c.saved;
    if Urls.IsBlank(url) {
      Settles(c, Editing(url), earlier);
    } else {
      EnterAppends(c.(cycles := c.cycles + 1), Probing(url, c.cycles + 1, now, false));
      OpensNext(c, Connect(c, now), Probe(c.cycles + 1, url), earlier);
    }
  }

  lemma {:induction false} NavigateKeepsLog(c: Conn, base: string, now: Time, earlier: seq<Request>)
    requires LogInv(c, earlier)
    ensures LogInv(NavigateTo(c, base, now), earlier)
  {
    var n := c.navigations + 1;
    var c1 := NavigateTo(c, base, now);
    EnterAppends(c.(saved := base, saves := c.saves + [base], navigations := n), c1.phase);
    OpensNext(c, c1, Navigate(n, base), earlier);
  }

  lemma {:induction false} ActKeepsLog(c: Conn, input: Input, earlier: seq<Request>)
    requires LogInv(c, earlier)
    ensures LogInv(Act(c, input), earlier)
  {
    var c1 := Act(c, input);
    if input.InConnect? {
      ConnectKeepsLog(c, input.now, earlier);
    } else if input.InResolved? && c.phase.Cycle() == Some(input.cycle) {
      NavigateKeepsLog(c, input.base, input.now, earlier);
    } else if c1.requests == c.requests && !c.phase.Navigation().Some? {
      SameRequests(c, input, earlier);
    } else if c1.phase == c.phase {
      SameRequests(c, input, earlier);
    } else if c1.phase.Editing? || c1.phase.Failed? {
      Settles(c, c1.phase, earlier);
    } else {
      GoesOn(c, c1.phase, earlier);
    }
  }

  lemma {:induction false} SameRequests(c: Conn, input: Input, earlier: seq<Request>)
    requires LogInv(c, earlier)
    requires !input.InConnect? && !(input.InResolved? && c.phase.Cycle() == Some(input.cycle))
    requires Act(c, input).requests == c.requests && (Act(c, input).phase == c.phase || !c.phase.Navigation().Some?)
    ensures LogInv(Act(c, input), earlier)
  {
    var c1 := Act(c, input);
    assert c1.cycles == c.cycles && c1.navigations == c.navigations;
    assert c1.phase.Cycle() == c.phase.Cycle() && c1.phase.Navigation() == c.phase.Navigation();
  }

  lemma {:induction false} NewLog(url: string, saved: string, now: Time)
    ensures LogInv(New(url, saved, now), [])
  {
    var c := Conn(Editing(url), 0, 0, [], saved, []);
    assert LogInv(c, []) by {
      assert [] + c.requests == [];
    }
    ConnectKeepsLog(c, now, []);
    assert New(url, saved, now) == Connect(c, now);
  }

  // In every run the request log is well bracketed and its one open request,
  // if any, is the one the phase names.
  lemma {:induction false} RequestsAreBracketed(url: string, saved: string, now: Time, inputs: seq<Input>)
    ensures var c := Run(New(url, saved, now), inputs);
      Bracketed(c.requests) && OpenIs(c, c.requests)
    decreases |inputs|
  {
    RunKeepsLog(url, saved, now, inputs);
    var c := Run(New(url, saved, now), inputs);
    assert [] + c.requests == c.requests;
  }

  lemma {:induction false} RunKeepsLog(url: string, saved: string, now: Time, inputs: seq<Input>)
    ensures LogInv(Run(New(url, saved, now), inputs), [])
    decreases |inputs|
  {
    if inputs == [] {
      NewLog(url, saved, now);
    } else {
      var last := |inputs| - 1;
      RunKeepsLog(url, saved, now, inputs[..last]);
      ActKeepsLog(Run(New(url, saved, now), inputs[..last]), inputs[last], []);
    }
  }

  // ----- stale results -----

  // A cycle the actor has issued and is no longer waiting for.
  predicate DeadCycle(c: Conn, cycle: nat) {
    cycle <= c.cycles && c.phase.Cycle() != Some(cycle)
  }

  predicate DeadNavigation(c: Conn, n: nat) {
    n <= c.navigations && c.phase.Navigation() != Some(n)
  }

  lemma {:induction false} ActKeepsDeadCycle(c: Conn, cycle: nat, input: Input)
    requires DeadCycle(c, cycle)
    ensures DeadCycle(Act(c, input), cycle)
  {
  }

  // A result citing a dead identity changes nothing now, and the identity is
  // dead in every state any later run reaches.
  lemma {:induction false} DeadCycleForEver(c: Conn, cycle: nat, inputs: seq<Input>)
    requires DeadCycle(c, cycle)
    ensures var c1 := Run(c, inputs);
      DeadCycle(c1, cycle)
      && (forall base, now :: ProbeResolved(c1, cycle, base, now) == c1)
      && (forall now :: ProbeFailed(c1, cycle, now) == c1)
    decreases |inputs|
  {
    if inputs != [] {
      var c0, last := Run(c, inputs[..|inputs| - 1]), inputs[|inputs| - 1];
      DeadCycleForEver(c, cycle, inputs[..|inputs| - 1]);
      ActKeepsDeadCycle(c0, cycle, last);
      assert DeadCycle(Act(c0, last), cycle);
    }
  }

  lemma {:induction false} ActKeepsDeadNavigation(c: Conn, n: nat, input: Input)
    requires DeadNavigation(c, n)
    ensures DeadNavigation(Act(c, input), n)
  {
  }

  lemma {:induction false} DeadNavigationForEver(c: Conn, n: nat, inputs: seq<Input>)
    requires DeadNavigation(c, n)
    ensures var c1 := Run(c, inputs);
      DeadNavigation(c1, n)
      && NavigationFailed(c1, n) == c1
      && forall now :: FinishNavigation(c1, n, now) == c1
    decreases |inputs|
  {
    if inputs != [] {
      var c0, last := Run(c, inputs[..|inputs| - 1]), inputs[|inputs| - 1];
      DeadNavigationForEver(c, n, inputs[..|inputs| - 1]);
      ActKeepsDeadNavigation(c0, n, last);
      assert DeadNavigation(Act(c0, last), n);
    }
  }

  // A navigation starts its fade at most once: from then on its frames change
  // nothing, in every run.
  lemma {:induction false} FadesOnce(c: Conn, n: nat, inputs: seq<Input>)
    requires c.phase.Navigation() == Some(n) && !c.phase.Loading? && n <= c.navigations
    ensures var c1 := Run(c, inputs);
      && n <= c1.navigations && !(c1.phase.Loading? && c1.phase.navigation == n)
      && forall now :: FinishNavigation(c1, n, now) == c1
    decreases |inputs|
  {
    if inputs != [] {
      FadesOnce(c, n, inputs[..|inputs| - 1]);
    }
  }

  // ----- timing -----

  // The deadline is exactly when a tick changes the screen: never before it and
  // always from it on.
  lemma {:induction false} TickAtDeadline(c: Conn, now: Time)
    ensures Tick(c, now).phase != c.phase <==> Deadline(c.phase).Some? && now >= Deadline(c.phase).value
    ensures Tick(c, now).phase == c.phase ==> Tick(c, now) == c
    ensures Deadline(Tick(c, now).phase) != Deadline(c.phase) ==> Deadline(Tick(c, now).phase).None?
  {
  }

  // The input times of a run, for inputs that carry one.
  function When(input: Input): Option<Time> {
    match input
    case InConnect(now) => Some(now)
    case InResolved(_, _, now) => Some(now)
    case InProbeFailed(_, now) => Some(now)
    case InPresented(_, now) => Some(now)
    case InTick(now) => Some(now)
    case _ => None
  }

  // The fade's start is the time of an earlier presented frame of the same
  // navigation.
  ghost predicate FadeStarted(inputs: seq<Input>, n: nat, fadeFrom: Time) {
    exists i | 0 <= i < |inputs| :: inputs[i] == InPresented(n, fadeFrom)
  }

  ghost predicate FadedOut(inputs: seq<Input>, n: nat) {
    exists i, k | 0 <= i < k < |inputs| ::
      inputs[i].InPresented? && inputs[i].navigation == n && inputs[k].InTick? && inputs[k].now >= inputs[i].now + FADE
  }

  ghost predicate TimeInv(c: Conn, inputs: seq<Input>) {
    && (c.phase.Retiring? ==> FadeStarted(inputs, c.phase.navigation, c.phase.fadeFrom))
    && (c.phase.Connected? ==> FadedOut(inputs, c.phase.navigation))
  }

  lemma {:induction false} FadeTimes(c: Conn, before: seq<Input>, input: Input)
    requires TimeInv(c, before) && Act(c, input).phase.Retiring?
    ensures var phase := Act(c, input).phase; FadeStarted(before + [input], phase.navigation, phase.fadeFrom)
  {
    var phase, inputs := Act(c, input).phase, before + [input];
    if c.phase.Retiring? {
      var i :| 0 <= i < |before| && before[i] == InPresented(phase.navigation, phase.fadeFrom);
      assert inputs[i] == before[i];
    } else {
      assert inputs[|before|] == InPresented(phase.navigation, phase.fadeFrom);
    }
  }

  lemma {:induction false} ConnectedTimes(c: Conn, before: seq<Input>, input: Input)
    requires TimeInv(c, before) && Act(c, input).phase.Connected?
    ensures FadedOut(before + [input], Act(c, input).phase.navigation)
  {
    var inputs := before + [input];
    if c.phase.Connected? {
      var i, k :| 0 <= i < k < |before| && before[i].InPresented? && before[i].navigation == c.phase.navigation
        && before[k].InTick? && before[k].now >= before[i].now + FADE;
      assert inputs[i] == before[i] && inputs[k] == before[k];
    } else {
      var i :| 0 <= i < |before| && before[i] == InPresented(c.phase.navigation, c.phase.fadeFrom);
      assert inputs[i] == before[i] && inputs[|before|].InTick?;
    }
  }

  lemma {:induction false} RunTimes(url: string, saved: string, now: Time, inputs: seq<Input>)
    ensures TimeInv(Run(New(url, saved, now), inputs), inputs)
    decreases |inputs|
  {
    if inputs != [] {
      var before, input := inputs[..|inputs| - 1], inputs[|inputs| - 1];
      RunTimes(url, saved, now, before);
      var c := Run(New(url, saved, now), before);
      assert inputs == before + [input];
      if Act(c, input).phase.Retiring? {
        FadeTimes(c, before, input);
      }
      if Act(c, input).phase.Connected? {
        ConnectedTimes(c, before, input);
      }
    }
  }

  // The web screen takes over no earlier than FADE after a frame of its own
  // navigation was presented.
  lemma {:induction false} ConnectedAfterFade(url: string, saved: string, now: Time, inputs: seq<Input>)
    requires Run(New(url, saved, now), inputs).phase.Connected?
    ensures FadedOut(inputs, Run(New(url, saved, now), inputs).phase.navigation)
  {
    RunTimes(url, saved, now, inputs);
  }

  // When the probe of `cycle` was opened: by the start, or by a connect among the
  // inputs, whose very state waits for that cycle.
  ghost predicate ProbeOpened(url: string, saved: string, now: Time, inputs: seq<Input>, cycle: nat, since: Time) {
    || (since == now && New(url, saved, now).phase == Probing(url, cycle, now, false))
    || exists i | 0 <= i < |inputs| :: OpensAt(url, saved, now, inputs, i, cycle, since)
  }

  predicate OpensAt(url: string, saved: string, now: Time, inputs: seq<Input>, i: nat, cycle: nat, since: Time)
    requires i < |inputs|
  {
    && inputs[i] == InConnect(since)
    && var phase := Run(New(url, saved, now), inputs[..i + 1]).phase;
       phase.Probing? && phase.cycle == cycle && phase.since == since
  }

  lemma {:induction false} ProbingStep(c: Conn, input: Input)
    requires Act(c, input).phase.Probing?
    ensures var next := Act(c, input).phase;
      || input == InConnect(next.since)
      || (c.phase.Probing? && next.cycle == c.phase.cycle && next.since == c.phase.since)
  {
  }

  lemma {:induction false} ProbesWereOpened(url: string, saved: string, now: Time, inputs: seq<Input>)
    requires Run(New(url, saved, now), inputs).phase.Probing?
    ensures var phase := Run(New(url, saved, now), inputs).phase;
      ProbeOpened(url, saved, now, inputs, phase.cycle, phase.since)
    decreases |inputs|
  {
    if inputs != [] {
      var last := |inputs| - 1;
      var c, c1 := Run(New(url, saved, now), inputs[..last]), Run(New(url, saved, now), inputs);
      var cycle, since := c1.phase.cycle, c1.phase.since;
      ProbingStep(c, inputs[last]);
      if inputs[last] == InConnect(since) {
        assert inputs[..last + 1] == inputs;
        assert OpensAt(url, saved, now, inputs, last, cycle, since);
      } else {
        ProbesWereOpened(url, saved, now, inputs[..last]);
        OpenedEarlier(url, saved, now, inputs, cycle, since);
      }
    }
  }

  lemma {:induction false} OpenedEarlier(url: string, saved: string, now: Time, inputs: seq<Input>, cycle: nat, since: Time)
    requires inputs != [] && ProbeOpened(url, saved, now, inputs[..|inputs| - 1], cycle, since)
    ensures ProbeOpened(url, saved, now, inputs, cycle, since)
  {
    var before := inputs[..|inputs| - 1];
    if i :| 0 <= i < |before| && OpensAt(url, saved, now, before, i, cycle, since) {
      assert before[..i + 1] == inputs[..i + 1] && before[i] == inputs[i];
      assert OpensAt(url, saved, now, inputs, i, cycle, since);
    }
  }

  lemma {:induction false} FailureStep(c: Conn, input: Input)
    requires c.phase.Probing? && Act(c, input).phase.Failed?
    ensures When(input).Some? && When(input).value >= c.phase.since + SPINNER_FLOOR
    ensures input.InTick? || input == InProbeFailed(c.phase.cycle, When(input).value)
  {
  }

  // In every run a probe that ends in the failure view ends there no earlier than
  // SPINNER_FLOOR after the connect that opened it, and only by its own failure
  // or a tick.
  lemma {:induction false} FailureWaitsForSpinner(url: string, saved: string, now: Time, inputs: seq<Input>, k: nat)
    requires k < |inputs|
    requires Run(New(url, saved, now), inputs[..k]).phase.Probing? && Run(New(url, saved, now), inputs[..k + 1]).phase.Failed?
    ensures var cycle := Run(New(url, saved, now), inputs[..k]).phase.cycle;
      && When(inputs[k]).Some? && (inputs[k].InTick? || inputs[k] == InProbeFailed(cycle, When(inputs[k]).value))
      && exists since :: ProbeOpened(url, saved, now, inputs[..k], cycle, since) && When(inputs[k]).value >= since + SPINNER_FLOOR
  {
    var c := Run(New(url, saved, now), inputs[..k]);
    assert inputs[..k + 1][..k] == inputs[..k];
    FailureStep(c, inputs[k]);
    ProbesWereOpened(url, saved, now, inputs[..k]);
    assert ProbeOpened(url, saved, now, inputs[..k], c.phase.cycle, c.phase.since);
  }

  // What takes a failed probe off its own path.
  predicate Interrupts(cycle: nat, input: Input) {
    input.InConnect? || input.InCancel? || input.InDismiss? || (input.InResolved? && input.cycle == cycle)
  }

  // What shows a failure kept since `since`.
  predicate ShowsFailure(cycle: nat, since: Time, input: Input) {
    || (input.InTick? && input.now >= since + SPINNER_FLOOR)
    || (input.InProbeFailed? && input.cycle == cycle && input.now >= since + SPINNER_FLOOR)
  }

  lemma {:induction false} KeptFailureStep(c: Conn, cycle: nat, since: Time, input: Input)
    requires c.phase.Probing? && c.phase.cycle == cycle && c.phase.since == since && c.phase.unresolved
    requires !Interrupts(cycle, input)
    ensures Act(c, input).phase == if ShowsFailure(cycle, since, input) then Failed(c.phase.url) else c.phase
  {
  }

  // A failure that comes too early is not lost. However the run goes on, short of
  // the user or a resolution interrupting it, the screen stays as it was until
  // the first input at the deadline or later, and shows the failure from then on.
  lemma {:induction false} EarlyFailureIsKept(c: Conn, now: Time, inputs: seq<Input>)
    requires c.phase.Probing? && now < c.phase.since + SPINNER_FLOOR
    requires forall k | 0 <= k < |inputs| :: !Interrupts(c.phase.cycle, inputs[k])
    ensures var kept := ProbeFailed(c, c.phase.cycle, now);
      && Deadline(kept.phase) == Some(c.phase.since + SPINNER_FLOOR) && ScreenOf(kept.phase) == ScreenOf(c.phase)
      && Run(kept, inputs).phase ==
           if exists k | 0 <= k < |inputs| :: ShowsFailure(c.phase.cycle, c.phase.since, inputs[k]) then Failed(c.phase.url)
           else kept.phase
    decreases |inputs|
  {
    if inputs != [] {
      var last := |inputs| - 1;
      var kept := ProbeFailed(c, c.phase.cycle, now);
      EarlyFailureIsKept(c, now, inputs[..last]);
      var before := Run(kept, inputs[..last]);
      if before.phase == kept.phase {
        KeptFailureStep(before, c.phase.cycle, c.phase.since, inputs[last]);
      } else {
        FailedStays(before, inputs[last]);
      }
    }
  }

  lemma {:induction false} FailedStays(c: Conn, input: Input)
    requires c.phase.Failed? && !input.InConnect? && !input.InDismiss?
    ensures Act(c, input).phase == c.phase
  {
  }

  // A resolution carries the spinner on, and its own frame and fade lead to the
  // web page, with one request of each kind on the way.
  lemma {:induction false} ResolutionLeadsToThePage(c: Conn, base: string, resolved: Time, presented: Time, tick: Time)
    requires c.phase.Probing?
    ensures var n := c.navigations + 1;
      var loading := ProbeResolved(c, c.phase.cycle, base, resolved);
      var fading := FinishNavigation(loading, n, presented);
      var shown := Tick(fading, tick);
      && ScreenOf(loading.phase) == Working(c.phase.since)
      && ScreenOf(fading.phase) == Fading(presented)
      && shown.phase == (if tick >= presented + FADE then Connected(n) else Retiring(n, presented))
      && shown.requests == c.requests + [CancelProbe, Navigate(n, base)]
      && shown.saved == base && shown.saves == c.saves + [base]
  {
    assert c.requests + [CancelProbe] + [Navigate(c.navigations + 1, base)]
        == c.requests + [CancelProbe, Navigate(c.navigations + 1, base)];
  }

  // ----- what each message comes to -----

  // What leaving a phase asks of the browser.
  function Leaving(phase: Phase): seq<Request> {
    match phase
    case Probing(_, _, _, _) => [CancelProbe]
    case Loading(_, n, _) => [Abandon(n)]
    case Retiring(n, _) => [Abandon(n)]
    case Connected(n) => [Abandon(n)]
    case _ => []
  }

  predicate Answers(input: Input) {
    input.InConnect? || input.InDismiss?
  }

  lemma {:induction false} FailureAwaits(c: Conn, inputs: seq<Input>)
    requires c.phase.Failed? && forall k | 0 <= k < |inputs| :: !Answers(inputs[k])
    ensures var c1 := Run(c, inputs); c1.phase == c.phase && c1.requests == c.requests
    decreases |inputs|
  {
    if inputs != [] {
      FailureAwaits(c, inputs[..|inputs| - 1]);
    }
  }

  // A page that fails while it loads is abandoned and the failure shown, however
  // late and often anything else comes in, until the user answers it: dismissing
  // returns to the form with its URL, connecting probes it again.
  lemma {:induction false} FailedPageIsShown(c: Conn, inputs: seq<Input>, now: Time)
    requires c.phase.Loading? && !Urls.IsBlank(c.phase.base)
    requires forall k | 0 <= k < |inputs| :: !Answers(inputs[k])
    ensures var n, base := c.phase.navigation, c.phase.base;
      var failed := Run(Act(c, InNavFailed(n)), inputs);
      var dismissed, retried := Act(failed, InDismiss), Act(failed, InConnect(now));
      && ScreenOf(failed.phase) == FailureView && failed.requests == c.requests + [Abandon(n)]
      && ScreenOf(dismissed.phase) == Form(base) && dismissed.requests == failed.requests
      && ScreenOf(retried.phase) == Working(now) && retried.phase.Cycle() == Some(retried.cycles)
      && retried.requests == failed.requests + [Probe(retried.cycles, base)]
  {
    FailureAwaits(Act(c, InNavFailed(c.phase.navigation)), inputs);
  }

  predicate Types(input: Input) {
    input.InConnect? || input.InEdit?
  }

  lemma {:induction false} FormAwaits(c: Conn, inputs: seq<Input>)
    requires c.phase.Editing? && forall k | 0 <= k < |inputs| :: !Types(inputs[k])
    ensures var c1 := Run(c, inputs); c1.phase == c.phase && c1.requests == c.requests && c1.cycles == c.cycles
    decreases |inputs|
  {
    if inputs != [] {
      FormAwaits(c, inputs[..|inputs| - 1]);
    }
  }

  // Canceling a probe or a load ends it at once and for good: its work is called
  // off, and the form shows its URL whatever results still come in, until the user
  // types or connects.
  lemma {:induction false} CanceledIsOver(c: Conn, inputs: seq<Input>)
    requires c.phase.Probing? || c.phase.Loading?
    requires forall k | 0 <= k < |inputs| :: !Types(inputs[k])
    ensures var canceled := Run(Act(c, InCancel), inputs);
      && ScreenOf(canceled.phase) == Form(c.phase.Url().value)
      && canceled.requests == c.requests + Leaving(c.phase)
  {
    FormAwaits(Act(c, InCancel), inputs);
  }

  // What is typed is shown and stays, and connecting then probes exactly that; but
  // a probe and a failure are not edited away.
  lemma {:induction false} TypedUrlIsProbed(c: Conn, url: string, inputs: seq<Input>, now: Time)
    requires forall k | 0 <= k < |inputs| :: !Types(inputs[k])
    ensures c.phase.Probing? || c.phase.Failed? ==> Act(c, InEdit(url)) == c
    ensures !c.phase.Probing? && !c.phase.Failed? ==>
              var typed := Run(Act(c, InEdit(url)), inputs);
              var probing := Act(typed, InConnect(now));
              && ScreenOf(typed.phase) == Form(url) && typed.requests == c.requests + Leaving(c.phase)
              && (!Urls.IsBlank(url) ==> probing.requests == typed.requests + [Probe(c.cycles + 1, url)] && ScreenOf(probing.phase) == Working(now))
              && (Urls.IsBlank(url) ==> probing == typed)
  {
    if !c.phase.Probing? && !c.phase.Failed? {
      FormAwaits(Act(c, InEdit(url)), inputs);
    }
  }

  // Whatever the phase, connecting calls its work off and probes the URL the form
  // would return to, or where there is none the saved one.
  lemma {:induction false} ConnectProbes(c: Conn, now: Time)
    ensures var url := if c.phase.Url().Some? then c.phase.Url().value else c.saved;
      var c1 := Act(c, InConnect(now));
      if Urls.IsBlank(url) then ScreenOf(c1.phase) == Form(url) && c1.requests == c.requests + Leaving(c.phase)
      else
        && ScreenOf(c1.phase) == Working(now) && c1.phase.Url() == Some(url)
        && c1.requests == c.requests + Leaving(c.phase) + [Probe(c1.phase.cycle, url)] && c1.phase.cycle > c.cycles
  {
  }

  // The server saved last: by this actor's own navigations or by any other writer.
  function LastServer(c: Conn, inputs: seq<Input>): string
    decreases |inputs|
  {
    if inputs == [] then c.saved
    else
      var before, input := inputs[..|inputs| - 1], inputs[|inputs| - 1];
      match input
      case SetServer(url) => url
      case InResolved(cycle, base, _) => if Run(c, before).phase.Cycle() == Some(cycle) then base else LastServer(c, before)
      case _ => LastServer(c, before)
  }

  lemma {:induction false} SavedIsLastServer(c: Conn, inputs: seq<Input>)
    ensures Run(c, inputs).saved == LastServer(c, inputs)
    decreases |inputs|
  {
    if inputs != [] {
      SavedIsLastServer(c, inputs[..|inputs| - 1]);
    }
  }

  // A page that failed to load is abandoned, and its URL is the one a retry
  // probes again under a new cycle.
  lemma {:induction false} FailedPageIsRetried(c: Conn, now: Time)
    requires c.phase.Loading? && !Urls.IsBlank(c.phase.base)
    ensures var n, base := c.phase.navigation, c.phase.base;
      var failed := NavigationFailed(c, n);
      var retried := Connect(failed, now);
      && ScreenOf(failed.phase) == FailureView && failed.requests == c.requests + [Abandon(n)]
      && retried.phase == Probing(base, c.cycles + 1, now, false)
      && retried.requests == c.requests + [Abandon(n), Probe(c.cycles + 1, base)]
      && FinishNavigation(retried, n, now) == retried
  {
    assert c.requests + [Abandon(c.phase.navigation)] + [Probe(c.cycles + 1, c.phase.base)]
        == c.requests + [Abandon(c.phase.navigation), Probe(c.cycles + 1, c.phase.base)];
  }

  // ----- what the form shows -----

  // The user types, the probe under way resolves, or the navigation loading is
  // presented.
  predicate TakesUrl(c: Conn, input: Input) {
    || input.InEdit?
    || (input.InResolved? && c.phase.Cycle() == Some(input.cycle))
    || (input.InPresented? && c.phase.Navigation() == Some(input.navigation))
  }

  ghost predicate LeavesUrl(c: Conn, inputs: seq<Input>) {
    forall k | 0 <= k < |inputs| :: !TakesUrl(Run(c, inputs[..k]), inputs[k])
  }

  lemma {:induction false} UrlStep(c: Conn, input: Input)
    requires c.phase.Url().Some? && !TakesUrl(c, input)
    ensures Act(c, input).phase.Url() == c.phase.Url()
  {
  }

  // However the run goes on, whatever stale results it brings, the URL that was
  // entered is the one the form returns to until the user types, the live probe
  // resolves, or the web screen takes over.
  lemma {:induction false} UrlSurvives(c: Conn, inputs: seq<Input>)
    requires c.phase.Url().Some? && LeavesUrl(c, inputs)
    ensures Run(c, inputs).phase.Url() == c.phase.Url()
    decreases |inputs|
  {
    if inputs != [] {
      var before := inputs[..|inputs| - 1];
      assert forall k | 0 <= k < |before| :: before[..k] == inputs[..k] && before[k] == inputs[k];
      UrlSurvives(c, before);
      UrlStep(Run(c, before), inputs[|inputs| - 1]);
    }
  }

  // Every way out of a probe or a failure.
  lemma {:induction false} LeavingProbe(c: Conn, input: Input)
    requires c.phase.Probing? || c.phase.Failed?
    ensures var next := Act(c, input).phase;
      && !next.Retiring? && !next.Connected?
      && (next.Loading? ==> input.InResolved? && Some(input.cycle) == c.phase.Cycle() && next.base == input.base
                            && next.navigation > c.navigations && next.since == c.phase.since)
      && (next.Editing? && !Urls.IsBlank(c.phase.url) ==> input == InCancel || input == InDismiss)
  {
  }

  // Loading, fading, connected.
  function Stage(phase: Phase): nat {
    if phase.Loading? then 0 else if phase.Retiring? then 1 else 2
  }

  lemma {:induction false} LeavingStep(c: Conn, input: Input)
    requires c.phase.Navigation().Some?
    ensures var next := Act(c, input).phase;
      && (next.Loading? ==> next == c.phase)
      && (next.Retiring? ==> next == c.phase || (c.phase.Loading? && input == InPresented(c.phase.navigation, next.fadeFrom)))
      && (next.Connected? ==> c.phase == next || c.phase.Retiring?)
      && (next.Navigation().Some? ==> next.Navigation() == c.phase.Navigation() && Stage(c.phase) <= Stage(next) <= Stage(c.phase) + 1)
  {
  }

  // In every run a navigation is loaded, faded and connected in that order, and
  // once left it is never named again: wherever the run still names it, it named
  // it at every point before, no later in the order.
  lemma {:induction false} LeavingNavigation(c: Conn, n: nat, inputs: seq<Input>, k: nat)
    requires c.phase.Navigation() == Some(n) && n <= c.navigations && k <= |inputs|
    requires Run(c, inputs).phase.Navigation() == Some(n)
    ensures var mid := Run(c, inputs[..k]).phase;
      mid.Navigation() == Some(n) && Stage(c.phase) <= Stage(mid) <= Stage(Run(c, inputs).phase)
    decreases |inputs|
  {
    var last := |inputs| - 1;
    if k == |inputs| {
      assert inputs[..k] == inputs;
    }
    if inputs != [] {
      var before := Run(c, inputs[..last]);
      NavigationsGrow(c, inputs[..last]);
      if before.phase.Navigation() != Some(n) {
        ActKeepsDeadNavigation(before, n, inputs[last]);
        assert false;
      }
      LeavingStep(before, inputs[last]);
      LeavingNavigation(c, n, inputs[..last], if k < |inputs| then k else last);
      assert k < |inputs| ==> inputs[..last][..k] == inputs[..k];
    }
  }

  lemma {:induction false} ActNavigations(c: Conn, input: Input)
    ensures c.navigations <= Act(c, input).navigations
  {
  }

  lemma {:induction false} NavigationsGrow(c: Conn, inputs: seq<Input>)
    ensures c.navigations <= Run(c, inputs).navigations
    decreases |inputs|
  {
    if inputs != [] {
      var before := inputs[..|inputs| - 1];
      NavigationsGrow(c, before);
      ActNavigations(Run(c, before), inputs[|inputs| - 1]);
    }
  }

  // ----- saving -----

  function NavigateUrls(log: seq<Request>): seq<string> {
    if log == [] then []
    else
      var r := log[|log| - 1];
      NavigateUrls(log[..|log| - 1]) + if r.Navigate? then [r.url] else []
  }

  lemma {:induction false} NavigateUrlsAppend(a: seq<Request>, b: seq<Request>)
    ensures NavigateUrls(a + b) == NavigateUrls(a) + NavigateUrls(b)
  {
    if b == [] {
      assert a + b == a;
    } else {
      var last := |b| - 1;
      NavigateUrlsAppend(a, b[..last]);
      assert (a + b)[..|a + b| - 1] == a + b[..last];
    }
  }

  lemma {:induction false} NavigateUrlsOfOne(r: Request)
    ensures NavigateUrls([r]) == if r.Navigate? then [r.url] else []
  {
    assert [r][..0] == [];
  }

  lemma {:induction false} ClosingHasNoUrl(phase: Phase, next: Phase)
    ensures NavigateUrls(Closing(phase, next)) == []
  {
    var closing := Closing(phase, next);
    if closing != [] {
      NavigateUrlsOfOne(closing[0]);
    }
  }

  // The requests one message issues.
  function Issued(c: Conn, input: Input): seq<Request> {
    var next := Act(c, input).phase;
    var opening :=
      if next.Probing? then [Probe(next.cycle, next.url)]
      else if next.Loading? then [Navigate(next.navigation, next.base)]
      else [];
    if Act(c, input).requests == c.requests then [] else Closing(c.phase, next) + opening
  }

  lemma {:induction false} ActIssues(c: Conn, input: Input)
    ensures Act(c, input).requests == c.requests + Issued(c, input)
  {
    match input
    case InConnect(_) =>
    case InResolved(_, _, _) =>
    case _ =>
  }

  predicate Navigates(c: Conn, input: Input) {
    input.InResolved? && c.phase.Cycle() == Some(input.cycle)
  }

  lemma {:induction false} NavigatingIssues(c: Conn, input: Input)
    requires Navigates(c, input)
    ensures var next := Act(c, input).phase;
      && next.Loading? && next.base == input.base
      && Issued(c, input) == Closing(c.phase, next) + [Navigate(next.navigation, next.base)]
      && Act(c, input).saves == c.saves + [input.base]
  {
  }

  lemma {:induction false} OthersIssue(c: Conn, input: Input)
    requires !Navigates(c, input)
    ensures var next := Act(c, input).phase;
      && Act(c, input).saves == c.saves
      && (Issued(c, input) == []
          || Issued(c, input) == Closing(c.phase, next)
          || (next.Probing? && Issued(c, input) == Closing(c.phase, next) + [Probe(next.cycle, next.url)]))
  {
  }

  lemma {:induction false} ActSaves(c: Conn, input: Input)
    ensures Act(c, input).saves == c.saves + NavigateUrls(Issued(c, input))
  {
    var next := Act(c, input).phase;
    var closing := Closing(c.phase, next);
    ClosingHasNoUrl(c.phase, next);
    if Navigates(c, input) {
      NavigatingIssues(c, input);
      NavigateUrlsAppend(closing, [Navigate(next.navigation, next.base)]);
      NavigateUrlsOfOne(Navigate(next.navigation, next.base));
    } else {
      OthersIssue(c, input);
      if next.Probing? {
        NavigateUrlsAppend(closing, [Probe(next.cycle, next.url)]);
        NavigateUrlsOfOne(Probe(next.cycle, next.url));
      }
    }
  }

  // Every base navigated to was saved first, in order, and nothing else was:
  // the next boot probes a URL this one reached.
  lemma {:induction false} EveryNavigationWasSaved(url: string, saved: string, now: Time, inputs: seq<Input>)
    ensures var c := Run(New(url, saved, now), inputs);
      c.saves == NavigateUrls(c.requests)
    decreases |inputs|
  {
    if inputs == [] {
      var c := Conn(Editing(url), 0, 0, [], saved, []);
      ActSaves(c, InConnect(now));
      ActIssues(c, InConnect(now));
      NavigateUrlsAppend([], Issued(c, InConnect(now)));
    } else {
      var last := |inputs| - 1;
      EveryNavigationWasSaved(url, saved, now, inputs[..last]);
      var c := Run(New(url, saved, now), inputs[..last]);
      ActSaves(c, inputs[last]);
      ActIssues(c, inputs[last]);
      NavigateUrlsAppend(c.requests, Issued(c, inputs[last]));
    }
  }

  // Identities stay fresh whatever became of the requests before: a message
  // issues at most one probe and one navigation, each beyond its counter.
  lemma {:induction false} ActKeepsFresh(c: Conn, input: Input, earlier: seq<Request>)
    requires Fresh(earlier + c.requests) && Counted(c, earlier + c.requests)
    ensures Fresh(earlier + Act(c, input).requests) && Counted(Act(c, input), earlier + Act(c, input).requests)
  {
    ActIssues(c, input);
    assert earlier + Act(c, input).requests == earlier + c.requests + Issued(c, input);
    IssuedBeyond(c, input);
    FreshGrows(c, Act(c, input), earlier + c.requests, Issued(c, input));
  }

  lemma {:induction false} FreshGrows(c: Conn, c1: Conn, log: seq<Request>, pushed: seq<Request>)
    requires Fresh(log) && Counted(c, log) && Beyond(c, c1, pushed)
    ensures Fresh(log + pushed) && Counted(c1, log + pushed)
  {
  }

  // Nothing but the last of `pushed` opens, beyond the counters; what it closes
  // is what the phase named.
  ghost predicate Beyond(c: Conn, c1: Conn, pushed: seq<Request>) {
    && c1.cycles >= c.cycles && c1.navigations >= c.navigations
    && (forall i | 0 <= i < |pushed| && pushed[i].Probe? :: i == |pushed| - 1 && c.cycles < pushed[i].cycle <= c1.cycles)
    && (forall i | 0 <= i < |pushed| && pushed[i].Navigate? :: i == |pushed| - 1 && c.navigations < pushed[i].navigation <= c1.navigations)
    && (forall i | 0 <= i < |pushed| && pushed[i].Abandon? :: Some(pushed[i].navigation) == c.phase.Navigation())
    && (c1.phase.Cycle().Some? ==> c1.phase.Cycle() == c.phase.Cycle() || c1.phase.Cycle().value <= c1.cycles)
    && (c1.phase.Navigation().Some? ==> c1.phase.Navigation() == c.phase.Navigation() || c1.phase.Navigation().value <= c1.navigations)
  }

  lemma {:induction false} ClosingIsOld(phase: Phase, next: Phase)
    ensures var closing := Closing(phase, next);
      forall i | 0 <= i < |closing| :: closing[i].CancelProbe? || (closing[i].Abandon? && Some(closing[i].navigation) == phase.Navigation())
  {
  }

  lemma {:induction false} CountersGrow(c: Conn, input: Input)
    ensures var c1 := Act(c, input);
      && c1.cycles >= c.cycles && c1.navigations >= c.navigations
      && (c1.phase.Cycle().Some? ==> c1.phase.Cycle() == c.phase.Cycle() || c.cycles < c1.phase.Cycle().value <= c1.cycles)
      && (c1.phase.Navigation().Some? ==> c1.phase.Navigation() == c.phase.Navigation() || c.navigations < c1.phase.Navigation().value <= c1.navigations)
      && (Issued(c, input) != [] && c1.phase.Probing? ==> c.cycles < c1.phase.cycle)
      && (Navigates(c, input) ==> c.navigations < c1.phase.navigation)
  {
    if Navigates(c, input) {
      NavigatingIssues(c, input);
    }
  }

  lemma {:induction false} IssuedBeyond(c: Conn, input: Input)
    ensures Beyond(c, Act(c, input), Issued(c, input))
  {
    CountersGrow(c, input);
    ClosingIsOld(c.phase, Act(c, input).phase);
    if Navigates(c, input) {
      NavigatingIssues(c, input);
    } else {
      OthersIssue(c, input);
    }
  }
}
