// The whole connection protocol: the actor, the batch it is flushing, the
// readiness channel, the UI thread, the browser, and the events on their way
// back, under every interleaving of their steps.
module Protocol {
  import opened Wrappers
  import R = Readiness
  import C = Connection
  import A = ConnectionActor
  import B = Browser

  // What the browser reported to the actor.
  datatype Event = FramePresented(navigation: nat) | NavigationFailed(navigation: nat)

  // The browser's history: requests it ran, main-frame loads it finished,
  // first frames it presented.
  datatype Mark = Ran(request: C.Request) | Finished(url: string) | Shown(navigation: nat)

  // `batch` is what a flush took and has not handed over; `lost` is set by a
  // failed delivery and `gone` by the client's last owner going away.
  datatype Sys = Sys(
    conn: C.Conn, attached: bool, batch: seq<C.Request>, lost: bool,
    channel: R.Queue<C.Request>, browser: B.Browser, gone: bool,
    events: seq<Event>, log: seq<Mark>)

  datatype Step =
    | Act(input: C.Input)
    | Attach
    | HandOne(answer: A.Answer, now: C.Time)
    | PostReady(posted: bool)
    | StopChannel
    | RevokeSession
    | UiBegin
    | UiCheck
    | UiCall(frame: bool)
    | CreateClient
    | DropClient
    | BrowserUp(frame: bool)
    | BrowserDown
    | LoadEnd(url: string)
    | LoadError(url: string, aborted: bool)
    | Paint(shown: bool)

  function Initial(url: string, saved: string, now: C.Time): Sys {
    Sys(C.New(url, saved, now), false, [], false, R.Initial(), B.Initial(), false, [], [])
  }

  // Reports from the browser reach the actor late, repeatedly and in any order,
  // but none it was never sent; a probe may answer with anything at any time.
  predicate Deliverable(s: Sys, input: C.Input) {
    match input
    case InPresented(n, _) => FramePresented(n) in s.events
    case InNavFailed(n) => NavigationFailed(n) in s.events
    case _ => true
  }

  // A flush takes every request at once.
  function TakeBatch(s: Sys): Sys {
    if s.attached && s.batch == [] then s.(batch := s.conn.requests, conn := s.conn.(requests := [])) else s
  }

  function RunRequest(b: B.Browser, r: C.Request, frame: bool): B.Browser {
    match r
    case Probe(cycle, _) => b.(probe := Some(cycle))
    case CancelProbe => b.(probe := None)
    case Navigate(n, url) => B.Navigate(b, n, url, frame)
    case Abandon(n) => B.Abandon(b, n, frame)
  }

  function Hand(s: Sys, answer: A.Answer, now: C.Time): Sys
    requires s.batch != []
  {
    var (conn, channel, ok) := A.Hand(s.conn, s.channel, s.batch[0], answer, now);
    s.(conn := conn, channel := channel, batch := if ok then s.batch[1..] else [], lost := s.lost || !ok)
  }

  function Report(s: Sys, event: Event): Sys {
    if s.channel.admitting then s.(events := s.events + [event]) else s
  }

  // One step; a step the state does not allow changes nothing.
  function Next(s: Sys, step: Step): Sys {
    match step
    case Act(input) =>
      if s.batch == [] && Deliverable(s, input) then TakeBatch(s.(conn := C.Act(s.conn, input))) else s
    case Attach => if s.batch == [] then TakeBatch(s.(attached := true)) else s
    case HandOne(answer, now) => if s.batch != [] then Hand(s, answer, now) else s
    case PostReady(posted) => s.(channel := R.PostCefReady(s.channel, posted))
    case StopChannel => s.(channel := R.Stop(s.channel))
    case RevokeSession => s.(channel := R.Revoke(s.channel))
    case UiBegin => s.(channel := R.Begin(s.channel))
    case UiCheck => s.(channel := R.Check(s.channel))
    case UiCall(frame) =>
      var channel := R.Call(s.channel);
      if |channel.executed| == |s.channel.executed| then s.(channel := channel)
      else
        var request := s.channel.ui.callback;
        s.(channel := channel, browser := RunRequest(s.browser, request, frame), log := s.log + [Ran(request)])
    case CreateClient => s.(browser := B.CreateClient(s.browser))
    case DropClient => if s.browser.client.Some? then s.(browser := B.DropClient(s.browser), gone := true) else s
    case BrowserUp(frame) => s.(browser := B.AfterCreated(s.browser, s.channel.admitting, frame))
    case BrowserDown => s.(browser := B.BeforeClose(s.browser))
    case LoadEnd(url) =>
      if s.browser.client.Some? then s.(browser := B.LoadEnd(s.browser, url), log := s.log + [Finished(url)]) else s
    case LoadError(url, aborted) =>
      var failed := B.LoadError(s.browser, url, aborted);
      if failed.Some? then Report(s, NavigationFailed(failed.value)) else s
    case Paint(shown) =>
      var (browser, first) := B.Paint(s.browser, shown);
      if first.None? then s.(browser := browser)
      else Report(s.(browser := browser, log := s.log + [Shown(first.value)]), FramePresented(first.value))
  }

  function Run(s: Sys, steps: seq<Step>): Sys
    decreases |steps|
  {
    if steps == [] then s else Next(Run(s, steps[..|steps| - 1]), steps[|steps| - 1])
  }

  // ----- the two meanings of the request log -----

  // The navigation a log leaves live, with its URL.
  function LiveIn(log: seq<C.Request>): Option<(nat, string)> {
    if log == [] then None
    else
      var before := LiveIn(log[..|log| - 1]);
      match log[|log| - 1]
      case Navigate(n, url) => Some((n, url))
      case Abandon(n) => if before.Some? && before.value.0 == n then None else before
      case _ => before
  }

  function ProbeIn(log: seq<C.Request>): Option<nat> {
    if log == [] then None
    else
      match log[|log| - 1]
      case Probe(cycle, _) => Some(cycle)
      case CancelProbe => None
      case _ => ProbeIn(log[..|log| - 1])
  }

  function NavigationIn(log: seq<C.Request>): Option<nat> {
    if LiveIn(log).Some? then Some(LiveIn(log).value.0) else None
  }

  // Issued and not yet run, oldest first.
  function Undelivered(s: Sys): seq<C.Request>
    requires |s.channel.executed| <= |s.channel.accepted|
  {
    s.channel.accepted[|s.channel.executed|..] + s.batch + s.conn.requests
  }

  function Issued(s: Sys): seq<C.Request> {
    s.channel.accepted + s.batch + s.conn.requests
  }

  // Every request the browser ran, off its own history.
  function RanIn(log: seq<Mark>): seq<C.Request> {
    if log == [] then []
    else RanIn(log[..|log| - 1]) + if log[|log| - 1].Ran? then [log[|log| - 1].request] else []
  }

  // ----- the invariant -----

  ghost predicate ActorInv(s: Sys) {
    !s.lost ==> C.LogInv(s.conn, s.channel.accepted + s.batch)
  }

  // Navigation identities are fresh whatever is lost.
  ghost predicate FreshInv(s: Sys) {
    && C.Fresh(Issued(s))
    && C.Counted(s.conn, Issued(s))
  }

  ghost predicate BrowserInv(s: Sys) {
    && B.Agreed(s.browser)
    && (s.gone ==> s.browser.created && s.browser.client.None?)
    && (!s.gone ==> B.Intent(s.browser) == NavigationIn(s.channel.executed))
    && s.browser.probe == ProbeIn(s.channel.executed)
    && RanIn(s.log) == s.channel.executed
  }

  ghost predicate Inv(s: Sys) {
    && R.Inv(s.channel)
    && ActorInv(s)
    && FreshInv(s)
    && BrowserInv(s)
  }

  // ----- readiness: the channel loses nothing and reorders nothing -----

  lemma {:induction false} Split(s: Sys)
    requires R.Inv(s.channel)
    ensures s.channel.executed + Undelivered(s) == Issued(s)
  {
    assert s.channel.accepted == s.channel.accepted[..|s.channel.executed|] + s.channel.accepted[|s.channel.executed|..];
  }

  // ----- actor -----

  lemma {:induction false} LiveAppend(log: seq<C.Request>, r: C.Request)
    ensures LiveIn(log + [r]) ==
            (match r
             case Navigate(n, url) => Some((n, url))
             case Abandon(n) => if LiveIn(log).Some? && LiveIn(log).value.0 == n then None else LiveIn(log)
             case _ => LiveIn(log))
    ensures ProbeIn(log + [r]) ==
            (match r
             case Probe(cycle, _) => Some(cycle)
             case CancelProbe => None
             case _ => ProbeIn(log))
  {
    assert (log + [r])[..|log + [r]| - 1] == log;
  }

  // A log's open request, if any, is what it leaves live.
  ghost predicate OpenIsLive(log: seq<C.Request>) {
    if |log| % 2 == 0 then LiveIn(log) == None && ProbeIn(log) == None
    else
      var open := log[|log| - 1];
      && (open.Probe? ==> LiveIn(log) == None && ProbeIn(log) == Some(open.cycle))
      && (open.Navigate? ==> LiveIn(log) == Some((open.navigation, open.url)) && ProbeIn(log) == None)
  }

  lemma {:induction false} OpenIsLivePush(log: seq<C.Request>, r: C.Request)
    requires OpenIsLive(log)
    requires if |log| % 2 == 0 then C.Opens(r) else C.Closes(log[|log| - 1], r)
    ensures OpenIsLive(log + [r])
  {
    LiveAppend(log, r);
  }

  lemma {:induction false} BracketedPrefix(log: seq<C.Request>)
    requires C.Bracketed(log) && log != []
    ensures C.Bracketed(log[..|log| - 1])
  {
  }

  lemma {:induction false} BracketedMeaning(log: seq<C.Request>)
    requires C.Bracketed(log)
    ensures OpenIsLive(log)
    decreases |log|
  {
    if log != [] {
      var before, r := log[..|log| - 1], log[|log| - 1];
      BracketedPrefix(log);
      BracketedMeaning(before);
      OpenIsLivePush(before, r);
      assert before + [r] == log;
    }
  }

  lemma {:induction false} ActorMeaning(s: Sys)
    requires ActorInv(s) && !s.lost
    ensures NavigationIn(Issued(s)) == s.conn.phase.Navigation()
    ensures ProbeIn(Issued(s)) == s.conn.phase.Cycle()
  {
    BracketedMeaning(Issued(s));
    assert Issued(s) == s.channel.accepted + s.batch + s.conn.requests;
  }

  // ----- every step keeps the invariant -----

  lemma {:induction false} FreshWithout(a: seq<C.Request>, b: seq<C.Request>, c: seq<C.Request>)
    requires C.Fresh(a + b + c)
    ensures C.Fresh(a + c)
  {
    var whole, part := a + b + c, a + c;
    forall i, j | 0 <= i < j < |part|
      ensures part[i].Probe? && part[j].Probe? ==> part[i].cycle < part[j].cycle
      ensures C.CitesNavigation(part[i]) && part[j].Navigate? ==> part[i].navigation < part[j].navigation
    {
      var i1 := if i < |a| then i else i + |b|;
      var j1 := if j < |a| then j else j + |b|;
      assert part[i] == whole[i1] && part[j] == whole[j1];
    }
  }

  lemma {:induction false} BelowWithout(a: seq<C.Request>, b: seq<C.Request>, c: seq<C.Request>, cycles: nat, navigations: nat)
    requires C.Below(a + b + c, cycles, navigations)
    ensures C.Below(a + c, cycles, navigations)
  {
    var whole, part := a + b + c, a + c;
    forall i | 0 <= i < |part|
      ensures part[i].Probe? ==> part[i].cycle <= cycles
      ensures C.CitesNavigation(part[i]) ==> part[i].navigation <= navigations
    {
      assert part[i] == whole[if i < |a| then i else i + |b|];
    }
  }

  lemma {:induction false} TakeKeeps(s: Sys)
    requires Inv(s)
    ensures Inv(TakeBatch(s)) && Issued(TakeBatch(s)) == Issued(s)
  {
    var s1 := TakeBatch(s);
    if s.attached && s.batch == [] {
      assert Issued(s1) == Issued(s);
      assert (s1.channel.accepted + s1.batch) + s1.conn.requests == (s.channel.accepted + s.batch) + s.conn.requests;
    }
  }

  lemma {:induction false} ActKeeps(s: Sys, input: C.Input)
    requires Inv(s)
    ensures Inv(s.(conn := C.Act(s.conn, input)))
  {
    var earlier := s.channel.accepted + s.batch;
    C.ActKeepsFresh(s.conn, input, earlier);
    if !s.lost {
      C.ActKeepsLog(s.conn, input, earlier);
    }
  }

  // What a hand-over may do to the actor is what one of its own messages does.
  function FailureInput(r: C.Request, now: C.Time): C.Input {
    match r
    case Probe(cycle, _) => C.InProbeFailed(cycle, now)
    case Navigate(n, _) => C.InNavFailed(n)
    case _ => C.InTick(now)
  }

  lemma {:induction false} AcceptedKeeps(s: Sys, channel: R.Queue<C.Request>)
    requires Inv(s) && s.batch != [] && R.Inv(channel)
    requires channel.accepted == s.channel.accepted + [s.batch[0]] && channel.executed == s.channel.executed
    ensures Inv(s.(channel := channel, batch := s.batch[1..]))
  {
    var s1 := s.(channel := channel, batch := s.batch[1..]);
    assert s1.channel.accepted + s1.batch == s.channel.accepted + s.batch;
    assert Issued(s1) == Issued(s);
  }

  lemma {:induction false} LossKeeps(s: Sys, conn: C.Conn)
    requires Inv(s)
    requires C.Fresh(s.channel.accepted + s.batch + conn.requests)
    requires C.Counted(conn, s.channel.accepted + s.batch + conn.requests)
    ensures Inv(s.(conn := conn, batch := [], lost := true))
  {
    FreshWithout(s.channel.accepted, s.batch, conn.requests);
    BelowWithout(s.channel.accepted, s.batch, conn.requests, conn.cycles, conn.navigations);
    var s1 := s.(conn := conn, batch := [], lost := true);
    assert Issued(s1) == s.channel.accepted + conn.requests;
  }

  // A rejected request leaves the channel alone and answers its own actor.
  lemma {:induction false} RejectedHand(s: Sys, answer: A.Answer, now: C.Time)
    requires s.batch != [] && !R.Offer(s.channel, s.batch[0], answer.raced, answer.posted).1.Accepted?
    ensures var r := s.batch[0];
      Hand(s, answer, now) ==
      s.(conn := if r.Probe? || r.Navigate? then C.Act(s.conn, FailureInput(r, now)) else s.conn, batch := [], lost := true)
  {
  }

  lemma {:induction false} AcceptedHand(s: Sys, answer: A.Answer, now: C.Time)
    requires s.batch != [] && R.Offer(s.channel, s.batch[0], answer.raced, answer.posted).1.Accepted?
    ensures var channel := R.Offer(s.channel, s.batch[0], answer.raced, answer.posted).0;
      && Hand(s, answer, now) == s.(channel := channel, batch := s.batch[1..])
      && channel.accepted == s.channel.accepted + [s.batch[0]] && channel.executed == s.channel.executed
  {
  }

  lemma {:induction false} HandKeeps(s: Sys, answer: A.Answer, now: C.Time)
    requires Inv(s) && s.batch != []
    ensures Inv(Hand(s, answer, now))
  {
    var r := s.batch[0];
    var offered := R.Offer(s.channel, r, answer.raced, answer.posted);
    if offered.1.Accepted? {
      AcceptedHand(s, answer, now);
      R.RegisterKeeps(s.channel, r, answer.raced, answer.posted);
      AcceptedKeeps(s, offered.0);
    } else {
      RejectedHand(s, answer, now);
      if r.Probe? || r.Navigate? {
        C.ActKeepsFresh(s.conn, FailureInput(r, now), s.channel.accepted + s.batch);
        LossKeeps(s, C.Act(s.conn, FailureInput(r, now)));
      } else {
        LossKeeps(s, s.conn);
      }
    }
  }

  lemma {:induction false} RunRequestKeeps(b: B.Browser, executed: seq<C.Request>, r: C.Request, frame: bool, gone: bool)
    requires B.Agreed(b) && (gone ==> b.created && b.client.None?)
    requires !gone ==> B.Intent(b) == NavigationIn(executed)
    requires b.probe == ProbeIn(executed)
    ensures var b1 := RunRequest(b, r, frame);
      && B.Agreed(b1) && (gone ==> b1.created && b1.client.None?)
      && (!gone ==> B.Intent(b1) == NavigationIn(executed + [r]))
      && b1.probe == ProbeIn(executed + [r])
  {
    LiveAppend(executed, r);
    match r
    case Navigate(n, url) => B.NavigateSets(b, n, url, frame);
    case Abandon(n) => B.AbandonClears(b, n, frame);
    case _ =>
  }

  lemma {:induction false} RanAppend(log: seq<Mark>, mark: Mark)
    ensures RanIn(log + [mark]) == RanIn(log) + if mark.Ran? then [mark.request] else []
  {
    assert (log + [mark])[..|log + [mark]| - 1] == log;
  }

  // The UI thread runs the request it checked.
  predicate Runs(s: Sys) {
    s.channel.ui.Checked? && s.channel.admitting
  }

  lemma {:induction false} CallIs(s: Sys, frame: bool)
    ensures var s1 := Next(s, UiCall(frame)); var channel := R.Call(s.channel);
      && channel.accepted == s.channel.accepted
      && channel.executed == s.channel.executed + (if Runs(s) then [s.channel.ui.callback] else [])
      && s1 == if Runs(s) then AfterRun(s, channel, s.channel.ui.callback, frame) else s.(channel := channel)
  {
  }

  function AfterRun(s: Sys, channel: R.Queue<C.Request>, request: C.Request, frame: bool): Sys {
    s.(channel := channel, browser := RunRequest(s.browser, request, frame), log := s.log + [Ran(request)])
  }

  lemma {:induction false} RanKeeps(s: Sys, channel: R.Queue<C.Request>, request: C.Request, frame: bool)
    requires Inv(s) && R.Inv(channel)
    requires channel.accepted == s.channel.accepted && channel.executed == s.channel.executed + [request]
    ensures Inv(AfterRun(s, channel, request, frame))
  {
    RunRequestKeeps(s.browser, s.channel.executed, request, frame, s.gone);
    RanAppend(s.log, Ran(request));
    assert Issued(AfterRun(s, channel, request, frame)) == Issued(s);
  }

  lemma {:induction false} CallKeeps(s: Sys, frame: bool)
    requires Inv(s)
    ensures Inv(Next(s, UiCall(frame)))
  {
    R.CallKeeps(s.channel);
    CallIs(s, frame);
    if Runs(s) {
      RanKeeps(s, R.Call(s.channel), s.channel.ui.callback, frame);
    } else {
      SameHistoryKeeps(s, R.Call(s.channel));
    }
  }

  lemma {:induction false} QuietStep(q: R.Queue<C.Request>, step: R.Step<C.Request>)
    requires !step.DoRegister? && !step.DoCall?
    ensures R.Next(q, step).accepted == q.accepted && R.Next(q, step).executed == q.executed
  {
  }

  lemma {:induction false} SameHistoryKeeps(s: Sys, channel: R.Queue<C.Request>)
    requires Inv(s) && R.Inv(channel)
    requires channel.accepted == s.channel.accepted && channel.executed == s.channel.executed
    ensures Inv(s.(channel := channel))
  {
    assert Issued(s.(channel := channel)) == Issued(s);
  }

  lemma {:induction false} ChannelStepKeeps(s: Sys, step: R.Step<C.Request>)
    requires Inv(s)
    requires !step.DoRegister? && !step.DoCall?
    ensures Inv(s.(channel := R.Next(s.channel, step)))
  {
    R.NextKeeps(s.channel, step);
    QuietStep(s.channel, step);
    SameHistoryKeeps(s, R.Next(s.channel, step));
  }

  // What the browser's own events may change.
  lemma {:induction false} BrowserMoves(s: Sys, browser: B.Browser, gone: bool, events: seq<Event>, log: seq<Mark>)
    requires Inv(s)
    requires B.Agreed(browser) && browser.probe == s.browser.probe && RanIn(log) == RanIn(s.log)
    requires gone ==> browser.created && browser.client.None?
    requires !gone ==> !s.gone && B.Intent(browser) == B.Intent(s.browser)
    ensures Inv(s.(browser := browser, gone := gone, events := events, log := log))
  {
    var s1 := s.(browser := browser, gone := gone, events := events, log := log);
    assert Issued(s1) == Issued(s);
  }

  lemma {:induction false} ClientStepKeeps(s: Sys, step: Step)
    requires Inv(s)
    requires step.CreateClient? || step.DropClient? || step.BrowserUp? || step.BrowserDown?
    ensures Inv(Next(s, step))
  {
    var s1 := Next(s, step);
    B.EventsLeaveIntent(s.browser, "", false, s.channel.admitting, step.BrowserUp? && step.frame);
    BrowserMoves(s, s1.browser, s1.gone, s.events, s.log);
  }

  lemma {:induction false} LoadStepKeeps(s: Sys, step: Step)
    requires Inv(s)
    requires step.LoadEnd? || step.LoadError?
    ensures Inv(Next(s, step))
  {
    var s1 := Next(s, step);
    B.EventsLeaveIntent(s.browser, step.url, false, s.channel.admitting, false);
    RanAppend(s.log, Finished(step.url));
    BrowserMoves(s, s1.browser, s.gone, s1.events, s1.log);
  }

  lemma {:induction false} PaintKeeps(s: Sys, shown: bool)
    requires Inv(s)
    ensures Inv(Next(s, Paint(shown)))
  {
    var s1 := Next(s, Paint(shown));
    B.EventsLeaveIntent(s.browser, "", shown, s.channel.admitting, false);
    var first := B.Paint(s.browser, shown).1;
    if first.Some? {
      RanAppend(s.log, Shown(first.value));
    }
    BrowserMoves(s, s1.browser, s.gone, s1.events, s1.log);
  }

  lemma {:induction false} ActorStepKeeps(s: Sys, step: Step)
    requires Inv(s)
    requires step.Act? || step.Attach? || step.HandOne?
    ensures Inv(Next(s, step))
  {
    if step.Act? {
      if s.batch == [] && Deliverable(s, step.input) {
        ActKeeps(s, step.input);
        TakeKeeps(s.(conn := C.Act(s.conn, step.input)));
      }
    } else if step.Attach? {
      if s.batch == [] {
        AttachKeeps(s);
        TakeKeeps(s.(attached := true));
      }
    } else if s.batch != [] {
      HandKeeps(s, step.answer, step.now);
    }
  }

  lemma {:induction false} AttachKeeps(s: Sys)
    requires Inv(s)
    ensures Inv(s.(attached := true))
  {
    assert Issued(s.(attached := true)) == Issued(s);
  }

  // What a step of the protocol is to the readiness channel.
  function ChannelStep(step: Step): Option<R.Step<C.Request>> {
    match step
    case PostReady(posted) => Some(R.DoPostReady(posted))
    case StopChannel => Some(R.DoStop)
    case RevokeSession => Some(R.DoRevoke)
    case UiBegin => Some(R.DoBegin)
    case UiCheck => Some(R.DoCheck)
    case _ => None
  }

  lemma {:induction false} NextKeeps(s: Sys, step: Step)
    requires Inv(s)
    ensures Inv(Next(s, step))
  {
    if ChannelStep(step).Some? {
      ChannelStepKeeps(s, ChannelStep(step).value);
      assert Next(s, step) == s.(channel := R.Next(s.channel, ChannelStep(step).value));
    } else if step.UiCall? {
      CallKeeps(s, step.frame);
    } else if step.LoadEnd? || step.LoadError? {
      LoadStepKeeps(s, step);
    } else if step.Paint? {
      PaintKeeps(s, step.shown);
    } else if step.Act? || step.Attach? || step.HandOne? {
      ActorStepKeeps(s, step);
    } else {
      ClientStepKeeps(s, step);
    }
  }

  lemma {:induction false} InitialInv(url: string, saved: string, now: C.Time)
    ensures Inv(Initial(url, saved, now))
  {
    C.NewLog(url, saved, now);
    var s := Initial(url, saved, now);
    assert s.channel.accepted + s.batch == [];
    assert Issued(s) == [] + s.conn.requests;
  }

  lemma {:induction false} RunInv(url: string, saved: string, now: C.Time, steps: seq<Step>)
    ensures Inv(Run(Initial(url, saved, now), steps))
    decreases |steps|
  {
    if steps == [] {
      InitialInv(url, saved, now);
    } else {
      RunInv(url, saved, now, steps[..|steps| - 1]);
      NextKeeps(Run(Initial(url, saved, now), steps[..|steps| - 1]), steps[|steps| - 1]);
    }
  }

  // ----- agreement of the two halves -----

  // What a log does to a browser set on `start`.
  function Fold(start: Option<nat>, log: seq<C.Request>): Option<nat> {
    if log == [] then start
    else
      var before := Fold(start, log[..|log| - 1]);
      match log[|log| - 1]
      case Navigate(n, _) => Some(n)
      case Abandon(n) => if before == Some(n) then None else before
      case _ => before
  }

  function FoldProbe(start: Option<nat>, log: seq<C.Request>): Option<nat> {
    if log == [] then start
    else
      match log[|log| - 1]
      case Probe(cycle, _) => Some(cycle)
      case CancelProbe => None
      case _ => FoldProbe(start, log[..|log| - 1])
  }

  lemma {:induction false} FoldContinues(a: seq<C.Request>, b: seq<C.Request>)
    ensures Fold(NavigationIn(a), b) == NavigationIn(a + b)
    ensures FoldProbe(ProbeIn(a), b) == ProbeIn(a + b)
    decreases |b|
  {
    if b == [] {
      assert a + b == a;
    } else {
      var last := |b| - 1;
      FoldContinues(a, b[..last]);
      assert a + b == (a + b[..last]) + [b[last]];
      LiveAppend(a + b[..last], b[last]);
    }
  }

  lemma {:induction false} GapCloses(s: Sys)
    requires Inv(s)
    ensures |s.channel.executed| <= |s.channel.accepted|
    ensures !s.lost && !s.gone ==> Fold(B.Intent(s.browser), Undelivered(s)) == s.conn.phase.Navigation()
    ensures !s.lost ==> FoldProbe(s.browser.probe, Undelivered(s)) == s.conn.phase.Cycle()
  {
    Split(s);
    FoldContinues(s.channel.executed, Undelivered(s));
    if !s.lost {
      ActorMeaning(s);
    }
  }

  // In every interleaving of the actor, the flush, readiness, the UI thread, the
  // browser and stale results: running what is still undelivered would leave
  // the browser set on exactly the navigation the actor's phase names, and the
  // UI thread with exactly the probe the actor waits for.
  lemma {:induction false} UndeliveredClosesTheGap(url: string, saved: string, now: C.Time, steps: seq<Step>)
    ensures var s := Run(Initial(url, saved, now), steps);
      && |s.channel.executed| <= |s.channel.accepted|
      && (!s.lost && !s.gone ==> Fold(B.Intent(s.browser), Undelivered(s)) == s.conn.phase.Navigation())
      && (!s.lost ==> FoldProbe(s.browser.probe, Undelivered(s)) == s.conn.phase.Cycle())
  {
    RunInv(url, saved, now, steps);
    GapCloses(Run(Initial(url, saved, now), steps));
  }

  // While both gates are open what is undelivered is what the queues hold: the
  // callback in hand, the posted tasks, the waiters, the batch and the requests
  // not flushed.
  lemma {:induction false} UndeliveredIsQueued(url: string, saved: string, now: C.Time, steps: seq<Step>)
    requires var s := Run(Initial(url, saved, now), steps); s.channel.admitting && !s.channel.state.Stopped?
    ensures var s := Run(Initial(url, saved, now), steps);
      && |s.channel.executed| <= |s.channel.accepted|
      && Undelivered(s) == R.OnTheWay(s.channel) + s.batch + s.conn.requests
  {
    RunInv(url, saved, now, steps);
    var s := Run(Initial(url, saved, now), steps);
    assert s.channel.accepted[|s.channel.executed|..] == R.OnTheWay(s.channel);
  }

  // Everything issued has run.
  predicate DrainedOut(s: Sys) {
    s.channel.executed == s.channel.accepted && s.batch == [] && s.conn.requests == []
  }

  // The browser is set on the actor's navigation, names it or nothing, and the
  // UI thread keeps the actor's probe.
  predicate HalvesAgree(s: Sys) {
    && B.Intent(s.browser) == s.conn.phase.Navigation()
    && (B.PaintingOf(s.browser).Named().Some? ==> B.PaintingOf(s.browser).Named() == s.conn.phase.Navigation())
    && s.browser.probe == s.conn.phase.Cycle()
  }

  lemma {:induction false} DrainedAgrees(s: Sys)
    requires Inv(s) && !s.lost && !s.gone && DrainedOut(s)
    ensures HalvesAgree(s)
  {
    GapCloses(s);
    assert Undelivered(s) == [];
  }

  lemma {:induction false} DrainedHalvesAgree(url: string, saved: string, now: C.Time, steps: seq<Step>)
    requires var s := Run(Initial(url, saved, now), steps); !s.lost && !s.gone && DrainedOut(s)
    ensures HalvesAgree(Run(Initial(url, saved, now), steps))
  {
    RunInv(url, saved, now, steps);
    DrainedAgrees(Run(Initial(url, saved, now), steps));
  }

  // ----- the UI thread left alone -----

  function UiStep(s: Sys, frame: bool): Step {
    match s.channel.ui
    case Idle => UiBegin
    case Draining(_) => UiCheck
    case Checked(_, _) => UiCall(frame)
  }

  function Pump(s: Sys, frame: bool, n: nat): Sys
    decreases n
  {
    if n == 0 then s else Pump(Next(s, UiStep(s, frame)), frame, n - 1)
  }

  lemma {:induction false} UiStepIs(s: Sys, frame: bool)
    ensures var s1 := Next(s, UiStep(s, frame));
      && s1.channel == R.Next(s.channel, R.UiStep(s.channel))
      && s1.conn == s.conn && s1.batch == s.batch && s1.lost == s.lost && s1.gone == s.gone
  {
  }

  lemma {:induction false} PumpIs(s: Sys, frame: bool, n: nat)
    ensures var s1 := Pump(s, frame, n);
      && s1.channel == R.Pump(s.channel, n)
      && s1.conn == s.conn && s1.batch == s.batch && s1.lost == s.lost && s1.gone == s.gone
    decreases n
  {
    if n > 0 {
      UiStepIs(s, frame);
      PumpIs(Next(s, UiStep(s, frame)), frame, n - 1);
    }
  }

  lemma {:induction false} PumpKeeps(s: Sys, frame: bool, n: nat)
    requires Inv(s)
    ensures Inv(Pump(s, frame, n))
    decreases n
  {
    if n > 0 {
      var step := UiStep(s, frame);
      NextKeeps(s, step);
      PumpKeeps(Next(s, step), frame, n - 1);
    }
  }

  // ----- the flush left alone -----

  // Without a failed delivery an attached actor keeps no requests, and one not yet
  // attached flushes none.
  predicate FlushInv(s: Sys) {
    s.lost || if s.attached then s.conn.requests == [] else s.batch == []
  }

  lemma {:induction false} NextKeepsFlush(s: Sys, step: Step)
    requires FlushInv(s)
    ensures FlushInv(Next(s, step))
  {
    if step.HandOne? && s.batch != [] {
      HandKeepsFlush(s, step.answer, step.now);
    } else if !step.Act? && !step.Attach? {
      OthersKeepFlush(s, step);
    }
  }

  lemma {:induction false} OthersKeepFlush(s: Sys, step: Step)
    requires !step.Act? && !step.Attach? && (step.HandOne? ==> s.batch == [])
    ensures var s1 := Next(s, step);
      s1.lost == s.lost && s1.attached == s.attached && s1.conn == s.conn && s1.batch == s.batch
  {
    if step.UiCall? {
      CallIs(s, step.frame);
    }
  }

  lemma {:induction false} HandKeepsFlush(s: Sys, answer: A.Answer, now: C.Time)
    requires FlushInv(s) && s.batch != []
    ensures FlushInv(Hand(s, answer, now))
  {
    if R.Offer(s.channel, s.batch[0], answer.raced, answer.posted).1.Accepted? {
      AcceptedHand(s, answer, now);
    } else {
      RejectedHand(s, answer, now);
    }
  }

  lemma {:induction false} RunFlush(url: string, saved: string, now: C.Time, steps: seq<Step>)
    ensures FlushInv(Run(Initial(url, saved, now), steps))
    decreases |steps|
  {
    if steps != [] {
      RunFlush(url, saved, now, steps[..|steps| - 1]);
      NextKeepsFlush(Run(Initial(url, saved, now), steps[..|steps| - 1]), steps[|steps| - 1]);
    }
  }

  // CEF takes every request.
  const TAKEN := A.Answer(false, true)

  function Attached(s: Sys): Sys {
    if s.attached then s else Next(s, Attach)
  }

  function Flushed(s: Sys, now: C.Time): Sys
    decreases |s.batch|
  {
    if s.batch == [] then s else Flushed(Hand(s, TAKEN, now), now)
  }

  lemma {:induction false} TakenHand(s: Sys, now: C.Time)
    requires s.batch != [] && R.WillRun(s.channel)
    ensures var s1 := Hand(s, TAKEN, now);
      && s1 == s.(channel := s1.channel, batch := s.batch[1..]) && R.WillRun(s1.channel)
      && s1.channel.accepted == s.channel.accepted + [s.batch[0]] && s1.channel.executed == s.channel.executed
  {
    var channel := R.Offer(s.channel, s.batch[0], false, true).0;
    assert s.channel.tasks <= channel.tasks;
    AcceptedHand(s, TAKEN, now);
  }

  lemma {:induction false} FlushDelivers(s: Sys, now: C.Time)
    requires Inv(s) && R.WillRun(s.channel)
    ensures var s1 := Flushed(s, now);
      Inv(s1) && s1 == s.(channel := s1.channel, batch := []) && R.WillRun(s1.channel)
    decreases |s.batch|
  {
    if s.batch != [] {
      HandKeeps(s, TAKEN, now);
      TakenHand(s, now);
      FlushDelivers(Hand(s, TAKEN, now), now);
    }
  }

  lemma {:induction false} FlushAccepts(s: Sys, now: C.Time)
    requires R.WillRun(s.channel)
    ensures var channel := Flushed(s, now).channel;
      channel.accepted == s.channel.accepted + s.batch && channel.executed == s.channel.executed
    decreases |s.batch|
  {
    if s.batch == [] {
      assert s.channel.accepted + s.batch == s.channel.accepted;
    } else {
      TakenHand(s, now);
      FlushAccepts(Hand(s, TAKEN, now), now);
      assert s.channel.accepted + [s.batch[0]] + s.batch[1..] == s.channel.accepted + s.batch;
    }
  }

  lemma {:induction false} AttachedTakes(s: Sys)
    requires Inv(s) && FlushInv(s) && !s.lost
    ensures var s1 := Attached(s);
      && Inv(s1) && s1.conn == s.conn.(requests := []) && s1.channel == s.channel
      && s1.lost == s.lost && s1.gone == s.gone
  {
    NextKeeps(s, Attach);
  }

  // From any reachable state in which nothing was lost and both gates are open: the
  // overlay attached, the flush run to its end, and as many of the UI thread's own
  // steps as its tasks then weigh bring the browser to the actor's navigation and
  // the probe to the actor's cycle.
  lemma {:induction false} LeftAloneTheyAgree(url: string, saved: string, now: C.Time, steps: seq<Step>, frame: bool)
    requires var s := Run(Initial(url, saved, now), steps); !s.lost && !s.gone && R.WillRun(s.channel)
    ensures var s := Run(Initial(url, saved, now), steps);
      var s1 := Flushed(Attached(s), now);
      var s2 := Pump(s1, frame, R.Weight(s1.channel));
      s2.conn == s.conn.(requests := []) && DrainedOut(s2) && HalvesAgree(s2)
  {
    RunInv(url, saved, now, steps);
    RunFlush(url, saved, now, steps);
    LeftAlone(Run(Initial(url, saved, now), steps), now, frame);
  }

  lemma {:induction false} LeftAlone(s: Sys, now: C.Time, frame: bool)
    requires Inv(s) && FlushInv(s) && !s.lost && !s.gone && R.WillRun(s.channel)
    ensures var s1 := Flushed(Attached(s), now);
      var s2 := Pump(s1, frame, R.Weight(s1.channel));
      s2.conn == s.conn.(requests := []) && DrainedOut(s2) && HalvesAgree(s2)
  {
    AttachedTakes(s);
    FlushDelivers(Attached(s), now);
    var s1 := Flushed(Attached(s), now);
    PumpKeeps(s1, frame, R.Weight(s1.channel));
    PumpIs(s1, frame, R.Weight(s1.channel));
    R.UiRunsEverything(s1.channel, R.Weight(s1.channel));
    DrainedAgrees(Pump(s1, frame, R.Weight(s1.channel)));
  }

  // Whatever was flushed, posted and run, the requests issued stay bracketed.
  lemma {:induction false} IssuedStaysBracketed(url: string, saved: string, now: C.Time, steps: seq<Step>)
    ensures var s := Run(Initial(url, saved, now), steps);
      && C.Fresh(Issued(s))
      && (!s.lost ==> C.Bracketed(Issued(s)) && C.OpenIs(s.conn, Issued(s)))
  {
    RunInv(url, saved, now, steps);
  }
}
