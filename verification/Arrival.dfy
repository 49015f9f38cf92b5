// What the user comes to see: the load the browser was last told, a failure
// shown when its page fails, and a server probed, loaded, painted and faded in.
module Arrival {
  import opened Wrappers
  import opened Protocol
  import Urls
  import R = Readiness
  import C = Connection
  import B = Browser

  // ----- the load last submitted -----

  // The browser was last told what the requests it ran leave live.
  predicate LoadsInv(s: Sys) {
    !s.gone ==> B.SetOn(s.browser, LiveIn(s.channel.executed))
  }

  lemma {:induction false} RequestKeepsLoads(b: B.Browser, executed: seq<C.Request>, r: C.Request, frame: bool)
    requires B.Agreed(b) && B.Intent(b) == NavigationIn(executed) && B.SetOn(b, LiveIn(executed))
    ensures B.SetOn(RunRequest(b, r, frame), LiveIn(executed + [r]))
  {
    LiveAppend(executed, r);
    match r
    case Navigate(n, url) => B.NavigateLoads(b, n, url, frame);
    case Abandon(n) => B.AbandonLoads(b, LiveIn(executed), n, frame);
    case _ =>
  }

  lemma {:induction false} SameBrowser(s: Sys, step: Step)
    requires step.Act? || step.Attach? || step.HandOne? || step.LoadError? || ChannelStep(step).Some?
    ensures Next(s, step).browser == s.browser && Next(s, step).gone == s.gone
  {
  }

  lemma {:induction false} EventKeepsLoads(s: Sys, step: Step)
    requires LoadsInv(s) && !step.UiCall? && Next(s, step).channel.executed == s.channel.executed
    ensures LoadsInv(Next(s, step))
  {
    if step.Act? || step.Attach? || step.HandOne? || step.LoadError? || ChannelStep(step).Some? {
      SameBrowser(s, step);
    } else if !s.gone {
      var live := LiveIn(s.channel.executed);
      match step
      case LoadEnd(url) => B.EventsLeaveLoads(s.browser, live, url, false, false, false);
      case Paint(shown) => B.EventsLeaveLoads(s.browser, live, "", shown, false, false);
      case BrowserUp(frame) => B.EventsLeaveLoads(s.browser, live, "", false, s.channel.admitting, frame);
      case _ => B.EventsLeaveLoads(s.browser, live, "", false, false, false);
    }
  }

  lemma {:induction false} NextKeepsLoads(s: Sys, step: Step)
    requires Inv(s) && LoadsInv(s)
    ensures LoadsInv(Next(s, step))
  {
    if step.UiCall? {
      CallIs(s, step.frame);
      if Runs(s) && !s.gone {
        RequestKeepsLoads(s.browser, s.channel.executed, s.channel.ui.callback, step.frame);
      }
    } else {
      OnlyCallsExecute(s, step);
      EventKeepsLoads(s, step);
    }
  }

  lemma {:induction false} OnlyCallsExecute(s: Sys, step: Step)
    requires !step.UiCall?
    ensures Next(s, step).channel.executed == s.channel.executed
  {
    if ChannelStep(step).Some? {
      QuietStep(s.channel, ChannelStep(step).value);
    }
  }

  lemma {:induction false} RunLoads(url: string, saved: string, now: C.Time, steps: seq<Step>)
    ensures LoadsInv(Run(Initial(url, saved, now), steps))
    decreases |steps|
  {
    if steps != [] {
      RunLoads(url, saved, now, steps[..|steps| - 1]);
      RunInv(url, saved, now, steps[..|steps| - 1]);
      NextKeepsLoads(Run(Initial(url, saved, now), steps[..|steps| - 1]), steps[|steps| - 1]);
    }
  }

  predicate Cites(requests: seq<C.Request>) {
    exists k :: 0 <= k < |requests| && C.CitesNavigation(requests[k])
  }

  lemma {:induction false} CitesAppend(requests: seq<C.Request>, r: C.Request)
    ensures Cites(requests + [r]) <==> Cites(requests) || C.CitesNavigation(r)
  {
    if C.CitesNavigation(r) {
      assert (requests + [r])[|requests|] == r;
    }
    if Cites(requests) {
      var k :| 0 <= k < |requests| && C.CitesNavigation(requests[k]);
      assert (requests + [r])[k] == requests[k];
    }
  }

  // What the UI thread's steps on their own do to a live browser with a main frame.
  ghost predicate Served(s: Sys, s1: Sys) {
    && B.Live(s1.browser) && s.channel.executed <= s1.channel.executed
    && var ran := s1.channel.executed[|s.channel.executed|..];
    && (s1.browser.pending.None? <==> s.browser.pending.None? || Cites(ran))
    && (ran != [] && ran[|ran| - 1].Navigate? ==>
          B.PaintingOf(s1.browser) == B.Awaiting(ran[|ran| - 1].navigation, ran[|ran| - 1].url))
  }

  lemma {:induction false} ServesRequest(b: B.Browser, r: C.Request)
    requires B.Live(b)
    ensures var b1 := RunRequest(b, r, true);
      && B.Live(b1) && (b1.pending.None? <==> b.pending.None? || C.CitesNavigation(r))
      && (r.Navigate? ==> B.PaintingOf(b1) == B.Awaiting(r.navigation, r.url))
  {
  }

  lemma {:induction false} UiStepServes(s: Sys)
    requires B.Live(s.browser)
    ensures var s1 := Next(s, UiStep(s, true));
      || (s1.browser == s.browser && s1.channel.executed == s.channel.executed)
      || (Runs(s) && s1.browser == RunRequest(s.browser, s.channel.ui.callback, true)
          && s1.channel.executed == s.channel.executed + [s.channel.ui.callback])
  {
    if s.channel.ui.Checked? {
      CallIs(s, true);
    } else {
      OnlyCallsExecute(s, UiStep(s, true));
    }
  }

  lemma {:induction false} ServedOn(s: Sys, s1: Sys, s2: Sys, r: C.Request)
    requires Served(s, s1) && B.Live(s1.browser)
    requires s2.browser == RunRequest(s1.browser, r, true) && s2.channel.executed == s1.channel.executed + [r]
    ensures Served(s, s2)
  {
    var ran := s1.channel.executed[|s.channel.executed|..];
    ServesRequest(s1.browser, r);
    CitesAppend(ran, r);
    assert s2.channel.executed[|s.channel.executed|..] == ran + [r];
  }

  // `Pump` with one step more at the end.
  lemma {:induction false} PumpMore(s: Sys, frame: bool, n: nat)
    ensures Pump(s, frame, n + 1) == Next(Pump(s, frame, n), UiStep(Pump(s, frame, n), frame))
    decreases n
  {
    if n > 0 {
      PumpMore(Next(s, UiStep(s, frame)), frame, n - 1);
    }
  }

  lemma {:induction false} PumpServes(s: Sys, n: nat)
    requires B.Live(s.browser)
    ensures Served(s, Pump(s, true, n))
    decreases n
  {
    if n > 0 {
      PumpServes(s, n - 1);
      PumpMore(s, true, n - 1);
      var s1 := Pump(s, true, n - 1);
      var s2 := Next(s1, UiStep(s1, true));
      UiStepServes(s1);
      if s2.channel.executed != s1.channel.executed {
        ServedOn(s, s1, s2, s1.channel.ui.callback);
      }
    }
  }

  // From any reachable state in which nothing was lost, both gates are open and the
  // browser is live: once attached, flushed and left to the UI thread with a main
  // frame, nothing stays deferred, unless it was before and no request left cites a
  // navigation; and then the last load the browser was told is the page of the
  // actor's navigation, or with none to show the blank page.
  lemma {:induction false} LeftAloneItIsLoaded(url: string, saved: string, now: C.Time, steps: seq<Step>)
    requires var s := Run(Initial(url, saved, now), steps);
      !s.lost && !s.gone && R.WillRun(s.channel) && B.Live(s.browser)
    ensures var s := Run(Initial(url, saved, now), steps);
      var s1 := Flushed(Attached(s), now);
      var b := Pump(s1, true, R.Weight(s1.channel)).browser;
      && |s.channel.executed| <= |s.channel.accepted|
      && (b.pending.None? <==> s.browser.pending.None? || Cites(Undelivered(s)))
      && (b.pending.None? ==>
            match LiveIn(Issued(s))
            case Some((n, page)) =>
              && s.conn.phase.Navigation() == Some(n) && (s.conn.phase.Loading? ==> s.conn.phase.base == page)
              && b.loads != [] && b.loads[|b.loads| - 1] == B.Page(n, page)
            case None =>
              s.conn.phase.Navigation() == None && (b.loads == [] || b.loads[|b.loads| - 1] == B.Blank))
  {
    RunInv(url, saved, now, steps);
    RunFlush(url, saved, now, steps);
    RunLoads(url, saved, now, steps);
    LeftAloneLoads(Run(Initial(url, saved, now), steps), now);
  }

  lemma {:induction false} AttachedIsLive(s: Sys)
    requires Inv(s) && FlushInv(s) && !s.lost
    ensures var s1 := Attached(s);
      s1.browser == s.browser && s1.channel == s.channel && s1.batch + s1.conn.requests == s.batch + s.conn.requests
  {
  }

  // The flush hands everything over; the UI thread then runs it.
  lemma {:induction false} FlushedHolds(s: Sys, now: C.Time)
    requires Inv(s) && FlushInv(s) && !s.lost && !s.gone && R.WillRun(s.channel)
    ensures var s1 := Flushed(Attached(s), now);
      && Inv(s1) && s1 == s.(attached := true, conn := s.conn.(requests := []), batch := [], channel := s1.channel)
      && R.WillRun(s1.channel) && s1.channel.accepted == Issued(s) && s1.channel.executed == s.channel.executed
  {
    AttachedTakes(s);
    AttachedIsLive(s);
    var s0 := Attached(s);
    FlushDelivers(s0, now);
    FlushAccepts(s0, now);
    assert s.channel.accepted + (s.batch + s.conn.requests) == Issued(s);
    assert s0.batch + s0.conn.requests == s0.batch;
  }

  lemma {:induction false} PumpedHolds(s: Sys)
    requires Inv(s) && R.WillRun(s.channel)
    ensures var s1 := Pump(s, true, R.Weight(s.channel));
      && Inv(s1) && R.WillRun(s1.channel) && s1.channel.executed == s1.channel.accepted == s.channel.accepted
      && s1 == s.(channel := s1.channel, browser := s1.browser, log := s1.log)
  {
    var n := R.Weight(s.channel);
    PumpKeeps(s, true, n);
    PumpIs(s, true, n);
    PumpEvents(s, n);
    R.UiRunsEverything(s.channel, n);
  }

  lemma {:induction false} PumpEvents(s: Sys, n: nat)
    ensures Pump(s, true, n).events == s.events && Pump(s, true, n).attached == s.attached
    decreases n
  {
    if n > 0 {
      PumpEvents(Next(s, UiStep(s, true)), n - 1);
    }
  }

  lemma {:induction false} PumpKeepsLoads(s: Sys, n: nat)
    requires Inv(s) && LoadsInv(s)
    ensures LoadsInv(Pump(s, true, n))
    decreases n
  {
    if n > 0 {
      NextKeeps(s, UiStep(s, true));
      NextKeepsLoads(s, UiStep(s, true));
      PumpKeepsLoads(Next(s, UiStep(s, true)), n - 1);
    }
  }

  lemma {:induction false} LeftAloneLoads(s: Sys, now: C.Time)
    requires Inv(s) && FlushInv(s) && LoadsInv(s) && !s.lost && !s.gone && R.WillRun(s.channel) && B.Live(s.browser)
    ensures var s1 := Flushed(Attached(s), now);
      var b := Pump(s1, true, R.Weight(s1.channel)).browser;
      && |s.channel.executed| <= |s.channel.accepted|
      && (b.pending.None? <==> s.browser.pending.None? || Cites(Undelivered(s)))
      && (b.pending.None? ==>
            match LiveIn(Issued(s))
            case Some((n, page)) =>
              && s.conn.phase.Navigation() == Some(n) && (s.conn.phase.Loading? ==> s.conn.phase.base == page)
              && b.loads != [] && b.loads[|b.loads| - 1] == B.Page(n, page)
            case None =>
              s.conn.phase.Navigation() == None && (b.loads == [] || b.loads[|b.loads| - 1] == B.Blank))
  {
    FlushedHolds(s, now);
    var s1 := Flushed(Attached(s), now);
    var n := R.Weight(s1.channel);
    PumpedHolds(s1);
    FlushedKeepsLoads(s, now);
    PumpKeepsLoads(s1, n);
    PumpServes(s1, n);
    Split(s);
    assert Pump(s1, true, n).channel.executed[|s.channel.executed|..] == Undelivered(s);
    LiveIsThePhase(s);
  }

  lemma {:induction false} FlushedKeepsLoads(s: Sys, now: C.Time)
    requires Inv(s) && FlushInv(s) && LoadsInv(s) && !s.lost && !s.gone && R.WillRun(s.channel)
    ensures Inv(Flushed(Attached(s), now)) && LoadsInv(Flushed(Attached(s), now))
  {
    FlushedHolds(s, now);
  }

  // A log's live navigation is the one the phase names, and while it loads its URL
  // is the base being loaded.
  lemma {:induction false} LiveIsThePhase(s: Sys)
    requires Inv(s) && !s.lost
    ensures match LiveIn(Issued(s))
            case Some((n, page)) => s.conn.phase.Navigation() == Some(n) && (s.conn.phase.Loading? ==> s.conn.phase.base == page)
            case None => s.conn.phase.Navigation() == None
  {
    ActorMeaning(s);
    BracketedMeaning(Issued(s));
    assert Issued(s) == s.channel.accepted + s.batch + s.conn.requests;
  }

  // ----- what the screen comes to -----

  // While the actor loads a navigation and the browser paints it, an error of a page
  // of its base, once its report is delivered, shows the failure and has the
  // navigation abandoned.
  lemma {:induction false} LoadErrorShowsFailure(s: Sys, url: string)
    requires s.conn.phase.Loading? && s.batch == [] && s.attached && s.channel.admitting
    requires s.browser.client.Some? && s.browser.client.value.painting.Named() == Some(s.conn.phase.navigation)
    requires Urls.IsPageOf(s.browser.client.value.painting.base, url)
    ensures var n := s.conn.phase.navigation;
      var s1 := Next(s, LoadError(url, false));
      var s2 := Next(s1, Act(C.InNavFailed(n)));
      && Next(s, LoadError(url, true)) == s
      && NavigationFailed(n) in s1.events
      && C.ScreenOf(s2.conn.phase) == C.FailureView && s2.conn.phase.Url() == Some(s.conn.phase.base)
      && s2.batch == s.conn.requests + [C.Abandon(n)]
  {
    var s1 := Next(s, LoadError(url, false));
    assert s1.events[|s.events|] == NavigationFailed(s.conn.phase.navigation);
  }

  lemma {:induction false} OwnPage(base: string)
    requires base != ""
    ensures Urls.IsPageOf(base, base)
  {
    assert base[..|base|] == base && base[|base|..] == "";
  }

  // The actor's part: a resolution taken while everything is flushed issues the
  // navigation behind the probe's cancellation.
  lemma {:induction false} ResolutionIssues(s: Sys, base: string, now: C.Time)
    requires s.conn.phase.Probing? && s.attached && s.batch == [] && s.conn.requests == []
    ensures var s1 := Next(s, Act(C.InResolved(s.conn.phase.cycle, base, now))); var n := s.conn.navigations + 1;
      && s1.conn.phase == C.Loading(base, n, s.conn.phase.since) && s1.conn.requests == []
      && s1.batch == [C.CancelProbe, C.Navigate(n, base)]
      && s1 == s.(conn := s1.conn, batch := s1.batch)
  {
    assert [] + [C.CancelProbe] + [C.Navigate(s.conn.navigations + 1, base)] == [C.CancelProbe, C.Navigate(s.conn.navigations + 1, base)];
  }

  // The browser's and the screen's part: the page it was told loads, paints, and
  // fades in.
  lemma {:induction false} PageFadesIn(s: Sys, n: nat, base: string, shown: C.Time)
    requires s.conn.phase.Loading? && s.conn.phase.navigation == n && base != ""
    requires s.conn.requests == [] && s.batch == [] && s.channel.admitting
    requires B.Live(s.browser) && B.PaintingOf(s.browser) == B.Awaiting(n, base)
    ensures var s1 := Next(Next(s, LoadEnd(base)), Paint(true));
      var s2 := Next(s1, Act(C.InPresented(n, shown)));
      var s3 := Next(s2, Act(C.InTick(shown + C.FADE)));
      && FramePresented(n) in s1.events && B.PaintingOf(s1.browser) == B.Loaded(n, base, true)
      && C.ScreenOf(s2.conn.phase) == C.Fading(shown)
      && C.ScreenOf(s3.conn.phase) == C.Gone && s3.conn.phase == C.Connected(n)
      && s3.browser == s1.browser && s1.browser.loads == s.browser.loads
  {
    OwnPage(base);
    var s0 := Next(s, LoadEnd(base));
    assert B.PaintingOf(s0.browser) == B.Loaded(n, base, false);
    var s1 := Next(s0, Paint(true));
    assert s1.events == s.events + [FramePresented(n)];
    assert s1.events[|s.events|] == FramePresented(n);
    PageShown(s1, n, shown);
  }

  lemma {:induction false} PageShown(s: Sys, n: nat, shown: C.Time)
    requires s.conn.phase.Loading? && s.conn.phase.navigation == n && s.conn.requests == [] && s.batch == []
    requires FramePresented(n) in s.events
    ensures var s1 := Next(s, Act(C.InPresented(n, shown)));
      var s2 := Next(s1, Act(C.InTick(shown + C.FADE)));
      && C.ScreenOf(s1.conn.phase) == C.Fading(shown) && s2.conn.phase == C.Connected(n)
      && s2.browser == s.browser
  {
  }

  // The run a resolution starts: flush, the UI thread's own steps, the page's load
  // and first frame, the report of it, and a tick at the fade's end.
  function Resolved(s: Sys, cycle: nat, base: string, now: C.Time): Sys {
    Flushed(Next(s, Act(C.InResolved(cycle, base, now))), now)
  }

  function Submitted(s: Sys): Sys {
    Pump(s, true, R.Weight(s.channel))
  }

  function Appeared(s: Sys, n: nat, base: string, shown: C.Time): Sys {
    var painted := Next(Next(s, LoadEnd(base)), Paint(true));
    Next(Next(painted, Act(C.InPresented(n, shown))), Act(C.InTick(shown + C.FADE)))
  }

  // The browser was last told to load the page of `n`.
  predicate ToldPage(b: B.Browser, n: nat, base: string) {
    b.loads != [] && b.loads[|b.loads| - 1] == B.Page(n, base)
  }

  // The page is loaded and shown, and the connect screen is gone.
  predicate Arrived(s: Sys, n: nat, base: string) {
    && s.conn.phase == C.Connected(n) && C.ScreenOf(s.conn.phase) == C.Gone
    && B.PaintingOf(s.browser) == B.Loaded(n, base, true) && ToldPage(s.browser, n, base)
  }

  // The page is submitted and awaited, with nothing left to flush.
  predicate Submits(s: Sys, n: nat, base: string, since: C.Time) {
    && s.conn.phase == C.Loading(base, n, since)
    && s.conn.requests == [] && s.batch == [] && s.channel.admitting
    && B.Live(s.browser) && B.PaintingOf(s.browser) == B.Awaiting(n, base) && ToldPage(s.browser, n, base)
  }

  lemma {:induction false} SubmittedArrives(s: Sys, n: nat, base: string, since: C.Time, shown: C.Time)
    requires Submits(s, n, base, since) && base != ""
    ensures Arrived(Appeared(s, n, base, shown), n, base)
  {
    PageFadesIn(s, n, base, shown);
  }

  // Ready for the actor's next message, and for everything after it.
  ghost predicate Ready(s: Sys) {
    && Inv(s) && LoadsInv(s) && !s.lost && !s.gone && R.WillRun(s.channel) && B.Live(s.browser)
    && s.attached && s.batch == [] && s.conn.requests == []
  }

  lemma {:induction false} ResolutionFlushes(s: Sys, base: string, now: C.Time)
    requires Ready(s) && s.conn.phase.Probing?
    ensures var s1 := Resolved(s, s.conn.phase.cycle, base, now); var n := s.conn.navigations + 1;
      && Ready(s1) && s1.conn.phase == C.Loading(base, n, s.conn.phase.since)
      && s1.channel.accepted == s.channel.accepted + [C.CancelProbe, C.Navigate(n, base)]
      && s1.channel.executed == s.channel.executed
  {
    var issued := Next(s, Act(C.InResolved(s.conn.phase.cycle, base, now)));
    ResolutionIssues(s, base, now);
    NextKeeps(s, Act(C.InResolved(s.conn.phase.cycle, base, now)));
    FlushDelivers(issued, now);
    FlushAccepts(issued, now);
  }

  lemma {:induction false} ReadySubmits(s: Sys, earlier: seq<C.Request>, n: nat, base: string)
    requires Ready(s) && s.conn.phase.Loading? && s.conn.phase.base == base && s.conn.phase.navigation == n
    requires s.channel.accepted == earlier + [C.Navigate(n, base)] && |s.channel.executed| <= |earlier|
    ensures Submits(Submitted(s), n, base, s.conn.phase.since)
  {
    PumpedHolds(s);
    PumpServes(s, R.Weight(s.channel));
    PumpKeepsLoads(s, R.Weight(s.channel));
    SubmittedIsLast(earlier, s, Submitted(s), n, base);
  }

  lemma {:induction false} SubmittedIsLast(earlier: seq<C.Request>, s: Sys, s1: Sys, n: nat, base: string)
    requires Served(s, s1) && LoadsInv(s1) && !s1.gone
    requires s1.channel.executed == earlier + [C.Navigate(n, base)] && |s.channel.executed| <= |earlier|
    ensures B.Live(s1.browser) && B.PaintingOf(s1.browser) == B.Awaiting(n, base) && ToldPage(s1.browser, n, base)
  {
    var ran := s1.channel.executed[|s.channel.executed|..];
    assert ran[|ran| - 1] == C.Navigate(n, base);
    assert Cites(ran);
    LiveAppend(earlier, C.Navigate(n, base));
  }

  lemma {:induction false} ReadyArrives(s: Sys, base: string, resolved: C.Time, shown: C.Time)
    requires Ready(s) && s.conn.phase.Probing? && base != ""
    ensures var n := s.conn.navigations + 1;
      var loading := Submitted(Resolved(s, s.conn.phase.cycle, base, resolved));
      && Submits(loading, n, base, s.conn.phase.since)
      && Arrived(Appeared(loading, n, base, shown), n, base)
  {
    var n := s.conn.navigations + 1;
    ResolutionFlushes(s, base, resolved);
    var s1 := Resolved(s, s.conn.phase.cycle, base, resolved);
    var earlier := s.channel.accepted + [C.CancelProbe];
    assert s1.channel.accepted == earlier + [C.Navigate(n, base)];
    ReadySubmits(s1, earlier, n, base);
    SubmittedArrives(Submitted(s1), n, base, s.conn.phase.since, shown);
  }

  lemma {:induction false} FlushedArrives(s: Sys, s1: Sys, base: string, resolved: C.Time, shown: C.Time)
    returns (loading: Sys, end: Sys)
    requires Ready(s1) && s1.conn == s.conn.(requests := []) && s.conn.phase.Probing? && base != ""
    ensures loading == Submitted(Resolved(s1, s.conn.phase.cycle, base, resolved))
    ensures end == Appeared(loading, s.conn.navigations + 1, base, shown)
    ensures Submits(loading, s.conn.navigations + 1, base, s.conn.phase.since) && Arrived(end, s.conn.navigations + 1, base)
  {
    ReadyArrives(s1, base, resolved, shown);
    loading := Submitted(Resolved(s1, s.conn.phase.cycle, base, resolved));
    end := Appeared(loading, s.conn.navigations + 1, base, shown);
  }

  // Some run leads here.
  ghost predicate Reachable(s: Sys) {
    exists url, saved, now, steps :: s == Run(Initial(url, saved, now), steps)
  }

  lemma {:induction false} ReachableReady(s: Sys, now: C.Time)
    requires Reachable(s) && !s.lost && !s.gone && R.WillRun(s.channel) && B.Live(s.browser)
    ensures var s1 := Flushed(Attached(s), now); Ready(s1) && s1.conn == s.conn.(requests := [])
  {
    var url, saved, start, steps :| s == Run(Initial(url, saved, start), steps);
    RunInv(url, saved, start, steps);
    RunFlush(url, saved, start, steps);
    RunLoads(url, saved, start, steps);
    FlushedHolds(s, now);
  }

  // From any reachable state in which nothing was lost, both gates are open, the
  // browser is live and the actor waits for a probe: if the probe resolves, then
  // flushing and the UI thread's own steps leave the spinner on and that page
  // submitted, and its load, its frame and the fade leave it loaded and painted
  // under the actor's navigation, with nothing of the connect screen left over it.
  lemma {:induction false} ProbedServerIsShown(s: Sys, now: C.Time, base: string, resolved: C.Time, shown: C.Time)
    returns (loading: Sys, end: Sys)
    requires Reachable(s) && !s.lost && !s.gone && R.WillRun(s.channel) && B.Live(s.browser) && s.conn.phase.Probing?
    requires base != ""
    ensures loading == Submitted(Resolved(Flushed(Attached(s), now), s.conn.phase.cycle, base, resolved))
    ensures end == Appeared(loading, s.conn.navigations + 1, base, shown)
    ensures Submits(loading, s.conn.navigations + 1, base, s.conn.phase.since) && Arrived(end, s.conn.navigations + 1, base)
  {
    ReachableReady(s, now);
    loading, end := FlushedArrives(s, Flushed(Attached(s), now), base, resolved, shown);
  }

  // ----- after the session -----

  lemma {:induction false} ClosedStep(s: Sys, step: Step)
    requires !s.channel.admitting
    ensures !Next(s, step).channel.admitting && Next(s, step).events == s.events
  {
    if ChannelStep(step).Some? {
      R.GateStep(s.channel, ChannelStep(step).value);
    }
  }

  // Once the session is revoked the browser reports nothing more to the actor, so in
  // every continuation only what was reported before can still be delivered.
  lemma {:induction false} RevokedReportsNothing(s: Sys, steps: seq<Step>)
    requires !s.channel.admitting
    ensures !Run(s, steps).channel.admitting && Run(s, steps).events == s.events
    decreases |steps|
  {
    if steps != [] {
      RevokedReportsNothing(s, steps[..|steps| - 1]);
      ClosedStep(Run(s, steps[..|steps| - 1]), steps[|steps| - 1]);
    }
  }
}
