// How often a presented frame is reported. A navigation's first frame is
// reported once, unless a page already shown is still deferred and is submitted
// again; the guard of that delivery is exact.
module Once {
  import opened Wrappers
  import opened Protocol
  import opened Evidence
  import Urls
  import R = Readiness
  import C = Connection
  import A = ConnectionActor
  import B = Browser

  ghost predicate NoRepeat(log: seq<Mark>) {
    forall i, j | 0 <= i < j < |log| && log[i].Shown? :: log[j] != log[i]
  }

  // What a step does when it forgets a presentation: the page already shown is
  // awaited anew.
  predicate Forgets(s: Sys, step: Step) {
    && B.PaintingOf(s.browser).Loaded? && B.PaintingOf(s.browser).presented
    && B.PaintingOf(Next(s, step).browser).Awaiting?
    && B.PaintingOf(Next(s, step).browser).navigation == B.PaintingOf(s.browser).navigation
  }

  // A page is still deferred although its navigation was loaded and shown.
  predicate ShownButDeferred(b: B.Browser) {
    B.PaintingOf(b).Loaded? && B.PaintingOf(b).presented && b.pending.Some?
  }

  // The guard, read before the step: such a page, and a step that submits what
  // is deferred without touching its navigation. It is a new browser with a main
  // frame in an active session, or another navigation's abandonment.
  predicate Redelivers(s: Sys, step: Step) {
    && ShownButDeferred(s.browser)
    && (|| (step == BrowserUp(true) && s.channel.admitting)
        || (step == UiCall(true) && Runs(s) && s.browser.client.value.attached && s.channel.ui.callback.Abandon?
            && s.channel.ui.callback.navigation != B.PaintingOf(s.browser).navigation))
  }

  predicate RedeliversAt(s: Sys, steps: seq<Step>, k: nat)
    requires k < |steps|
  {
    Redelivers(Run(s, steps[..k]), steps[k])
  }

  predicate NeverRedelivers(s: Sys, steps: seq<Step>) {
    forall k | 0 <= k < |steps| :: !RedeliversAt(s, steps, k)
  }

  // A shown navigation stays marked as shown, wherever the browser holds it.
  predicate StaysShown(b: B.Browser, n: nat) {
    && (B.PaintingOf(b).Named() == Some(n) ==> B.PaintingOf(b).Loaded? && B.PaintingOf(b).presented)
    && (b.client.Some? && b.pending.Some? && b.pending.value.Page? && b.pending.value.navigation == n ==>
          B.PaintingOf(b).Named() == Some(n))
  }

  ghost predicate OnceInv(s: Sys) {
    && NoRepeat(s.log)
    && (forall n | Shown(n) in s.log :: StaysShown(s.browser, n) && s.browser.created)
    && (forall n | Shown(n) in s.log :: exists url :: C.Navigate(n, url) in s.channel.executed)
  }

  lemma {:induction false} NoSecondNavigate(s: Sys, n: nat, url: string)
    requires Inv(s) && C.Navigate(n, url) in s.channel.executed
    requires Runs(s)
    ensures s.channel.ui.callback.Navigate? ==> s.channel.ui.callback.navigation != n
  {
    var request := s.channel.ui.callback;
    var i :| 0 <= i < |s.channel.executed| && s.channel.executed[i] == C.Navigate(n, url);
    R.CallKeeps(s.channel);
    var executed := s.channel.executed + [request];
    assert executed <= s.channel.accepted;
    assert executed[i] == Issued(s)[i] && executed[|s.channel.executed|] == Issued(s)[|s.channel.executed|];
  }

  predicate Reset(b: B.Browser, n: nat) {
    B.PaintingOf(b).Awaiting? && B.PaintingOf(b).navigation == n
  }

  lemma {:induction false} ShownStays(b: B.Browser, n: nat, m: nat, url: string, frame: bool, shown: bool, active: bool)
    requires B.Agreed(b) && StaysShown(b, n) && b.created
    ensures m != n ==> StaysShown(B.Navigate(b, m, url, frame), n)
    ensures StaysShown(B.LoadEnd(b, url), n)
    ensures StaysShown(B.Paint(b, shown).0, n) && B.Paint(b, shown).1 != Some(n)
    ensures StaysShown(B.BeforeClose(b), n) && StaysShown(B.CreateClient(b), n) && StaysShown(B.DropClient(b), n)
    ensures Reset(B.Abandon(b, m, frame), n) || StaysShown(B.Abandon(b, m, frame), n)
    ensures Reset(B.AfterCreated(b, active, frame), n) || StaysShown(B.AfterCreated(b, active, frame), n)
    ensures Reset(B.Abandon(b, m, frame), n) || Reset(B.AfterCreated(b, active, frame), n) ==>
              B.PaintingOf(b).Named() == Some(n)
    ensures B.Abandon(b, m, frame).created && B.Navigate(b, m, url, frame).created
  {
  }

  lemma {:induction false} EventForgets(s: Sys, step: Step)
    requires B.Agreed(s.browser) && B.PaintingOf(s.browser).Loaded? && B.PaintingOf(s.browser).presented
    requires !(step.UiCall? && Runs(s))
    ensures Reset(BrowserNext(s, step), B.PaintingOf(s.browser).navigation) <==>
            s.browser.pending.Some? && step == BrowserUp(true) && s.channel.admitting
  {
  }

  // The guard is exact, in every reachable state.
  lemma {:induction false} ForgetsExactlyOnRedelivery(s: Sys, step: Step)
    requires Inv(s) && EvidenceInv(s)
    ensures Forgets(s, step) <==> Redelivers(s, step)
  {
    StepIs(s, step);
    if B.PaintingOf(s.browser).Loaded? && B.PaintingOf(s.browser).presented {
      if step.UiCall? && Runs(s) {
        var n := B.PaintingOf(s.browser).navigation;
        WasNavigated(s, n);
        var url :| C.Navigate(n, url) in s.channel.executed;
        NoSecondNavigate(s, n, url);
        RequestForgets(s.browser, s.channel.ui.callback, step.frame);
      } else {
        EventForgets(s, step);
      }
    }
  }

  lemma {:induction false} RequestForgets(b: B.Browser, r: C.Request, frame: bool)
    requires B.Agreed(b) && B.PaintingOf(b).Loaded? && B.PaintingOf(b).presented
    requires r.Navigate? ==> r.navigation != B.PaintingOf(b).navigation
    ensures Reset(RunRequest(b, r, frame), B.PaintingOf(b).navigation) <==>
            b.pending.Some? && frame && b.client.value.attached && r.Abandon? && r.navigation != B.PaintingOf(b).navigation
  {
  }

  // In a bracketed log the request after a live navigation is its abandonment.
  lemma {:induction false} LiveIsAbandonedNext(log: seq<C.Request>, p: nat, n: nat)
    requires C.Bracketed(log) && p < |log| && NavigationIn(log[..p]) == Some(n)
    ensures log[p] == C.Abandon(n)
  {
    assert C.Bracketed(log[..p]);
    BracketedMeaning(log[..p]);
    assert p % 2 == 1;
    assert C.Closes(log[p - 1], log[p]);
  }

  // Without a lost delivery only the new browser is left of the guard.
  lemma {:induction false} LosslessRedelivery(s: Sys, step: Step)
    requires Inv(s) && !s.lost
    ensures Redelivers(s, step) <==> ShownButDeferred(s.browser) && step == BrowserUp(true) && s.channel.admitting
  {
    if Redelivers(s, step) && step.UiCall? {
      var request := s.channel.ui.callback;
      R.CallKeeps(s.channel);
      var executed, log := s.channel.executed + [request], Issued(s);
      assert executed <= s.channel.accepted;
      assert log[..|s.channel.executed|] == s.channel.executed && log[|s.channel.executed|] == request;
      LiveIsAbandonedNext(log, |s.channel.executed|, B.PaintingOf(s.browser).navigation);
      assert false;
    }
  }

  // A paint never shows what was shown before.
  lemma {:induction false} FirstIsNew(s: Sys, shown: bool)
    requires Inv(s) && OnceInv(s)
    ensures var first := B.Paint(s.browser, shown).1; first.Some? ==> Shown(first.value) !in s.log
  {
    var first := B.Paint(s.browser, shown).1;
    if first.Some? && Shown(first.value) in s.log {
      ShownStays(s.browser, first.value, 0, "", false, shown, true);
      assert false;
    }
  }

  lemma {:induction false} NoRepeatGrows(log: seq<Mark>, marks: seq<Mark>)
    requires NoRepeat(log) && |marks| <= 1
    requires marks != [] && marks[0].Shown? ==> marks[0] !in log
    ensures NoRepeat(log + marks)
  {
  }

  lemma {:induction false} OnceMarks(s: Sys, step: Step)
    requires Inv(s) && OnceInv(s) && EvidenceInv(s)
    ensures NoRepeat(s.log + Marks(s, step))
    ensures forall n: nat | Shown(n) in Marks(s, step) :: exists url :: C.Navigate(n, url) in s.channel.executed
  {
    if step.Paint? {
      FirstIsNew(s, step.shown);
      var first := B.Paint(s.browser, step.shown).1;
      if first.Some? {
        WasNavigated(s, first.value);
      }
    }
    NoRepeatGrows(s.log, Marks(s, step));
  }

  lemma {:induction false} RanInExecuted(log: seq<Mark>, i: int)
    requires 0 <= i < |log| && log[i].Ran?
    ensures log[i].request in RanIn(log)
  {
    if i < |log| - 1 {
      RanInExecuted(log[..|log| - 1], i);
    }
  }

  // What is shown was navigated to.
  lemma {:induction false} WasNavigated(s: Sys, n: nat)
    requires Inv(s) && EvidenceInv(s) && B.PaintingOf(s.browser).Loaded? && B.PaintingOf(s.browser).navigation == n
    ensures exists url :: C.Navigate(n, url) in s.channel.executed
  {
    var base := B.PaintingOf(s.browser).base;
    assert LoadedBy(s.log, |s.log|, n, base);
    var i, j :| RanNavigate(s.log, i, n, base) && i < j < |s.log| && FinishedPage(s.log, j, base) && Quiet(s.log, i, |s.log|, n);
    RanInExecuted(s.log, i);
  }

  lemma {:induction false} NextKeepsOnce(s: Sys, step: Step)
    requires Inv(s) && OnceInv(s) && EvidenceInv(s) && !Redelivers(s, step)
    ensures OnceInv(Next(s, step))
  {
    StepIs(s, step);
    ExecutedNext(s, step);
    OnceMarks(s, step);
    forall n: nat | Shown(n) in s.log + Marks(s, step)
      ensures StaysShown(BrowserNext(s, step), n) && BrowserNext(s, step).created
      ensures exists url :: C.Navigate(n, url) in Next(s, step).channel.executed
    {
      if Shown(n) in s.log {
        StepStaysShown(s, step, n);
      } else {
        NewlyShown(s.browser, step.shown, n);
      }
      var url :| C.Navigate(n, url) in s.channel.executed;
      assert C.Navigate(n, url) in Next(s, step).channel.executed;
    }
  }

  lemma {:induction false} NewlyShown(b: B.Browser, shown: bool, n: nat)
    requires B.Agreed(b) && B.Paint(b, shown).1 == Some(n)
    ensures StaysShown(B.Paint(b, shown).0, n) && B.Paint(b, shown).0.created
  {
  }

  lemma {:induction false} RequestStaysShown(b: B.Browser, r: C.Request, frame: bool, n: nat)
    requires B.Agreed(b) && StaysShown(b, n) && b.created && (r.Navigate? ==> r.navigation != n)
    ensures RunRequest(b, r, frame).created
    ensures StaysShown(RunRequest(b, r, frame), n)
            || (Reset(RunRequest(b, r, frame), n) && B.PaintingOf(b).Named() == Some(n))
  {
    var m := if C.CitesNavigation(r) then r.navigation else 0;
    ShownStays(b, n, m, if r.Navigate? then r.url else "", frame, false, false);
  }

  lemma {:induction false} StepStaysShown(s: Sys, step: Step, n: nat)
    requires Inv(s) && EvidenceInv(s) && OnceInv(s) && Shown(n) in s.log && !Redelivers(s, step)
    ensures StaysShown(BrowserNext(s, step), n) && BrowserNext(s, step).created
  {
    StepIs(s, step);
    ForgetsExactlyOnRedelivery(s, step);
    if step.UiCall? {
      if Runs(s) {
        var url :| C.Navigate(n, url) in s.channel.executed;
        NoSecondNavigate(s, n, url);
        RequestStaysShown(s.browser, s.channel.ui.callback, step.frame, n);
      }
    } else {
      var url := if step.LoadEnd? then step.url else "";
      ShownStays(s.browser, n, 0, url, step.BrowserUp? && step.frame, step.Paint? && step.shown, s.channel.admitting);
    }
  }

  lemma {:induction false} RunOnce(url: string, saved: string, now: C.Time, steps: seq<Step>)
    requires NeverRedelivers(Initial(url, saved, now), steps)
    ensures OnceInv(Run(Initial(url, saved, now), steps))
    decreases |steps|
  {
    if steps != [] {
      var s0, before := Initial(url, saved, now), steps[..|steps| - 1];
      PrefixNeverRedelivers(s0, steps, |steps| - 1);
      RunOnce(url, saved, now, before);
      RunInv(url, saved, now, before);
      RunEvidence(url, saved, now, before);
      assert !RedeliversAt(s0, steps, |steps| - 1);
      NextKeepsOnce(Run(s0, before), steps[|steps| - 1]);
    }
  }

  lemma {:induction false} PrefixNeverRedelivers(s: Sys, steps: seq<Step>, m: nat)
    requires NeverRedelivers(s, steps) && m <= |steps|
    ensures NeverRedelivers(s, steps[..m])
  {
    forall k | 0 <= k < m
      ensures !RedeliversAt(s, steps[..m], k)
    {
      assert steps[..m][..k] == steps[..k];
      assert !RedeliversAt(s, steps, k);
    }
  }

  // A navigation's first frame is reported at most once, in every run in which
  // no step meets the guard.
  lemma {:induction false} ReportedOnce(url: string, saved: string, now: C.Time, steps: seq<Step>)
    requires NeverRedelivers(Initial(url, saved, now), steps)
    ensures NoRepeat(Run(Initial(url, saved, now), steps).log)
  {
    RunOnce(url, saved, now, steps);
  }

  // ----- and only then -----

  // What is marked as presented was shown.
  ghost predicate PresentedInv(s: Sys) {
    B.PaintingOf(s.browser).Loaded? && B.PaintingOf(s.browser).presented ==>
      Shown(B.PaintingOf(s.browser).navigation) in s.log
  }

  lemma {:induction false} RequestNeverPresents(b: B.Browser, r: C.Request, frame: bool)
    ensures var p := B.PaintingOf(RunRequest(b, r, frame)); p.Loaded? && p.presented ==> p == B.PaintingOf(b)
  {
  }

  lemma {:induction false} NextKeepsPresented(s: Sys, step: Step)
    requires PresentedInv(s)
    ensures PresentedInv(Next(s, step))
  {
    StepIs(s, step);
    if step.UiCall? && Runs(s) {
      RequestNeverPresents(s.browser, s.channel.ui.callback, step.frame);
    } else if step.Paint? {
      var first := B.Paint(s.browser, step.shown).1;
      assert first.Some? ==> Shown(first.value) in Marks(s, step);
    } else {
      var p := B.PaintingOf(BrowserNext(s, step));
      assert p.Loaded? && p.presented ==> p == B.PaintingOf(s.browser);
    }
  }

  lemma {:induction false} RunPresented(url: string, saved: string, now: C.Time, steps: seq<Step>)
    ensures PresentedInv(Run(Initial(url, saved, now), steps))
    decreases |steps|
  {
    if steps != [] {
      RunPresented(url, saved, now, steps[..|steps| - 1]);
      NextKeepsPresented(Run(Initial(url, saved, now), steps[..|steps| - 1]), steps[|steps| - 1]);
    }
  }

  // The page still deferred is the one that was shown, under the URL whose page
  // loaded.
  lemma {:induction false} DeferredIsTheShownPage(s: Sys)
    requires Inv(s) && EvidenceInv(s) && ShownButDeferred(s.browser)
    ensures var painting := B.PaintingOf(s.browser);
      s.browser.pending == Some(B.Page(painting.navigation, painting.base)) && painting.base != ""
  {
    var painting, page := B.PaintingOf(s.browser), s.browser.pending.value;
    var n := painting.navigation;
    assert LoadedBy(s.log, |s.log|, n, painting.base);
    var i, j :| RanNavigate(s.log, i, n, painting.base) && i < j < |s.log| && FinishedPage(s.log, j, painting.base)
                && Quiet(s.log, i, |s.log|, n);
    assert NavigatedBy(s.log, |s.log|, n, page.url);
    var k :| RanNavigate(s.log, k, n, page.url) && k < |s.log| && Quiet(s.log, k, |s.log|, n);
    assert i == k;
  }

  lemma {:induction false} OwnPage(base: string)
    requires base != ""
    ensures Urls.IsPageOf(base, base)
  {
    assert base[..|base|] == base && base[|base|..] == "";
  }

  // A redelivered page need only load and paint again for its navigation to be
  // shown a second time.
  lemma {:induction false} RedeliveryShowsAgain(s: Sys, step: Step)
    requires Inv(s) && EvidenceInv(s) && Redelivers(s, step)
    ensures var n, base := B.PaintingOf(s.browser).navigation, B.PaintingOf(s.browser).base;
      var s2 := Next(Next(s, step), LoadEnd(base));
      s.log <= s2.log && Next(s2, Paint(true)).log == s2.log + [Shown(n)]
  {
    var n, base := B.PaintingOf(s.browser).navigation, B.PaintingOf(s.browser).base;
    DeferredIsTheShownPage(s);
    StepIs(s, step);
    RedeliveredPage(s, step);
    AwaitedShows(Next(s, step), n, base);
  }

  lemma {:induction false} AwaitedShows(s: Sys, n: nat, base: string)
    requires B.PaintingOf(s.browser) == B.Awaiting(n, base) && base != ""
    ensures var s2 := Next(s, LoadEnd(base));
      s.log <= s2.log && Next(s2, Paint(true)).log == s2.log + [Shown(n)]
  {
    var s2 := Next(s, LoadEnd(base));
    OwnPage(base);
    StepIs(s, LoadEnd(base));
    assert B.PaintingOf(s2.browser) == B.Loaded(n, base, false);
    StepIs(s2, Paint(true));
  }

  lemma {:induction false} RedeliveredPage(s: Sys, step: Step)
    requires Redelivers(s, step) && s.browser.pending.value.Page?
    requires s.browser.pending.value.navigation == B.PaintingOf(s.browser).navigation
    ensures B.PaintingOf(BrowserNext(s, step)) == B.Awaiting(s.browser.pending.value.navigation, s.browser.pending.value.url)
  {
  }

  lemma {:induction false} RunSnoc(s: Sys, steps: seq<Step>, step: Step, all: seq<Step>)
    requires all == steps + [step]
    ensures Run(s, all) == Next(Run(s, steps), step)
  {
    assert all[..|all| - 1] == steps && all[|all| - 1] == step;
  }

  // The continuation that tells: the page at `url` loads and paints.
  function Reload(url: string): seq<Step> {
    [LoadEnd(url), Paint(true)]
  }

  lemma {:induction false} RunReload(s: Sys, steps: seq<Step>, url: string)
    ensures Run(s, steps + Reload(url)) == Next(Next(Run(s, steps), LoadEnd(url)), Paint(true))
  {
    RunSnoc(s, steps, LoadEnd(url), steps + [LoadEnd(url)]);
    RunSnoc(s, steps + [LoadEnd(url)], Paint(true), steps + Reload(url));
  }

  lemma {:induction false} RepeatsNow(log: seq<Mark>, n: nat)
    requires Shown(n) in log
    ensures !NoRepeat(log + [Shown(n)])
  {
    var i :| 0 <= i < |log| && log[i] == Shown(n);
    assert (log + [Shown(n)])[i] == (log + [Shown(n)])[|log|] == Shown(n);
  }

  lemma {:induction false} Reachable(url: string, saved: string, now: C.Time, steps: seq<Step>)
    ensures var s := Run(Initial(url, saved, now), steps); Inv(s) && EvidenceInv(s) && PresentedInv(s)
  {
    RunInv(url, saved, now, steps);
    RunEvidence(url, saved, now, steps);
    RunPresented(url, saved, now, steps);
  }

  lemma {:induction false} RedeliveryBreaks(url: string, saved: string, now: C.Time, steps: seq<Step>, k: nat)
    requires k < |steps| && RedeliversAt(Initial(url, saved, now), steps, k)
    ensures exists page :: !NoRepeat(Run(Initial(url, saved, now), steps[..k + 1] + Reload(page)).log)
  {
    var s := Run(Initial(url, saved, now), steps[..k]);
    Reachable(url, saved, now, steps[..k]);
    RedeliveryRepeats(s, steps[k]);
    ReloadedRun(Initial(url, saved, now), steps, k, s, B.PaintingOf(s.browser).base);
  }

  lemma {:induction false} ReloadedRun(s0: Sys, steps: seq<Step>, k: nat, s: Sys, page: string)
    requires k < |steps| && Run(s0, steps[..k]) == s
    ensures Run(s0, steps[..k + 1] + Reload(page)) == Next(Next(Next(s, steps[k]), LoadEnd(page)), Paint(true))
  {
    RunStep(s0, steps, k, s, Next(s, steps[k]));
    RunReload(s0, steps[..k + 1], page);
  }

  lemma {:induction false} RedeliveryRepeats(s: Sys, step: Step)
    requires Inv(s) && EvidenceInv(s) && PresentedInv(s) && Redelivers(s, step)
    ensures !NoRepeat(Next(Next(Next(s, step), LoadEnd(B.PaintingOf(s.browser).base)), Paint(true)).log)
  {
    RedeliveryShowsAgain(s, step);
    RepeatsNow(Next(Next(s, step), LoadEnd(B.PaintingOf(s.browser).base)).log, B.PaintingOf(s.browser).navigation);
  }

  lemma {:induction false} ReloadNeverRedelivers(s: Sys, steps: seq<Step>, page: string)
    requires NeverRedelivers(s, steps)
    ensures NeverRedelivers(s, steps + Reload(page))
  {
    var all := steps + Reload(page);
    forall k | 0 <= k < |all|
      ensures !RedeliversAt(s, all, k)
    {
      if k < |steps| {
        assert all[..k] == steps[..k];
        assert !RedeliversAt(s, steps, k);
      }
    }
  }

  // Exactly the runs in which a step meets the guard are those from some point of
  // which one page need only load and paint for a navigation to be shown twice.
  lemma {:induction false} RepeatsExactlyOnRedelivery(url: string, saved: string, now: C.Time, steps: seq<Step>)
    ensures !NeverRedelivers(Initial(url, saved, now), steps) <==>
            exists k, page | 0 <= k <= |steps| :: !NoRepeat(Run(Initial(url, saved, now), steps[..k] + Reload(page)).log)
  {
    var s0 := Initial(url, saved, now);
    if !NeverRedelivers(s0, steps) {
      var k :| 0 <= k < |steps| && RedeliversAt(s0, steps, k);
      RedeliveryBreaks(url, saved, now, steps, k);
    } else {
      forall k, page | 0 <= k <= |steps|
        ensures NoRepeat(Run(s0, steps[..k] + Reload(page)).log)
      {
        PrefixNeverRedelivers(s0, steps, k);
        ReloadNeverRedelivers(s0, steps[..k], page);
        ReportedOnce(url, saved, now, steps[..k] + Reload(page));
      }
    }
  }

  // In every run without a lost delivery the guard is one event alone: a browser
  // with a main frame comes up while the page shown before is still deferred.
  lemma {:induction false} LosslessGuard(url: string, saved: string, now: C.Time, steps: seq<Step>, step: Step)
    requires !Run(Initial(url, saved, now), steps).lost
    ensures var s := Run(Initial(url, saved, now), steps);
      Forgets(s, step) <==> ShownButDeferred(s.browser) && step == BrowserUp(true) && s.channel.admitting
  {
    RunInv(url, saved, now, steps);
    RunEvidence(url, saved, now, steps);
    ForgetsExactlyOnRedelivery(Run(Initial(url, saved, now), steps), step);
    LosslessRedelivery(Run(Initial(url, saved, now), steps), step);
  }

  // ----- such a run -----

  const OK := A.Answer(false, true)
  const REQUESTS: seq<C.Request> := [C.Probe(1, "b"), C.CancelProbe, C.Navigate(1, "b")]

  // The page is deferred for want of a main frame, its document loads and is
  // shown, the browser goes and a second one is handed the page again.
  const TWICE: seq<Step> := [
    Attach, HandOne(OK, 0), Act(C.InResolved(1, "b", 0)), HandOne(OK, 0), HandOne(OK, 0),
    CreateClient, BrowserUp(false), PostReady(true), UiBegin,
    UiCheck, UiCall(false), UiCheck, UiCall(false), UiCheck, UiCall(false),
    LoadEnd("b"), Paint(true), BrowserDown, BrowserUp(true), LoadEnd("b"), Paint(true)]

  lemma {:induction false} PathIsRun(at: nat -> Sys, steps: seq<Step>, k: nat)
    requires k <= |steps| && forall j: nat | j < |steps| :: Next(at(j), steps[j]) == at(j + 1)
    ensures Run(at(0), steps[..k]) == at(k)
    decreases k
  {
    if k > 0 {
      PathIsRun(at, steps, k - 1);
      assert Next(at(k - 1), steps[k - 1]) == at(k);
      RunStep(at(0), steps, k - 1, at(k - 1), at(k));
    }
  }

  lemma {:induction false} RunStep(s0: Sys, steps: seq<Step>, k: nat, s: Sys, s1: Sys)
    requires k < |steps| && Run(s0, steps[..k]) == s && Next(s, steps[k]) == s1
    ensures Run(s0, steps[..k + 1]) == s1
  {
    var upTo := steps[..k + 1];
    assert upTo[..k] == steps[..k] && upTo[k] == steps[k];
  }

  const WAITING := C.Conn(C.Probing("b", 1, 0, false), 1, 0, [], "", [])
  const LOADING := C.Conn(C.Loading("b", 1, 0), 2, 1, [], "b", ["b"])

  // The states on the way, by the steps taken: the flush, readiness, the UI
  // thread's three requests, and the browser's own events.
  function At(k: nat): Sys {
    if k <= 4 then Flushing(k) else if k <= 8 then Readying(k) else if k <= 15 then Running(k - 9) else Showing(k - 15)
  }

  function Held(n: nat): R.Queue<C.Request>
    requires n <= 3
  {
    R.Queue(R.Pending(REQUESTS[..n]), true, [], R.Idle, REQUESTS[..n], [])
  }

  function Flushing(k: nat): Sys {
    var (conn, batch, n) :=
      if k == 0 then (WAITING.(requests := REQUESTS[..1]), [], 0)
      else if k == 1 then (WAITING, REQUESTS[..1], 0)
      else if k == 2 then (WAITING, [], 1)
      else if k == 3 then (LOADING, REQUESTS[1..], 1)
      else (LOADING, REQUESTS[2..], 2);
    Sys(conn, k > 0, batch, false, Held(n), B.Initial(), false, [], [])
  }

  function Behind(channel: R.Queue<C.Request>, browser: B.Browser, events: seq<Event>, log: seq<Mark>): Sys {
    Sys(LOADING, true, [], false, channel, browser, false, events, log)
  }

  function Live(painting: B.Painting, attached: bool, pending: Option<B.Load>, probe: Option<nat>): B.Browser {
    B.Browser(pending, true, Some(B.Client(painting, attached)), probe, [])
  }

  function Readying(k: nat): Sys {
    var browser := if k == 5 then B.Initial() else Live(B.Unnamed, k > 6, None, None);
    Behind(if k == 8 then Held(3).(tasks := [R.MarkReady]) else Held(3), browser, [], [])
  }

  function Ready(ui: R.Ui<C.Request>, n: nat): R.Queue<C.Request>
    requires n <= 3
  {
    R.Queue(R.Ready, true, [], ui, REQUESTS, REQUESTS[..n])
  }

  function RanUpTo(n: nat): seq<Mark>
    requires n <= 3
  {
    [Ran(C.Probe(1, "b")), Ran(C.CancelProbe), Ran(C.Navigate(1, "b"))][..n]
  }

  function BrowserAfter(n: nat): B.Browser {
    if n == 0 then Live(B.Unnamed, true, None, None)
    else if n == 1 then Live(B.Unnamed, true, None, Some(1))
    else if n == 2 then Live(B.Unnamed, true, None, None)
    else Live(B.Awaiting(1, "b"), true, Some(B.Page(1, "b")), None)
  }

  function Running(k: nat): Sys
    requires k <= 6
  {
    var n := k / 2;
    var ui := if k % 2 == 0 then R.Draining(REQUESTS[n..]) else R.Checked(REQUESTS[n], REQUESTS[n + 1..]);
    Behind(Ready(ui, n), BrowserAfter(n), [], RanUpTo(n))
  }

  function Showing(k: nat): Sys {
    var loaded := B.Loaded(1, "b", k != 1 && k != 5);
    var browser :=
      if k <= 3 then Live(loaded, k < 3, Some(B.Page(1, "b")), None)
      else if k == 4 then Live(B.Awaiting(1, "b"), true, None, None).(loads := [B.Page(1, "b")])
      else Live(loaded, true, None, None).(loads := [B.Page(1, "b")]);
    var event := FramePresented(1);
    var marks := if k == 1 then 4 else if k <= 4 then 5 else if k == 5 then 6 else 7;
    Behind(Ready(R.Draining([]), 3), browser, if k == 1 then [] else if k <= 5 then [event] else [event, event], Told(marks))
  }

  lemma {:induction false} StartsAt()
    ensures Initial("b", "", 0) == At(0)
  {
    assert !Urls.IsBlank("b") by {
      assert !Urls.IsWhitespace("b"[0]);
    }
    assert [] + [C.Probe(1, "b")] == REQUESTS[..1] && REQUESTS[..0] == [];
  }

  lemma {:induction false} AttachesAt0()
    ensures Next(At(0), Attach) == At(1)
  {
  }

  lemma {:induction false} HandsOverAt(k: nat, n: nat)
    requires (k == 1 && n == 0) || (k == 3 && n == 1) || (k == 4 && n == 2)
    ensures Next(At(k), HandOne(OK, 0)) == At(k + 1)
  {
    assert REQUESTS[..n] + [REQUESTS[n]] == REQUESTS[..n + 1] && REQUESTS[..1][1..] == [] == REQUESTS[3..];
    assert n < 2 ==> REQUESTS[n + 1..][1..] == REQUESTS[n + 2..];
    assert REQUESTS[2..][1..] == [] && REQUESTS[1..][1..] == REQUESTS[2..];
  }

  lemma {:induction false} ResolvesAt2()
    ensures Next(At(2), Act(C.InResolved(1, "b", 0))) == At(3)
  {
    assert [] + [C.CancelProbe] + [C.Navigate(1, "b")] == REQUESTS[1..];
    assert [] + ["b"] == ["b"];
  }

  lemma {:induction false} ComesUpAt5()
    ensures Next(Readying(5), CreateClient) == Readying(6) && Next(Readying(6), BrowserUp(false)) == Readying(7)
  {
  }

  lemma {:induction false} PostsAt7()
    ensures Next(Readying(7), PostReady(true)) == Readying(8)
  {
  }

  lemma {:induction false} BeginsAt8()
    ensures Next(Readying(8), UiBegin) == Running(0)
  {
    assert REQUESTS[..3] == REQUESTS == REQUESTS[0..] && REQUESTS[..0] == [];
  }

  lemma {:induction false} ChecksAt(n: nat)
    requires n < 3
    ensures Next(Running(2 * n), UiCheck) == Running(2 * n + 1)
  {
    assert REQUESTS[n..][0] == REQUESTS[n] && REQUESTS[n..][1..] == REQUESTS[n + 1..];
  }

  lemma {:induction false} RanJoins(n: nat)
    requires n < 3
    ensures REQUESTS[..n] + [REQUESTS[n]] == REQUESTS[..n + 1]
    ensures RanUpTo(n) + [Ran(REQUESTS[n])] == RanUpTo(n + 1)
  {
  }

  lemma {:induction false} CallsAt(n: nat)
    requires n < 3
    ensures Next(Running(2 * n + 1), UiCall(false)) == Running(2 * n + 2)
  {
    RanJoins(n);
  }

  // What is shown on the way, twice over.
  function Told(marks: nat): seq<Mark>
    requires marks <= 7
  {
    (RanUpTo(3) + [Finished("b"), Shown(1), Finished("b"), Shown(1)])[..marks]
  }

  lemma {:induction false} Tells(marks: nat)
    requires 4 <= marks < 7
    ensures Told(marks + 1) == Told(marks) + [if marks == 5 then Finished("b") else Shown(1)]
  {
  }

  lemma {:induction false} PaintsAt16()
    ensures Next(Showing(1), Paint(true)) == Showing(2)
  {
    Tells(4);
    assert [] + [FramePresented(1)] == [FramePresented(1)];
  }

  lemma {:induction false} GoesAt17()
    ensures Next(Showing(2), BrowserDown) == Showing(3)
  {
  }

  lemma {:induction false} ReturnsAt18()
    ensures Next(Showing(3), BrowserUp(true)) == Showing(4)
  {
  }

  lemma {:induction false} LoadsAt19()
    ensures Next(Showing(4), LoadEnd("b")) == Showing(5)
  {
    OwnPage("b");
    Tells(5);
  }

  lemma {:induction false} PaintsAt20()
    ensures Next(Showing(5), Paint(true)) == Showing(6)
  {
    Tells(6);
    assert [FramePresented(1)] + [FramePresented(1)] == [FramePresented(1), FramePresented(1)];
  }

  lemma {:induction false} LoadsAt15()
    ensures Next(Running(6), LoadEnd("b")) == Showing(1)
  {
    OwnPage("b");
    assert REQUESTS[3..] == [];
    assert RanUpTo(3) + [Finished("b")] == Told(4);
  }

  lemma {:induction false} FirstFlushAt(k: nat)
    requires k <= 1
    ensures Next(At(k), TWICE[k]) == At(k + 1)
  {
    if k == 0 {
      AttachesAt0();
    } else {
      HandsOverAt(1, 0);
    }
  }

  lemma {:induction false} ResolveStepAt(k: nat)
    requires k == 2
    ensures Next(At(k), TWICE[k]) == At(k + 1)
  {
    ResolvesAt2();
  }

  lemma {:induction false} SecondFlushAt(k: nat)
    requires 3 <= k <= 4
    ensures Next(At(k), TWICE[k]) == At(k + 1)
  {
    if k == 3 {
      HandsOverAt(3, 1);
    } else {
      HandsOverAt(4, 2);
    }
  }

  lemma {:induction false} ComeUpStepAt(k: nat)
    requires 5 <= k <= 6
    ensures Next(At(k), TWICE[k]) == At(k + 1)
  {
    ComesUpAt5();
  }

  lemma {:induction false} BeginStepAt(k: nat)
    requires 7 <= k <= 8
    ensures Next(At(k), TWICE[k]) == At(k + 1)
  {
    if k == 7 {
      PostsAt7();
    } else {
      BeginsAt8();
    }
  }

  lemma {:induction false} CheckProbeAt(k: nat)
    requires k == 9
    ensures Next(At(k), TWICE[k]) == At(k + 1)
  {
    ChecksAt(0);
  }

  lemma {:induction false} CallProbeAt(k: nat)
    requires k == 10
    ensures Next(At(k), TWICE[k]) == At(k + 1)
  {
    CallsAt(0);
  }

  lemma {:induction false} CheckCancelAt(k: nat)
    requires k == 11
    ensures Next(At(k), TWICE[k]) == At(k + 1)
  {
    ChecksAt(1);
  }

  lemma {:induction false} CallCancelAt(k: nat)
    requires k == 12
    ensures Next(At(k), TWICE[k]) == At(k + 1)
  {
    CallsAt(1);
  }

  lemma {:induction false} CheckNavigateAt(k: nat)
    requires k == 13
    ensures Next(At(k), TWICE[k]) == At(k + 1)
  {
    ChecksAt(2);
  }

  lemma {:induction false} CallNavigateAt(k: nat)
    requires k == 14
    ensures Next(At(k), TWICE[k]) == At(k + 1)
  {
    CallsAt(2);
  }

  lemma {:induction false} ShowStepAt(k: nat)
    requires 15 <= k <= 16
    ensures Next(At(k), TWICE[k]) == At(k + 1)
  {
    if k == 15 {
      LoadsAt15();
    } else {
      PaintsAt16();
    }
  }

  lemma {:induction false} ReturnStepAt(k: nat)
    requires 17 <= k <= 18
    ensures Next(At(k), TWICE[k]) == At(k + 1)
  {
    if k == 17 {
      GoesAt17();
    } else {
      ReturnsAt18();
    }
  }

  lemma {:induction false} ShowAgainAt(k: nat)
    requires 19 <= k <= 20
    ensures Next(At(k), TWICE[k]) == At(k + 1)
  {
    if k == 19 {
      LoadsAt19();
    } else {
      PaintsAt20();
    }
  }

  lemma {:induction false} StepAt(k: nat)
    requires k < |TWICE|
    ensures Next(At(k), TWICE[k]) == At(k + 1)
  {
    if k <= 1 {
      FirstFlushAt(k);
    } else if k == 2 {
      ResolveStepAt(k);
    } else if k <= 4 {
      SecondFlushAt(k);
    } else if k <= 6 {
      ComeUpStepAt(k);
    } else if k <= 8 {
      BeginStepAt(k);
    } else if k == 9 {
      CheckProbeAt(k);
    } else if k == 10 {
      CallProbeAt(k);
    } else if k == 11 {
      CheckCancelAt(k);
    } else if k == 12 {
      CallCancelAt(k);
    } else if k == 13 {
      CheckNavigateAt(k);
    } else if k == 14 {
      CallNavigateAt(k);
    } else if k <= 16 {
      ShowStepAt(k);
    } else if k <= 18 {
      ReturnStepAt(k);
    } else {
      ShowAgainAt(k);
    }
  }

  lemma {:induction false} TwiceIsRun(k: nat)
    requires k <= |TWICE|
    ensures Run(Initial("b", "", 0), TWICE[..k]) == At(k)
  {
    StartsAt();
    forall j: nat | j < |TWICE|
      ensures Next(At(j), TWICE[j]) == At(j + 1)
    {
      StepAt(j);
    }
    PathIsRun(At, TWICE, k);
  }

  // A run from the first state, every request delivered, that reports one
  // navigation twice.
  lemma {:induction false} TwiceIsReachable()
    ensures var s := Run(Initial("b", "", 0), TWICE); !s.lost && !s.gone && !NoRepeat(s.log)
    ensures RedeliversAt(Initial("b", "", 0), TWICE, 18)
  {
    TwiceIsRun(18);
    TwiceIsRun(21);
    assert TWICE[..21] == TWICE;
    assert At(21).log[4] == Shown(1) == At(21).log[6];
  }
}
