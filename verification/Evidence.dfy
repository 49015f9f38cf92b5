// What a presented frame proves. The actor gives the screen to the web page
// only on evidence: the navigation was run, a page of its base finished loading
// while it was live, and a frame of it was presented, in that order. And
// an abandoned navigation can never produce that evidence again.
module Evidence {
  import opened Wrappers
  import opened Protocol
  import Urls
  import R = Readiness
  import C = Connection
  import A = ConnectionActor
  import B = Browser

  // Between `i` and `k` no other navigation ran and `n` was not abandoned.
  ghost predicate Quiet(log: seq<Mark>, i: int, k: int, n: nat) {
    forall m | i < m < k && 0 <= m < |log| && log[m].Ran? ::
      !log[m].request.Navigate? && log[m].request != C.Abandon(n)
  }

  predicate RanNavigate(log: seq<Mark>, i: int, n: nat, url: string) {
    0 <= i < |log| && log[i] == Ran(C.Navigate(n, url))
  }

  predicate FinishedPage(log: seq<Mark>, j: int, base: string) {
    0 <= j < |log| && log[j].Finished? && Urls.IsPageOf(base, log[j].url)
  }

  // `n` was navigated to `url` and is still the live navigation at `k`.
  ghost predicate NavigatedBy(log: seq<Mark>, k: int, n: nat, url: string) {
    exists i :: RanNavigate(log, i, n, url) && i < k && Quiet(log, i, k, n)
  }

  // And then a page of it finished loading.
  ghost predicate LoadedBy(log: seq<Mark>, k: int, n: nat, base: string) {
    exists i, j :: RanNavigate(log, i, n, base) && i < j < k && FinishedPage(log, j, base) && Quiet(log, i, k, n)
  }

  ghost predicate ShownAt(log: seq<Mark>, k: int, n: nat) {
    0 <= k < |log| && log[k] == Shown(n)
  }

  // Run, loaded while live, shown while live.
  ghost predicate Witnessed(log: seq<Mark>, k: int, n: nat) {
    ShownAt(log, k, n) && exists base :: LoadedBy(log, k, n, base)
  }

  // What the browser holds is backed by its history.
  ghost predicate Backed(b: B.Browser, log: seq<Mark>) {
    && (b.pending.Some? && b.pending.value.Page? ==>
          NavigatedBy(log, |log|, b.pending.value.navigation, b.pending.value.url))
    && PaintingBacked(B.PaintingOf(b), log)
  }

  ghost predicate PaintingBacked(painting: B.Painting, log: seq<Mark>) {
    && (painting.Awaiting? ==> NavigatedBy(log, |log|, painting.navigation, painting.base))
    && (painting.Loaded? ==> LoadedBy(log, |log|, painting.navigation, painting.base))
  }

  ghost predicate AllWitnessed(log: seq<Mark>) {
    forall k | 0 <= k < |log| && log[k].Shown? :: Witnessed(log, k, log[k].navigation)
  }

  ghost predicate EvidenceInv(s: Sys) {
    Backed(s.browser, s.log) && AllWitnessed(s.log)
  }

  // The actor believes only what was reported, and only shown frames are.
  ghost predicate BeliefInv(s: Sys) {
    && (forall e | e in s.events && e.FramePresented? :: Shown(e.navigation) in s.log)
    && (s.conn.phase.Retiring? || s.conn.phase.Connected? ==> Shown(s.conn.phase.navigation) in s.log)
  }

  // A mark that is not a new navigation and not `n`'s abandonment disturbs
  // nothing `n` has.
  predicate Harmless(mark: Mark, n: nat) {
    mark.Ran? ==> !mark.request.Navigate? && mark.request != C.Abandon(n)
  }

  lemma {:induction false} NavigatedGrows(log: seq<Mark>, mark: Mark, n: nat, url: string)
    requires NavigatedBy(log, |log|, n, url) && Harmless(mark, n)
    ensures NavigatedBy(log + [mark], |log| + 1, n, url)
  {
    var i :| RanNavigate(log, i, n, url) && i < |log| && Quiet(log, i, |log|, n);
    assert RanNavigate(log + [mark], i, n, url) && Quiet(log + [mark], i, |log| + 1, n);
  }

  lemma {:induction false} LoadedGrows(log: seq<Mark>, mark: Mark, n: nat, base: string)
    requires LoadedBy(log, |log|, n, base) && Harmless(mark, n)
    ensures LoadedBy(log + [mark], |log| + 1, n, base)
  {
    var i, j :| RanNavigate(log, i, n, base) && i < j < |log| && FinishedPage(log, j, base) && Quiet(log, i, |log|, n);
    var grown := log + [mark];
    assert RanNavigate(grown, i, n, base) && FinishedPage(grown, j, base) && Quiet(grown, i, |log| + 1, n);
  }

  lemma {:induction false} WitnessGrows(log: seq<Mark>, mark: Mark, k: int, n: nat)
    requires Witnessed(log, k, n)
    ensures Witnessed(log + [mark], k, n)
  {
    var base :| LoadedBy(log, k, n, base);
    var i, j :| RanNavigate(log, i, n, base) && i < j < k && FinishedPage(log, j, base) && Quiet(log, i, k, n);
    var grown := log + [mark];
    assert RanNavigate(grown, i, n, base) && FinishedPage(grown, j, base) && Quiet(grown, i, k, n);
    assert LoadedBy(grown, k, n, base);
  }

  lemma {:induction false} PromotedBy(log: seq<Mark>, n: nat, base: string, url: string)
    requires NavigatedBy(log, |log|, n, base) && Urls.IsPageOf(base, url)
    ensures LoadedBy(log + [Finished(url)], |log| + 1, n, base)
  {
    var i :| RanNavigate(log, i, n, base) && i < |log| && Quiet(log, i, |log|, n);
    var grown := log + [Finished(url)];
    assert RanNavigate(grown, i, n, base) && FinishedPage(grown, |log|, base) && Quiet(grown, i, |log| + 1, n);
  }

  lemma {:induction false} WitnessesGrow(log: seq<Mark>, mark: Mark)
    requires AllWitnessed(log)
    requires mark.Shown? ==> exists base :: LoadedBy(log, |log|, mark.navigation, base)
    ensures AllWitnessed(log + [mark])
  {
    var grown := log + [mark];
    forall k | 0 <= k < |grown| && grown[k].Shown?
      ensures Witnessed(grown, k, grown[k].navigation)
    {
      if k < |log| {
        WitnessGrows(log, mark, k, log[k].navigation);
      } else {
        var base :| LoadedBy(log, |log|, mark.navigation, base);
        var i, j :| RanNavigate(log, i, mark.navigation, base) && i < j < |log| && FinishedPage(log, j, base)
                    && Quiet(log, i, |log|, mark.navigation);
        assert RanNavigate(grown, i, mark.navigation, base) && FinishedPage(grown, j, base)
               && Quiet(grown, i, |log|, mark.navigation);
        assert LoadedBy(grown, |log|, mark.navigation, base);
      }
    }
  }

  // The same browser seen after one more harmless mark.
  lemma {:induction false} MarkKeeps(b: B.Browser, log: seq<Mark>, mark: Mark)
    requires Backed(b, log)
    requires b.pending.Some? && b.pending.value.Page? ==> Harmless(mark, b.pending.value.navigation)
    requires B.PaintingOf(b).Named().Some? ==> Harmless(mark, B.PaintingOf(b).Named().value)
    ensures Backed(b, log + [mark])
  {
    if b.pending.Some? && b.pending.value.Page? {
      NavigatedGrows(log, mark, b.pending.value.navigation, b.pending.value.url);
    }
    var painting := B.PaintingOf(b);
    if painting.Awaiting? {
      NavigatedGrows(log, mark, painting.navigation, painting.base);
    } else if painting.Loaded? {
      LoadedGrows(log, mark, painting.navigation, painting.base);
    }
  }

  // Submitting the deferred load moves its evidence to the painting.
  lemma {:induction false} DeliverKeeps(b: B.Browser, log: seq<Mark>, frame: bool)
    requires Backed(b, log)
    ensures Backed(B.Deliver(b, frame), log)
  {
  }

  lemma {:induction false} NavigateKeeps(b: B.Browser, log: seq<Mark>, n: nat, url: string, frame: bool)
    ensures Backed(B.Navigate(b, n, url, frame), log + [Ran(C.Navigate(n, url))])
  {
    var grown := log + [Ran(C.Navigate(n, url))];
    assert NavigatedBy(grown, |grown|, n, url) by {
      assert RanNavigate(grown, |log|, n, url) && Quiet(grown, |log|, |grown|, n);
    }
  }

  lemma {:induction false} AbandonKeeps(b: B.Browser, log: seq<Mark>, n: nat, frame: bool)
    requires Backed(b, log)
    ensures Backed(B.Abandon(b, n, frame), log + [Ran(C.Abandon(n))])
  {
    var cleared := B.AbandonDeferred(b.pending, n);
    var named := B.PaintingOf(b).Named() == Some(n);
    var quiet := B.Browser(
      if named && cleared.None? then Some(B.Blank) else cleared,
      b.created,
      if b.client.Some? && named then Some(b.client.value.(painting := B.Unnamed)) else b.client,
      b.probe, b.loads);
    MarkKeeps(quiet, log, Ran(C.Abandon(n)));
    DeliverKeeps(quiet, log + [Ran(C.Abandon(n))], frame);
  }

  lemma {:induction false} RequestKeeps(b: B.Browser, log: seq<Mark>, r: C.Request, frame: bool)
    requires Backed(b, log)
    ensures Backed(RunRequest(b, r, frame), log + [Ran(r)])
  {
    match r
    case Navigate(n, url) => NavigateKeeps(b, log, n, url, frame);
    case Abandon(n) => AbandonKeeps(b, log, n, frame);
    case Probe(cycle, _) => MarkKeeps(b.(probe := Some(cycle)), log, Ran(r));
    case CancelProbe => MarkKeeps(b.(probe := None), log, Ran(r));
  }

  lemma {:induction false} CallKeepsEvidence(s: Sys, frame: bool)
    requires EvidenceInv(s)
    ensures EvidenceInv(Next(s, UiCall(frame)))
  {
    var channel := R.Call(s.channel);
    if |channel.executed| != |s.channel.executed| {
      var request := s.channel.ui.callback;
      RequestKeeps(s.browser, s.log, request, frame);
      WitnessesGrow(s.log, Ran(request));
    }
  }

  lemma {:induction false} LoadEndKeepsEvidence(s: Sys, url: string)
    requires EvidenceInv(s) && s.browser.client.Some?
    ensures EvidenceInv(Next(s, LoadEnd(url)))
  {
    var painting := s.browser.client.value.painting;
    WitnessesGrow(s.log, Finished(url));
    MarkKeeps(s.browser, s.log, Finished(url));
    if painting.Awaiting? && Urls.IsPageOf(painting.base, url) {
      PromotedBy(s.log, painting.navigation, painting.base, url);
    }
  }

  lemma {:induction false} PaintKeepsEvidence(s: Sys, shown: bool)
    requires EvidenceInv(s)
    ensures EvidenceInv(Next(s, Paint(shown)))
  {
    var (browser, first) := B.Paint(s.browser, shown);
    if first.Some? {
      var painting := B.PaintingOf(s.browser);
      assert LoadedBy(s.log, |s.log|, painting.navigation, painting.base);
      WitnessesGrow(s.log, Shown(first.value));
      MarkKeeps(s.browser, s.log, Shown(first.value));
    }
  }

  lemma {:induction false} NextKeepsEvidence(s: Sys, step: Step)
    requires EvidenceInv(s)
    ensures EvidenceInv(Next(s, step))
  {
    if step.UiCall? {
      CallKeepsEvidence(s, step.frame);
    } else if step.LoadEnd? {
      if s.browser.client.Some? { LoadEndKeepsEvidence(s, step.url); }
    } else if step.Paint? {
      PaintKeepsEvidence(s, step.shown);
    } else if step.BrowserUp? {
      if s.browser.client.Some? {
        var up := s.browser.(client := Some(s.browser.client.value.(attached := true)));
        DeliverKeeps(up, s.log, step.frame);
      }
    } else {
      var s1 := Next(s, step);
      assert s1.log == s.log && s1.browser.pending == s.browser.pending;
      assert B.PaintingOf(s1.browser) == B.PaintingOf(s.browser) || B.PaintingOf(s1.browser).Unnamed?;
    }
  }

  // ----- the actor's beliefs -----

  // What one step does to the browser, and the marks it leaves.
  function BrowserNext(s: Sys, step: Step): B.Browser {
    match step
    case UiCall(frame) => if Runs(s) then RunRequest(s.browser, s.channel.ui.callback, frame) else s.browser
    case CreateClient => B.CreateClient(s.browser)
    case DropClient => B.DropClient(s.browser)
    case BrowserUp(frame) => B.AfterCreated(s.browser, s.channel.admitting, frame)
    case BrowserDown => B.BeforeClose(s.browser)
    case LoadEnd(url) => B.LoadEnd(s.browser, url)
    case Paint(shown) => B.Paint(s.browser, shown).0
    case _ => s.browser
  }

  function Marks(s: Sys, step: Step): seq<Mark> {
    match step
    case UiCall(frame) => if Runs(s) then [Ran(s.channel.ui.callback)] else []
    case LoadEnd(url) => if s.browser.client.Some? then [Finished(url)] else []
    case Paint(shown) =>
      var first := B.Paint(s.browser, shown).1;
      if first.Some? then [Shown(first.value)] else []
    case _ => []
  }

  lemma {:induction false} StepIs(s: Sys, step: Step)
    ensures Next(s, step).browser == BrowserNext(s, step)
    ensures Next(s, step).log == s.log + Marks(s, step)
  {
  }

  lemma {:induction false} HandLeavesExecuted(s: Sys, answer: A.Answer, now: C.Time)
    requires s.batch != []
    ensures Hand(s, answer, now).channel.executed == s.channel.executed
  {
  }

  lemma {:induction false} ExecutedNext(s: Sys, step: Step)
    ensures Next(s, step).channel.executed ==
            s.channel.executed + if step.UiCall? && Runs(s) then [s.channel.ui.callback] else []
  {
    if step.UiCall? {
      CallIs(s, step.frame);
    } else if step.HandOne? {
      if s.batch != [] {
        HandLeavesExecuted(s, step.answer, step.now);
      }
    } else if ChannelStep(step).Some? {
      QuietStep(s.channel, ChannelStep(step).value);
    } else {
      assert Next(s, step).channel == s.channel;
    }
  }

  lemma {:induction false} EventsNext(s: Sys, step: Step)
    ensures forall e | e in Next(s, step).events && e !in s.events && e.FramePresented? ::
      step.Paint? && Marks(s, step) == [Shown(e.navigation)]
  {
  }

  lemma {:induction false} OnlyMessagesMovePhase(s: Sys, step: Step)
    requires !step.Act? && !(step.HandOne? && s.batch != [])
    ensures Next(s, step).conn.phase == s.conn.phase
  {
  }

  lemma {:induction false} HandMovesPhase(s: Sys, answer: A.Answer, now: C.Time)
    requires s.batch != []
    ensures var phase := Hand(s, answer, now).conn.phase;
      phase == s.conn.phase || phase == C.Act(s.conn, FailureInput(s.batch[0], now)).phase
  {
  }

  lemma {:induction false} ActorNeverInvents(c: C.Conn, input: C.Input)
    ensures var next := C.Act(c, input).phase;
      next.Retiring? || next.Connected? ==>
        (next.Navigation() == c.phase.Navigation() && (c.phase.Retiring? || c.phase.Connected?))
        || (input.InPresented? && next.Navigation() == Some(input.navigation))
  {
  }

  lemma {:induction false} PhaseKeepsBelief(s: Sys, step: Step)
    requires BeliefInv(s)
    ensures var phase := Next(s, step).conn.phase;
      phase.Retiring? || phase.Connected? ==> Shown(phase.navigation) in s.log
  {
    if step.Act? {
      ActorNeverInvents(s.conn, step.input);
    } else if step.HandOne? && s.batch != [] {
      HandMovesPhase(s, step.answer, step.now);
      ActorNeverInvents(s.conn, FailureInput(s.batch[0], step.now));
    } else {
      OnlyMessagesMovePhase(s, step);
    }
  }

  lemma {:induction false} NextKeepsBelief(s: Sys, step: Step)
    requires BeliefInv(s)
    ensures BeliefInv(Next(s, step))
  {
    StepIs(s, step);
    EventsNext(s, step);
    PhaseKeepsBelief(s, step);
    forall e | e in Next(s, step).events && e.FramePresented?
      ensures Shown(e.navigation) in s.log + Marks(s, step)
    {
    }
  }

  lemma {:induction false} RunEvidence(url: string, saved: string, now: C.Time, steps: seq<Step>)
    ensures var s := Run(Initial(url, saved, now), steps); EvidenceInv(s) && BeliefInv(s)
    decreases |steps|
  {
    if steps != [] {
      var before := steps[..|steps| - 1];
      RunEvidence(url, saved, now, before);
      NextKeepsEvidence(Run(Initial(url, saved, now), before), steps[|steps| - 1]);
      NextKeepsBelief(Run(Initial(url, saved, now), before), steps[|steps| - 1]);
    }
  }

  // The connection screen retires for a navigation only on evidence.
  lemma {:induction false} RetiredOnEvidence(url: string, saved: string, now: C.Time, steps: seq<Step>)
    requires var phase := Run(Initial(url, saved, now), steps).conn.phase; phase.Retiring? || phase.Connected?
    ensures var s := Run(Initial(url, saved, now), steps);
      exists k :: Witnessed(s.log, k, s.conn.phase.navigation)
  {
    RunEvidence(url, saved, now, steps);
    var s := Run(Initial(url, saved, now), steps);
    var k :| 0 <= k < |s.log| && s.log[k] == Shown(s.conn.phase.navigation);
    assert Witnessed(s.log, k, s.conn.phase.navigation);
  }

  // ----- an abandoned navigation is over -----

  // The browser shows nothing of `n` and is not about to.
  predicate FreeOf(b: B.Browser, n: nat) {
    && B.PaintingOf(b).Named() != Some(n)
    && !(b.pending.Some? && b.pending.value.Page? && b.pending.value.navigation == n)
  }

  ghost predicate AbandonedInv(s: Sys) {
    forall n | C.Abandon(n) in s.channel.executed :: FreeOf(s.browser, n)
  }

  lemma {:induction false} AbandonFrees(b: B.Browser, n: nat, frame: bool)
    requires B.Agreed(b)
    ensures FreeOf(B.Abandon(b, n, frame), n)
  {
    B.AbandonClears(b, n, frame);
  }

  lemma {:induction false} OthersStayFree(b: B.Browser, n: nat, m: nat, url: string, frame: bool, shown: bool, active: bool)
    requires FreeOf(b, n)
    ensures m != n ==> FreeOf(B.Navigate(b, m, url, frame), n)
    ensures FreeOf(B.Abandon(b, m, frame), n)
    ensures FreeOf(B.LoadEnd(b, url), n) && FreeOf(B.Paint(b, shown).0, n) && B.Paint(b, shown).1 != Some(n)
    ensures FreeOf(B.AfterCreated(b, active, frame), n) && FreeOf(B.BeforeClose(b), n)
    ensures FreeOf(B.CreateClient(b), n) && FreeOf(B.DropClient(b), n)
  {
  }

  // A navigation is never run after its own abandonment.
  lemma {:induction false} NoNavigateAfterAbandon(s: Sys, n: nat)
    requires Inv(s) && C.Abandon(n) in s.channel.executed
    requires Runs(s)
    ensures s.channel.ui.callback.Navigate? ==> s.channel.ui.callback.navigation != n
  {
    var request := s.channel.ui.callback;
    var i :| 0 <= i < |s.channel.executed| && s.channel.executed[i] == C.Abandon(n);
    R.CallKeeps(s.channel);
    var executed := s.channel.executed + [request];
    assert executed <= s.channel.accepted;
    assert executed[i] == Issued(s)[i] && executed[|s.channel.executed|] == Issued(s)[|s.channel.executed|];
  }

  lemma {:induction false} RequestStaysFree(b: B.Browser, r: C.Request, frame: bool, n: nat)
    requires FreeOf(b, n) && (r.Navigate? ==> r.navigation != n)
    ensures FreeOf(RunRequest(b, r, frame), n)
  {
    var m := if C.CitesNavigation(r) then r.navigation else 0;
    OthersStayFree(b, n, m, if r.Navigate? then r.url else "", frame, false, false);
  }

  lemma {:induction false} StepStaysFree(s: Sys, step: Step, n: nat)
    requires Inv(s) && C.Abandon(n) in s.channel.executed && FreeOf(s.browser, n)
    ensures FreeOf(BrowserNext(s, step), n)
    ensures Shown(n) !in Marks(s, step)
  {
    if step.UiCall? {
      if Runs(s) {
        NoNavigateAfterAbandon(s, n);
        RequestStaysFree(s.browser, s.channel.ui.callback, step.frame, n);
      }
    } else {
      var url := if step.LoadEnd? then step.url else "";
      OthersStayFree(s.browser, n, 0, url, step.BrowserUp? && step.frame, step.Paint? && step.shown, s.channel.admitting);
    }
  }

  lemma {:induction false} NextKeepsAbandoned(s: Sys, step: Step)
    requires Inv(s) && AbandonedInv(s)
    ensures AbandonedInv(Next(s, step))
  {
    StepIs(s, step);
    ExecutedNext(s, step);
    forall n | C.Abandon(n) in Next(s, step).channel.executed
      ensures FreeOf(BrowserNext(s, step), n)
    {
      if C.Abandon(n) in s.channel.executed {
        StepStaysFree(s, step, n);
      } else {
        AbandonFrees(s.browser, n, step.frame);
      }
    }
  }

  lemma {:induction false} RunAbandoned(url: string, saved: string, now: C.Time, steps: seq<Step>)
    ensures AbandonedInv(Run(Initial(url, saved, now), steps))
    decreases |steps|
  {
    if steps != [] {
      var before := steps[..|steps| - 1];
      RunAbandoned(url, saved, now, before);
      RunInv(url, saved, now, before);
      NextKeepsAbandoned(Run(Initial(url, saved, now), before), steps[|steps| - 1]);
    }
  }

  // `n` was abandoned, and nothing of it was shown since `start`.
  ghost predicate Over(start: seq<Mark>, s: Sys, n: nat) {
    && C.Abandon(n) in s.channel.executed
    && start <= s.log
    && forall k | |start| <= k < |s.log| :: s.log[k] != Shown(n)
  }

  // Once Abandon n has run, no frame is ever charged to n again, however the
  // run goes on: the log gains no further Shown(n) and a frame painted now
  // witnesses something else or nothing.
  lemma {:induction false} AbandonedIsOver(url: string, saved: string, now: C.Time, steps: seq<Step>, more: seq<Step>, n: nat)
    requires C.Abandon(n) in Run(Initial(url, saved, now), steps).channel.executed
    ensures var s := Run(Initial(url, saved, now), steps); var s1 := Run(s, more);
      Over(s.log, s1, n) && B.Paint(s1.browser, true).1 != Some(n)
  {
    var s := Run(Initial(url, saved, now), steps);
    RunInv(url, saved, now, steps);
    RunAbandoned(url, saved, now, steps);
    StaysOver(s.log, s, more, n);
    OthersStayFree(Run(s, more).browser, n, 0, "", false, true, true);
  }

  lemma {:induction false} StaysOver(start: seq<Mark>, s: Sys, more: seq<Step>, n: nat)
    requires Inv(s) && Over(start, s, n) && FreeOf(s.browser, n)
    ensures var s1 := Run(s, more); Inv(s1) && Over(start, s1, n) && FreeOf(s1.browser, n)
    decreases |more|
  {
    if more != [] {
      var mid, step := Run(s, more[..|more| - 1]), more[|more| - 1];
      StaysOver(start, s, more[..|more| - 1], n);
      NextKeeps(mid, step);
      OneMoreStep(start, mid, step, n);
    }
  }

  lemma {:induction false} OneMoreStep(start: seq<Mark>, mid: Sys, step: Step, n: nat)
    requires Inv(mid) && Over(start, mid, n) && FreeOf(mid.browser, n)
    ensures Over(start, Next(mid, step), n) && FreeOf(Next(mid, step).browser, n)
  {
    StepIs(mid, step);
    ExecutedNext(mid, step);
    StepStaysFree(mid, step, n);
    NotShownAfter(start, mid.log, Marks(mid, step), n);
  }

  lemma {:induction false} NotShownAfter(start: seq<Mark>, log: seq<Mark>, marks: seq<Mark>, n: nat)
    requires start <= log && Shown(n) !in marks
    requires forall k | |start| <= k < |log| :: log[k] != Shown(n)
    ensures start <= log + marks && forall k | |start| <= k < |log + marks| :: (log + marks)[k] != Shown(n)
  {
  }
}
