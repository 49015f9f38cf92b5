// The web overlay's keyboard focus: two reports, the belief they imply, and the
// browser it is handed to, which comes and goes on another thread.
module WebFocus {
  import opened Wrappers

  datatype Focus = Focus(window: bool, modalOpen: bool, published: Option<bool>)

  datatype Report = Window(focused: bool) | Modal(open: bool) | BecameLive

  function Seed(): Focus {
    Focus(true, false, None)
  }

  function Apply(f: Focus, report: Report): Focus {
    match report
    case Window(focused) => f.(window := focused)
    case Modal(open) => f.(modalOpen := open)
    case BecameLive => f.(published := None)
  }

  // What the two reports imply.
  function Belief(f: Focus): bool {
    f.window && !f.modalOpen
  }

  // The browser behind the sink and the focus it was last told. It is announced
  // once its created callback has reported it live; one created under a closed
  // session never is.
  datatype Announcement = Due | Never | Made

  datatype Browser = Browser(held: Option<bool>, announcement: Announcement)

  // The report holding the lock, between its atomic steps.
  datatype Stage =
    | Idle
    | Applied(announcing: bool)
    | Differs(belief: bool, announcing: bool)
    | Alive(belief: bool, announcing: bool)
    | HandedOver(belief: bool, announcing: bool)

  // `handed` is a history: every `set_focus` since the last browser was
  // announced.
  datatype Sys = Sys(focus: Focus, browser: Option<Browser>, session: bool, stage: Stage, handed: seq<bool>)

  datatype Step =
    | Begin(report: Report)
    | Continue
    | Create
    | Destroy
    | Revoke

  function Initial(): Sys {
    Sys(Seed(), None, true, Idle, [])
  }

  // The sink is reached through the session's dispatch.
  predicate LiveSink(s: Sys) {
    s.session && s.browser.Some?
  }

  // The end of a report; the created callback returns with it.
  function Release(s: Sys, announcing: bool): Sys {
    s.(stage := Idle, browser := if announcing && s.browser.Some? then Some(s.browser.value.(announcement := Made)) else s.browser)
  }

  // Only the created callback reports a browser live, once.
  predicate MayBegin(s: Sys, report: Report) {
    s.stage.Idle? && (report.BecameLive? ==> s.browser.Some? && s.browser.value.announcement.Due?)
  }

  function Start(s: Sys, report: Report): Sys {
    s.(focus := Apply(s.focus, report), stage := Applied(report.BecameLive?),
    handed := if report.BecameLive? then [] else s.handed)
  }

  function Advance(s: Sys): Sys {
    match s.stage
    case Idle => s
    case Applied(announcing) =>
      var belief := Belief(s.focus);
      if s.focus.published == Some(belief) then Release(s, announcing) else s.(stage := Differs(belief, announcing))
    case Differs(belief, announcing) =>
      if LiveSink(s) then s.(stage := Alive(belief, announcing)) else Release(s, announcing)
    case Alive(belief, announcing) =>
      s.(stage := HandedOver(belief, announcing), handed := s.handed + [belief],
      browser := if LiveSink(s) then Some(s.browser.value.(held := Some(belief))) else s.browser)
    case HandedOver(belief, announcing) => Release(s.(focus := s.focus.(published := Some(belief))), announcing)
  }

  // The created callback runs on the thread that creates and destroys browsers.
  function Next(s: Sys, step: Step): Sys {
    match step
    case Begin(report) => if MayBegin(s, report) then Start(s, report) else s
    case Continue => Advance(s)
    case Create =>
      if s.browser.None? then s.(browser := Some(Browser(None, if s.session then Due else Never))) else s
    case Destroy =>
      if s.browser.Some? && !s.browser.value.announcement.Due? then s.(browser := None) else s
    case Revoke => s.(session := false)
  }

  function Run(s: Sys, steps: seq<Step>): Sys
    decreases |steps|
  {
    if steps == [] then s else Next(Run(s, steps[..|steps| - 1]), steps[|steps| - 1])
  }

  // ----- invariant -----

  predicate Announcing(s: Sys) {
    !s.stage.Idle? && s.stage.announcing
  }

  // A live sink that was told something holds what is published, but while the
  // hand-over is being recorded or its own announcement is under way.
  predicate HeldInv(s: Sys) {
    LiveSink(s) ==>
      var b := s.browser.value;
      && (b.held.Some? && !s.stage.HandedOver? && !Announcing(s) ==> s.focus.published == b.held)
      && (b.held.Some? && s.stage.HandedOver? ==> b.held == Some(s.stage.belief))
      && (s.stage.HandedOver? && (b.announcement.Made? || s.stage.announcing) ==> b.held == Some(s.stage.belief))
      && (b.announcement.Made? ==> b.held.Some?)
      && !b.announcement.Never?
  }

  predicate StageInv(s: Sys) {
    && (Announcing(s) ==> s.browser.Some? && s.browser.value.announcement.Due? && s.focus.published == None)
    && (s.stage.Differs? || s.stage.Alive? || s.stage.HandedOver? ==>
          s.stage.belief == Belief(s.focus) && s.focus.published != Some(s.stage.belief))
    && (s.stage.Idle? && LiveSink(s) && s.browser.value.announcement.Made? ==>
          s.focus.published == Some(Belief(s.focus)))
  }

  ghost predicate HandedInv(s: Sys) {
    && (forall k | 1 <= k < |s.handed| :: s.handed[k] != s.handed[k - 1])
    && (s.stage.HandedOver? ==> s.handed != [] && s.handed[|s.handed| - 1] == s.stage.belief)
    && (!s.stage.HandedOver? && s.handed != [] ==> s.focus.published == Some(s.handed[|s.handed| - 1]))
  }

  ghost predicate Inv(s: Sys) {
    HeldInv(s) && StageInv(s) && HandedInv(s)
  }

  lemma {:induction false} NextKeepsHeld(s: Sys, step: Step)
    requires Inv(s)
    ensures HeldInv(Next(s, step)) && StageInv(Next(s, step))
  {
  }

  lemma {:induction false} NextKeepsHanded(s: Sys, step: Step)
    requires Inv(s)
    ensures HandedInv(Next(s, step))
  {
  }

  lemma {:induction false} RunKeeps(steps: seq<Step>)
    ensures Inv(Run(Initial(), steps))
    decreases |steps|
  {
    if steps != [] {
      RunKeeps(steps[..|steps| - 1]);
      NextKeepsHeld(Run(Initial(), steps[..|steps| - 1]), steps[|steps| - 1]);
      NextKeepsHanded(Run(Initial(), steps[..|steps| - 1]), steps[|steps| - 1]);
    }
  }

  // ----- results -----

  // The reports begun, in order: what took the lock, and no more.
  function Begun(steps: seq<Step>): seq<Report>
    decreases |steps|
  {
    if steps == [] then []
    else
      var before, step := steps[..|steps| - 1], steps[|steps| - 1];
      Begun(before) + if step.Begin? && MayBegin(Run(Initial(), before), step.report) then [step.report] else []
  }

  // What the window last reported; it has the focus before it reports any.
  function LastWindow(reports: seq<Report>): bool
    decreases |reports|
  {
    if reports == [] then true
    else
      match reports[|reports| - 1]
      case Window(focused) => focused
      case _ => LastWindow(reports[..|reports| - 1])
  }

  // What was last reported of the modal; there is none at first.
  function LastModal(reports: seq<Report>): bool
    decreases |reports|
  {
    if reports == [] then false
    else
      match reports[|reports| - 1]
      case Modal(open) => open
      case _ => LastModal(reports[..|reports| - 1])
  }

  lemma {:induction false} LastAppend(reports: seq<Report>, report: Report)
    ensures LastWindow(reports + [report]) == if report.Window? then report.focused else LastWindow(reports)
    ensures LastModal(reports + [report]) == if report.Modal? then report.open else LastModal(reports)
  {
    assert (reports + [report])[..|reports|] == reports;
  }

  lemma {:induction false} FocusStep(s: Sys, step: Step)
    ensures var f, f1 := s.focus, Next(s, step).focus; var begins := step.Begin? && MayBegin(s, step.report);
      && f1.window == (if begins && step.report.Window? then step.report.focused else f.window)
      && f1.modalOpen == (if begins && step.report.Modal? then step.report.open else f.modalOpen)
  {
  }

  // In every run the router's two flags are the last reports it was given.
  lemma {:induction false} FocusIsTheLastReports(steps: seq<Step>)
    ensures var f := Run(Initial(), steps).focus;
      f.window == LastWindow(Begun(steps)) && f.modalOpen == LastModal(Begun(steps))
    decreases |steps|
  {
    if steps != [] {
      var before, step := steps[..|steps| - 1], steps[|steps| - 1];
      FocusIsTheLastReports(before);
      FocusStep(Run(Initial(), before), step);
      if step.Begin? {
        LastAppend(Begun(before), step.report);
      }
      assert Begun(before) + [] == Begun(before);
    }
  }

  // Whatever interleaves, between reports a live sink whose browser was announced
  // holds what was last reported: the focus, if the window has it and no modal is
  // open.
  lemma {:induction false} AnnouncedSinkHoldsTheBelief(steps: seq<Step>)
    requires var s := Run(Initial(), steps);
      s.stage.Idle? && LiveSink(s) && s.browser.value.announcement.Made?
    ensures Run(Initial(), steps).browser.value.held == Some(LastWindow(Begun(steps)) && !LastModal(Begun(steps)))
  {
    RunKeeps(steps);
    FocusIsTheLastReports(steps);
  }

  // No value is handed over twice in a row between two announcements.
  lemma {:induction false} NeverHandedTwice(steps: seq<Step>)
    ensures var handed := Run(Initial(), steps).handed;
      forall k | 1 <= k < |handed| :: handed[k] != handed[k - 1]
  {
    RunKeeps(steps);
  }

  // In any interleaving a report that finishes on a live sink leaves it holding
  // the belief or told nothing at all, never the opposite.
  lemma {:induction false} FinishedReportNeverMisleads(steps: seq<Step>)
    requires var s := Run(Initial(), steps); !s.stage.Idle? && Advance(s).stage.Idle? && LiveSink(s)
    ensures var s1 := Advance(Run(Initial(), steps));
      && LiveSink(s1)
      && (s1.browser.value.held == Some(Belief(s1.focus)) <==> s1.browser.value.held.Some?)
      && (s1.browser.value.announcement.Made? ==> s1.browser.value.held.Some?)
  {
    RunKeeps(steps);
  }

  // A report found at rest ends as the branches say.
  lemma {:induction false} ReportAloneOutcome(s: Sys, report: Report)
    ensures var f, s1 := Apply(s.focus, report), ReportAlone(s, report);
      var told := f.published != Some(Belief(f)) && LiveSink(s);
      && s1.stage.Idle? && s1.session == s.session
      && s1.focus == (if told then f.(published := Some(Belief(f))) else f)
      && s1.handed == (if report.BecameLive? then [] else s.handed) + (if told then [Belief(f)] else [])
      && (s1.browser.Some? <==> s.browser.Some?)
      && (s.browser.Some? ==>
            && s1.browser.value.held == (if told then Some(Belief(f)) else s.browser.value.held)
            && s1.browser.value.announcement == (if report.BecameLive? then Made else s.browser.value.announcement))
  {
    var a := Start(s, report);
    var b := Advance(a);
    var c := Advance(b);
    var d := Advance(c);
    assert ReportAlone(s, report) == Advance(d);
  }

  // A whole report with nothing in between.
  function ReportAlone(s: Sys, report: Report): Sys {
    Advance(Advance(Advance(Advance(Start(s, report)))))
  }

  // The gap, at the step that compares the belief with what was published,
  // whatever was destroyed, created or revoked since the report began: the step
  // ends the report on a live sink that does not hold the belief exactly when that
  // browser was told nothing yet and its predecessor took the same belief, which is
  // what the step finds published.
  lemma {:induction false} ReportSkipsExactlyAnUntoldSuccessor(steps: seq<Step>)
    requires var s := Run(Initial(), steps); s.stage.Applied? && LiveSink(s)
    ensures var s := Run(Initial(), steps); var s1 := Next(s, Continue);
      s1.stage.Idle? && s1.browser.value.held != Some(Belief(s1.focus)) <==>
      s.browser.value.held.None? && s.focus.published == Some(Belief(s.focus))
  {
    RunKeeps(steps);
  }

  // A report found at rest and left alone, as its caller sees it before the call.
  lemma {:induction false} LoneReportSkipsExactlyAnUntoldSuccessor(steps: seq<Step>, report: Report)
    requires var s := Run(Initial(), steps);
      MayBegin(s, report) && LiveSink(s)
    ensures var s := Run(Initial(), steps); var s1 := ReportAlone(s, report); var f := Apply(s.focus, report);
      && s1.stage.Idle? && LiveSink(s1)
      && (s1.browser.value.held == Some(Belief(s1.focus)) <==>
          !(s.browser.value.held.None? && f.published == Some(Belief(f))))
  {
    RunKeeps(steps);
    ReportAloneOutcome(Run(Initial(), steps), report);
  }

  // ----- a report the browser changes under -----

  // The report holds the lock at every point before the last step.
  ghost predicate InProgress(s: Sys, more: seq<Step>) {
    forall k | 0 <= k < |more| :: !Run(s, more[..k]).stage.Idle?
  }

  // The browser was gone at some point between the hand-over and its record.
  predicate GoneAt(s: Sys, more: seq<Step>, k: nat)
    requires k <= |more|
  {
    Run(s, more[..k]).stage.HandedOver? && Run(s, more[..k]).browser.None?
  }

  ghost predicate GoneSinceHandOver(s: Sys, more: seq<Step>) {
    exists k | 0 <= k <= |more| :: GoneAt(s, more, k)
  }

  lemma {:induction false} GoneNext(s: Sys, more: seq<Step>)
    requires more != []
    ensures GoneSinceHandOver(s, more) <==> GoneSinceHandOver(s, more[..|more| - 1]) || GoneAt(s, more, |more|)
  {
    var before := more[..|more| - 1];
    forall k | 0 <= k <= |before|
      ensures GoneAt(s, more, k) <==> GoneAt(s, before, k)
    {
      assert before[..k] == more[..k];
    }
    if GoneSinceHandOver(s, before) {
      var k :| 0 <= k <= |before| && GoneAt(s, before, k);
      assert GoneAt(s, more, k);
    }
    if GoneSinceHandOver(s, more) {
      var k :| 0 <= k <= |more| && GoneAt(s, more, k);
      assert k < |more| ==> GoneAt(s, before, k);
    }
  }

  // What is known on the way, by whether the browser was gone.
  predicate Track(s: Sys, gone: bool) {
    && (!s.stage.HandedOver? ==> !gone)
    && (s.stage.HandedOver? && s.browser.None? ==> gone)
    && (s.stage.HandedOver? && LiveSink(s) ==> (s.browser.value.held.Some? <==> !gone))
  }

  lemma {:induction false} TrackStep(s: Sys, step: Step, gone: bool)
    requires Inv(s) && Track(s, gone) && !s.stage.Idle? && !Next(s, step).stage.Idle?
    ensures var s1 := Next(s, step); Track(s1, gone || (s1.stage.HandedOver? && s1.browser.None?))
  {
  }

  lemma {:induction false} TracksOnTheWay(s: Sys, more: seq<Step>)
    requires Inv(s) && s.stage.Applied? && InProgress(s, more) && !Run(s, more).stage.Idle?
    ensures Inv(Run(s, more)) && Track(Run(s, more), GoneSinceHandOver(s, more))
    decreases |more|
  {
    if more == [] {
      assert more[..0] == more;
      assert !GoneAt(s, more, 0);
    } else {
      var before, last := more[..|more| - 1], more[|more| - 1];
      InProgressPrefix(s, more);
      TracksOnTheWay(s, before);
      NextKeepsHeld(Run(s, before), last);
      NextKeepsHanded(Run(s, before), last);
      TrackStep(Run(s, before), last, GoneSinceHandOver(s, before));
      GoneNext(s, more);
      assert more[..|more|] == more;
    }
  }

  lemma {:induction false} InProgressPrefix(s: Sys, more: seq<Step>)
    requires InProgress(s, more) && more != []
    ensures InProgress(s, more[..|more| - 1]) && !Run(s, more[..|more| - 1]).stage.Idle?
  {
    var before := more[..|more| - 1];
    forall k | 0 <= k < |before|
      ensures !Run(s, before[..k]).stage.Idle?
    {
      assert before[..k] == more[..k];
    }
  }

  lemma {:induction false} LastStepOutcome(s: Sys, step: Step, gone: bool)
    requires Inv(s) && Track(s, gone) && !s.stage.Idle? && Next(s, step).stage.Idle? && LiveSink(Next(s, step))
    requires !s.stage.Applied?
    ensures var s1 := Next(s, step); s1.browser.value.held == Some(Belief(s1.focus)) <==> !gone
  {
  }

  // A report that went on past its comparison, whatever interleaved: it ends on a
  // live sink holding the belief exactly unless the browser was gone at some point
  // between the hand-over and its record, so that the sink is a successor told
  // nothing.
  lemma {:induction false} HandOverReachesExactlyWhoStays(steps: seq<Step>, more: seq<Step>)
    requires var s := Run(Initial(), steps);
      && s.stage.Applied? && more != [] && InProgress(s, more)
      && !Run(s, more[..|more| - 1]).stage.Applied?
      && Run(s, more).stage.Idle? && LiveSink(Run(s, more))
    ensures var s := Run(Initial(), steps); var s1 := Run(s, more);
      s1.browser.value.held == Some(Belief(s1.focus)) <==> !GoneSinceHandOver(s, more[..|more| - 1])
  {
    var s := Run(Initial(), steps);
    RunKeeps(steps);
    InProgressPrefix(s, more);
    TracksOnTheWay(s, more[..|more| - 1]);
    LastStepOutcome(Run(s, more[..|more| - 1]), more[|more| - 1], GoneSinceHandOver(s, more[..|more| - 1]));
  }

  // Such a run: the second browser is live and has been told nothing when a
  // report for it finishes.
  lemma {:induction false} SuccessorCanBeSkipped()
    ensures exists steps, report ::
      var s := Run(Initial(), steps);
      && MayBegin(s, report) && LiveSink(s) && !report.BecameLive?
      && ReportAlone(s, report).browser.value.held.None?
  {
    var steps := [Create, Begin(BecameLive), Continue, Continue, Continue, Continue, Destroy, Create];
    assert steps[..7][..6][..5][..4][..3][..2][..1][..0] == [];
    var s := Run(Initial(), steps);
    Unrolled(steps);
    assert s.browser == Some(Browser(None, Due)) && s.stage.Idle? && s.focus == Focus(true, false, Some(true));
    assert MayBegin(s, Modal(false)) && LiveSink(s);
    assert ReportAlone(s, Modal(false)).browser.value.held.None?;
  }

  lemma {:induction false} Unrolled(steps: seq<Step>)
    requires |steps| == 8
    ensures Run(Initial(), steps) ==
      Next(Next(Next(Next(Next(Next(Next(Next(Initial(),
        steps[0]), steps[1]), steps[2]), steps[3]), steps[4]), steps[5]), steps[6]), steps[7])
  {
    assert steps[..7][..6] == steps[..6] && steps[..6][..5] == steps[..5] && steps[..5][..4] == steps[..4];
    assert steps[..4][..3] == steps[..3] && steps[..3][..2] == steps[..2] && steps[..2][..1] == steps[..1];
    assert Run(Initial(), steps[..1][..0]) == Initial();
    assert Run(Initial(), steps[..2]) == Next(Run(Initial(), steps[..1]), steps[1]);
    assert Run(Initial(), steps[..4]) == Next(Run(Initial(), steps[..3]), steps[3]);
    assert Run(Initial(), steps[..6]) == Next(Run(Initial(), steps[..5]), steps[5]);
  }

  lemma {:induction false} GoesOn(s: Sys, steps: seq<Step>, k: nat)
    requires k < |steps|
    ensures Run(s, steps[..k + 1]) == Next(Run(s, steps[..k]), steps[k])
  {
    assert steps[..k + 1][..k] == steps[..k];
  }

  // And a run in which a hand-over reaches nobody: the browser it went to is gone
  // before the record, and its successor has been told nothing.
  const ANNOUNCED: seq<Step> := [Create, Begin(BecameLive), Continue, Continue, Continue, Continue, Begin(Modal(true))]
  const REPLACED: seq<Step> := [Continue, Continue, Continue, Destroy, Create, Continue]

  const REPORTING := Sys(Focus(true, true, Some(true)), Some(Browser(Some(true), Made)), true, Applied(false), [true])

  const DUE := Sys(Focus(true, false, None), Some(Browser(None, Due)), true, Idle, [])

  lemma {:induction false} AnnouncingIsRun()
    ensures Run(Initial(), ANNOUNCED[..4]) == DUE.(stage := Alive(true, true))
  {
    var s := Initial();
    assert ANNOUNCED[..0] == [];
    GoesOn(s, ANNOUNCED, 0);
    assert Run(s, ANNOUNCED[..1]) == DUE;
    GoesOn(s, ANNOUNCED, 1);
    assert Run(s, ANNOUNCED[..2]) == DUE.(stage := Applied(true));
    GoesOn(s, ANNOUNCED, 2);
    assert Run(s, ANNOUNCED[..3]) == DUE.(stage := Differs(true, true));
    GoesOn(s, ANNOUNCED, 3);
  }

  lemma {:induction false} AnnouncedIsRun()
    ensures Run(Initial(), ANNOUNCED) == REPORTING
  {
    var s := Initial();
    AnnouncingIsRun();
    GoesOn(s, ANNOUNCED, 4);
    assert Run(s, ANNOUNCED[..5]) == DUE.(stage := HandedOver(true, true), browser := Some(Browser(Some(true), Due)), handed := [true]);
    GoesOn(s, ANNOUNCED, 5);
    GoesOn(s, ANNOUNCED, 6);
    assert ANNOUNCED[..7] == ANNOUNCED;
  }

  lemma {:induction false} ReplacedIsRun()
    ensures Run(REPORTING, REPLACED[..0]) == REPORTING
    ensures Run(REPORTING, REPLACED[..1]) == REPORTING.(stage := Differs(false, false))
    ensures Run(REPORTING, REPLACED[..2]) == REPORTING.(stage := Alive(false, false))
    ensures Run(REPORTING, REPLACED[..3]) ==
            REPORTING.(stage := HandedOver(false, false), browser := Some(Browser(Some(false), Made)), handed := [true, false])
    ensures Run(REPORTING, REPLACED[..4]) == REPORTING.(stage := HandedOver(false, false), browser := None, handed := [true, false])
    ensures Run(REPORTING, REPLACED[..5]) ==
            REPORTING.(stage := HandedOver(false, false), browser := Some(Browser(None, Due)), handed := [true, false])
    ensures Run(REPORTING, REPLACED) ==
            Sys(Focus(true, true, Some(false)), Some(Browser(None, Due)), true, Idle, [true, false])
  {
    assert REPLACED[..0] == [] && REPLACED[..6] == REPLACED;
    GoesOn(REPORTING, REPLACED, 0);
    GoesOn(REPORTING, REPLACED, 1);
    GoesOn(REPORTING, REPLACED, 2);
    GoesOn(REPORTING, REPLACED, 3);
    GoesOn(REPORTING, REPLACED, 4);
    GoesOn(REPORTING, REPLACED, 5);
  }

  lemma {:induction false} HandOverCanReachNobody()
    ensures var s := Run(Initial(), ANNOUNCED); var s1 := Run(s, REPLACED);
      && s.stage.Applied? && InProgress(s, REPLACED) && GoneSinceHandOver(s, REPLACED[..5])
      && s1.stage.Idle? && LiveSink(s1) && s1.handed == [true, false]
      && s1.browser.value.held.None? && s1.focus.published == Some(Belief(s1.focus))
  {
    AnnouncedIsRun();
    ReplacedIsRun();
    assert REPLACED[..5][..4] == REPLACED[..4];
    assert GoneAt(REPORTING, REPLACED[..5], 4);
  }

  // The session admits exactly until it is revoked.
  lemma {:induction false} SessionIsTheHistory(steps: seq<Step>)
    ensures Run(Initial(), steps).session <==> Revoke !in steps
    decreases |steps|
  {
    if steps != [] {
      SessionIsTheHistory(steps[..|steps| - 1]);
    }
  }

  lemma {:induction false} NeverStays(s: Sys, more: seq<Step>)
    requires !s.session && s.browser == Some(Browser(None, Never)) && !Announcing(s)
    requires forall k | 0 <= k < |more| :: more[k] != Destroy
    ensures var s1 := Run(s, more); !s1.session && s1.browser == Some(Browser(None, Never)) && !Announcing(s1)
    decreases |more|
  {
    if more != [] {
      NeverStays(s, more[..|more| - 1]);
    }
  }

  // A browser created once the session was revoked is never announced and never
  // told anything, whatever is reported while it lives; one created before is due
  // its announcement.
  lemma {:induction false} CreatedTooLateIsNeverTold(steps: seq<Step>, more: seq<Step>)
    requires Run(Initial(), steps).browser.None? && forall k | 0 <= k < |more| :: more[k] != Destroy
    ensures Next(Run(Initial(), steps), Create).browser == Some(Browser(None, if Revoke in steps then Never else Due))
    ensures Revoke in steps ==> Run(Next(Run(Initial(), steps), Create), more).browser == Some(Browser(None, Never))
  {
    SessionIsTheHistory(steps);
    RunKeeps(steps);
    if Revoke in steps {
      NeverStays(Next(Run(Initial(), steps), Create), more);
    }
  }

  // And its own announcement closes it.
  lemma {:induction false} AnnouncementTellsTheSuccessor(steps: seq<Step>)
    requires var s := Run(Initial(), steps); MayBegin(s, BecameLive) && LiveSink(s)
    ensures var s1 := ReportAlone(Run(Initial(), steps), BecameLive);
      s1.browser == Some(Browser(Some(Belief(s1.focus)), Made))
  {
    RunKeeps(steps);
    ReportAloneOutcome(Run(Initial(), steps), BecameLive);
  }
}

// The locked focus and the sink, updated in place.
module WebFocusObjects {
  import opened Wrappers
  import W = WebFocus

  class WebSink {
    var browser: Option<W.Browser>
    var session: bool
    var handed: seq<bool>

    constructor ()
      ensures browser == None && session && handed == []
    {
      browser, session, handed := None, true, [];
    }

    predicate IsAlive()
      reads this
    {
      session && browser.Some?
    }

    method SetFocus(belief: bool)
      modifies this`browser, this`handed
      ensures handed == old(handed) + [belief]
      ensures browser == if session && old(browser).Some? then Some(old(browser).value.(held := Some(belief))) else old(browser)
    {
      handed := handed + [belief];
      if session && browser.Some? {
        browser := Some(browser.value.(held := Some(belief)));
      }
    }
  }

  class WebFocus {
    var window: bool
    var modalOpen: bool
    var published: Option<bool>

    constructor ()
      ensures W.Focus(window, modalOpen, published) == W.Seed()
    {
      window, modalOpen, published := true, false, None;
    }

    // A report under the lock while the sink stands still.
    method Report(report: W.Report, sink: WebSink)
      modifies this, sink`browser, sink`handed
      ensures var before := W.Sys(W.Focus(old(window), old(modalOpen), old(published)), old(sink.browser), sink.session, W.Idle, old(sink.handed));
        var after := W.ReportAlone(before, report);
        && W.Focus(window, modalOpen, published) == after.focus
        && sink.handed == (if report.BecameLive? then old(sink.handed) else []) + after.handed
        && Told(sink.browser, after.browser)
      ensures window == if report.Window? then report.focused else old(window)
      ensures modalOpen == if report.Modal? then report.open else old(modalOpen)
    {
      W.ReportAloneOutcome(
        W.Sys(W.Focus(window, modalOpen, published), sink.browser, sink.session, W.Idle, sink.handed), report);
      if report.Window? {
        window := report.focused;
      } else if report.Modal? {
        modalOpen := report.open;
      } else {
        published := None;
      }
      var belief := window && !modalOpen;
      if published == Some(belief) {
        return;
      }
      if !sink.IsAlive() {
        return;
      }
      sink.SetFocus(belief);
      published := Some(belief);
    }
  }

  // The same browser told the same; its announcement is the callback's to make.
  predicate Told(a: Option<W.Browser>, b: Option<W.Browser>) {
    (a.None? <==> b.None?) && (a.Some? && b.Some? ==> a.value.held == b.value.held)
  }
}
