# Verification of the desktop shell's concurrent core

This project models the parts of the desktop client whose correctness spans
several functions, threads or machines, and proves what they promise over every
input, every run and every interleaving.

* **The connection protocol.** A shell actor (`Connection`) issues `Probe`,
  `CancelProbe`, `Navigate` and `Abandon` requests. They pass through the CEF
  readiness channel and the UI thread's task queue to the browser client, which
  holds a deferred load and a painting state. Probe answers, load ends, load
  errors and presented frames come back late, repeatedly and in any order.
  `Protocol.dfy` composes the two halves with explicit queues and histories;
  `Evidence.dfy` proves what a presented frame is evidence of, `Once.dfy` how often
  it is reported, and `Arrival.dfy` what the user comes to see: a probed server
  loaded, painted and faded in, or its failure.
* **The incremental pixel uploader** (`Upload.dfy`, `Extent.dfy`): patching a
  persistent texture with clipped damage rectangles refines uploading every frame
  whole, on a surface as large as its policy says.
* **Shutdown and hand-off** (`Session.dfy`, `Readiness.dfy`, `SaveWorker.dfy`,
  `SettingsDisk.dfy`, `Manager.dfy`): small-step concurrent systems with whole-run
  guarantees.
* **Byte algorithms** (`Redact.dfy`, `LogFiles.dfy`, `LineSplitter.dfy`,
  `Utf16.dfy`): in-place redaction, a rotating chain of files, two streaming
  decoders.
* **Accumulators** (`Discord.dfy`, `Scroll.dfy`, `WebFocus.dfy`): throttling and
  backoff, conservation, and a belief kept in step with a browser that comes and
  goes.

Each file has one shape. A module of datatypes and functions gives one atomic
step of the code at a time, a run of steps, and the lemmas about every run; a
second module holds the source's own objects as classes whose methods update
their fields in place and are proved, method by method, to compute exactly those
functions. Fields named as histories in the comments record what happened and
are read by no step. Every lemma carries `{:induction false}`, so no proof rests
on an induction the verifier chose by itself.

## What the proofs found

* **A navigation can be reported presented twice.** `Inner::navigate` sets the
  painting before the page is submitted, and `deliver_deferred_navigation` sets
  it again. If the page is still deferred, for want of a main frame, when a page
  of its base has loaded and been shown, the later delivery forgets the
  presentation. `Once.RepeatsExactlyOnRedelivery` gives the exact guard, read
  before the step; `Once.LosslessGuard` reduces it, where every request was
  delivered, to a browser coming up with a main frame; and
  `Once.TwiceIsReachable` is such a run.
* **The strip beside a smaller frame is not always transparent.** The comments at
  `src/gpu_paint/src/painter.rs:32-37` and `:390-392` promise it; the texture is
  dropped only when the extent changes, so a frame that shrinks under an
  unchanged extent leaves the earlier frame's pixels
  (`Upload.ShrunkFrameLeavesStalePixels`). `Upload.StripIsClear` says exactly
  when the strip is transparent, and by which frame sizes.
* **`clip_rect` is not the plain intersection on rectangles that overflow `i32`.**
  Release builds wrap (`src/Cargo.toml:87-91`). `Pixels.ClipAgrees` gives the
  exact condition for agreement with `DamageRect::clamped`;
  `Upload.AbortsExactlyOnOversized` says when such a rectangle ends the process, and
  `Upload.OversizedFrameAborts` is such a frame.
* **`contains_secret` looks at each needle's first occurrence alone**, so the log
  gate in front of `censor` can pass a record whose later occurrence has a token
  (`Redact.GateMissesSecondToken`); `Redact.GateRedactsUnless` is the exact
  condition.
* **The rich-presence worker's last request is not throttled.** The pushes keep
  the rate limit (`Discord.WithinRateLimit`), but the clear sent on the way out
  can be a sixth request in a window (`Discord.ClearCanBeTheSixth`);
  `Discord.OverLimitExactlyByTheClear` says exactly when.
* **A focus report can skip a recreated browser.** Between a browser's creation
  and its announcement, a report whose belief its predecessor already took is not
  handed over (`WebFocus.SuccessorCanBeSkipped`), and one handed over as the
  browser went reaches nobody (`WebFocus.HandOverCanReachNobody`).
  `WebFocus.ReportSkipsExactlyAnUntoldSuccessor` and
  `WebFocus.HandOverReachesExactlyWhoStays` are the exact conditions in every
  interleaving, and the announcement closes the gap.
* **An older settings snapshot can be the one left on disk**, in two ways, although
  the comments at `src/config/src/lib.rs:487-490` and `:576-579` promise that only the
  newest is written and nothing is lost at exit. A saver clones the settings before
  it takes the worker's handle, so another saver's newer clone can be accepted first
  (`SettingsDisk.OlderCanStay`). And the synchronous save at exit
  (`src/jfn_rust/src/app.rs:786-787`) goes past the mailbox, so a worker that still
  owes an older snapshot overwrites the settings just saved, before shutdown returns
  (`SettingsDisk.ExitSaveCanBeOverwritten`). Over one history of both writers,
  `SettingsDisk.OvertakenExactlyInBetween` and `SettingsDisk.OnDiskIsOldExactly` give
  the exact conditions on the acts of a run, and
  `SettingsDisk.LastGivenStaysExactlyUnlessOwed` and
  `SettingsDisk.NewestStaysExactlyUnlessOvertaken` read what stays, and whether it is
  the newest, off the act that gave the last clone away.
* **An oversized log record rotates even an empty file**
  (`LogFiles.ClosesEmptyExactlyOnOversized`), and **a resume shows a window that
  was hidden** (`Manager.RunsHiddenExactlyAfterResume`).

## Model

| member | source | states |
|---|---|---|
| Urls.BaseIsBeforeLastWeb | src/jellyfin/src/lib.rs:362-375 | the base is the prefix before the last `/web` of any case, and without one the prefix through the host up to its first slash |
| Urls.BaseOwnsItsPage | src/jellyfin/src/lib.rs:362-392 | the base a URL reduces to owns that URL's page exactly when it is not empty, so the page a resolved probe was answered by can promote the navigation |
| Urls.PageOfExtension | src/jellyfin/src/lib.rs:384-392 | extending a base stays on its server exactly by nothing, a path, a query or a fragment |
| Urls.ReductionIsNotIdempotent | src/jellyfin/src/lib.rs:362-382 | reducing a URL twice can differ from once, shown by a URL with a path before `/web` |
| Readiness.ExecutedInRegistrationOrder | src/jfn_cef/src/ready.rs:26-110 | in every interleaving the callbacks that ran are a prefix of those accepted, in order and once each; while neither gate is closed, none is lost |
| Readiness.NextIsFifo | src/jfn_cef/src/ready.rs:48-110 | every step accepts at the back, runs the front, or does neither |
| Readiness.SilencedForEver | src/jfn_cef/src/ready.rs:85-110 | once the UI thread holds no checked callback and the state is stopped, no callback runs in any later run |
| Readiness.StopLetsOneThrough | src/jfn_cef/src/ready.rs:85-110 | a stop lets through at most the callback already past its check |
| Readiness.RevokedForEver | src/jfn_cef/src/ready.rs:48-74 | once the session stops admitting, no callback runs again |
| Readiness.GatesAreTheHistory | src/jfn_cef/src/ready.rs:76-87 | in every run the session admits until revoked, and the channel is stopped by a stop or a rejected readiness task and nothing else |
| Readiness.TakenExactly | src/jfn_cef/src/ready.rs:48-74 | a callback is taken exactly if its caller is let in, nothing stopped, and the post it needs is accepted; what refused it decides the error |
| Readiness.UiRunsEverything | src/jfn_cef/src/ready.rs:37-110 | with both gates open and readiness come or queued, the UI thread's own steps run every callback accepted, within a bound |
| Readiness.Channel.Register | src/jfn_cef/src/ready.rs:26-36 | waits in the vector, is handed back once ready, is refused once stopped |
| Readiness.Channel.OnCefReady | src/jfn_cef/src/ready.rs:48-74 | equals `Offer`: accepted while pending, posted once ready, refused when stopped, revoked or rejected by CEF |
| Readiness.Channel.StopNow | src/jfn_cef/src/ready.rs:85-87 | equals `Stop` |
| Readiness.Channel.MarkReadyNow | src/jfn_cef/src/ready.rs:37-45 | hands out the waiting callbacks once, in order, and never revives a stopped state |
| Readiness.Channel.BeginTask | src/jfn_cef/src/ready.rs:89-110 | equals `Begin`: the next UI task up to its first call |
| Readiness.Channel.CheckNext | src/jfn_cef/src/ready.rs:89-102 | equals `Check`: the stop check before each drained callback |
| Readiness.Channel.CallNext | src/jfn_cef/src/ready.rs:89-110 | equals `Call`: the callback runs only if the session admits it |
| Connection.RequestsAreBracketed | src/jfn_rust/src/connection.rs:142-286 | in every run probe cycles and navigation ids strictly grow, every `Probe` or `Navigate` is closed by its own `CancelProbe` or `Abandon` before the next opens, and the one open request is the one the phase names |
| Connection.DeadCycleForEver | src/jfn_rust/src/connection.rs:236-257 | a probe cycle issued and not waited for is dead in every later state, and a result citing it changes nothing |
| Connection.DeadNavigationForEver | src/jfn_rust/src/connection.rs:258-286 | a navigation issued and not named by the phase is dead in every later state, and a result citing it changes nothing |
| Connection.FadesOnce | src/jfn_rust/src/connection.rs:270-286 | once a navigation has started its fade no later frame of it changes anything, in any run |
| Connection.TickAtDeadline | src/jfn_rust/src/connection.rs:288-334 | a tick changes the phase exactly when there is a deadline and it has passed |
| Connection.ConnectedAfterFade | src/jfn_rust/src/connection.rs:270-306 | `Connected` comes no earlier than the fade after a presented frame of that same navigation |
| Connection.FailureWaitsForSpinner | src/jfn_rust/src/connection.rs:158-306 | in every run a probe that fails shows it no earlier than the spinner floor after the connect that opened that cycle, and only by its own failure or a tick |
| Connection.EarlyFailureIsKept | src/jfn_rust/src/connection.rs:241-334 | over any run short of an interruption, a failure before the spinner floor leaves the screen as it was until the first input at the deadline or later, and is shown exactly from then on |
| Connection.ResolutionLeadsToThePage | src/jfn_rust/src/connection.rs:183-306 | a resolution keeps the spinner's start, its frame starts the fade, the fade's end connects, and the requests on the way are one cancel and one navigate to the saved base |
| Connection.FailedPageIsShown | src/jfn_rust/src/connection.rs:158-268 | a page that fails while it loads is abandoned and the failure shown over any further inputs, until dismissing returns to its URL or connecting probes it again |
| Connection.CanceledIsOver | src/jfn_rust/src/connection.rs:142-228 | canceling calls the work off and shows the form over any results still to come |
| Connection.TypedUrlIsProbed | src/jfn_rust/src/connection.rs:158-215 | what is typed is shown, stays and is what connecting probes; a probe or a failure is not edited away |
| Connection.ConnectProbes | src/jfn_rust/src/connection.rs:158-181 | from every phase connecting calls its work off and probes the URL of the form, or the saved one where there is none |
| Connection.SavedIsLastServer | src/jfn_rust/src/connection.rs:183-201 | in every run the saved URL is the last set, by a live resolution or by another writer |
| Connection.FailedPageIsRetried | src/jfn_rust/src/connection.rs:158-268 | a page that failed shows the failure and is abandoned, and its URL is probed again under a new cycle, deaf to its late frames |
| Connection.UrlSurvives | src/jfn_rust/src/connection.rs:158-306 | over any run, stale results included, the entered URL is the one the form returns to until an edit, the live probe's resolution or the live navigation's frame |
| Connection.LeavingProbe | src/jfn_rust/src/connection.rs:142-257 | one step leaves a probe or failure for loading only by its own resolution, for the form only by cancel or dismissal |
| Connection.LeavingNavigation | src/jfn_rust/src/connection.rs:142-306 | wherever a run still names a navigation it named it at every point before, no later in the order loading, fading, connected; once left it is never named again |
| Connection.EveryNavigationWasSaved | src/jfn_rust/src/connection.rs:183-201 | in every run the URLs saved are exactly the bases navigated to, in order |
| Connection.ActKeepsFresh | src/jfn_rust/src/connection.rs:142-201 | identities stay fresh whatever became of the earlier requests |
| ConnectionActor.HandAllDelivers | src/jfn_rust/src/connection.rs:105-140 | a delivered batch is accepted whole and in order; a failed one up to the failing request and no further |
| ConnectionActor.Actor.constructor | src/jfn_rust/src/connection.rs:93-103 | equals `New` |
| ConnectionActor.Actor.Enter | src/jfn_rust/src/connection.rs:142-156 | equals `Enter` on the fields |
| ConnectionActor.Actor.Connect | src/jfn_rust/src/connection.rs:158-181 | equals `Connect` |
| ConnectionActor.Actor.NavigateTo | src/jfn_rust/src/connection.rs:183-201 | equals `NavigateTo` |
| ConnectionActor.Actor.EditUrl | src/jfn_rust/src/connection.rs:203-215 | equals `EditUrl` |
| ConnectionActor.Actor.Cancel | src/jfn_rust/src/connection.rs:217-228 | equals `Cancel` |
| ConnectionActor.Actor.DismissFailure | src/jfn_rust/src/connection.rs:230-234 | equals `DismissFailure` |
| ConnectionActor.Actor.ProbeResolved | src/jfn_rust/src/connection.rs:236-239 | equals `ProbeResolved` |
| ConnectionActor.Actor.ProbeFailed | src/jfn_rust/src/connection.rs:241-257 | equals `ProbeFailed` |
| ConnectionActor.Actor.NavigationFailed | src/jfn_rust/src/connection.rs:258-268 | equals `NavigationFailed` |
| ConnectionActor.Actor.FinishNavigation | src/jfn_rust/src/connection.rs:270-286 | equals `FinishNavigation`, and returns whether it moved |
| ConnectionActor.Actor.Tick | src/jfn_rust/src/connection.rs:288-308 | equals `Tick` |
| ConnectionActor.Actor.Attach | src/jfn_rust/src/connection.rs:105-108 | the requests kept so far are flushed to the overlay attached |
| ConnectionActor.Actor.FlushRequests | src/jfn_rust/src/connection.rs:110-140 | equals `HandAll` over the requests taken; nothing is taken without an overlay |
| Browser.NavigateSets | src/jfn_cef/src/client.rs:67-75 | whether or not a client, a browser or a main frame exists, a navigation becomes what the browser is set on |
| Browser.AbandonClears | src/jfn_cef/src/client.rs:441-458 | an abandonment clears the browser's intent exactly when it names it, live or deferred |
| Browser.EventsLeaveIntent | src/jfn_cef/src/client/lifecycle.rs:17-99 | loads, paints, creation and closing never change which navigation the browser is set on |
| Browser.FrameAndFailureAreTheIntents | src/jfn_cef/src/client.rs:121-182 | a frame is reported exactly for the navigation the browser is set on, loaded and not yet shown, and once; a failure exactly for the one whose page failed |
| Browser.NothingStaysDeferred | src/jfn_cef/src/client/lifecycle.rs:17-44 | a live browser with a main frame is told at once, so nothing stays deferred; without one nothing is told |
| Browser.OnlyOwnPagePromotes | src/jfn_cef/src/client.rs:121-133 | a finished load promotes the navigation exactly when it is a page of its base, and otherwise changes nothing |
| BrowserObjects.DeferredNavigation.Navigate | src/jfn_cef/src/client.rs:67-74 | the slot holds the newest page alone |
| BrowserObjects.DeferredNavigation.Abandon | src/jfn_cef/src/client.rs:76-88 | a matching deferred page becomes a blank load, anything else stays |
| BrowserObjects.DeferredNavigation.BlankIfAbsent | src/jfn_cef/src/client.rs:90-95 | an empty slot becomes a blank load |
| BrowserObjects.Inner.DeliverDeferredNavigation | src/jfn_cef/src/client/lifecycle.rs:17-44 | equals `Deliver`: without a browser or main frame nothing changes, else the load and its identity move to the painting |
| BrowserObjects.Inner.Navigate | src/jfn_cef/src/client.rs:420-431 | equals `Navigate` |
| BrowserObjects.Inner.NoteMainFrameLoaded | src/jfn_cef/src/client.rs:433-437 | equals `LoadEnd` |
| BrowserObjects.Inner.AbandonNavigation | src/jfn_cef/src/client.rs:441-458 | equals `Abandon` |
| BrowserObjects.Inner.OnPaint | src/jfn_cef/src/client/paint.rs:68-81 | equals `Paint`: the witness taken before presenting is reported once it was presented |
| BrowserObjects.Inner.OnLoadError | src/jfn_cef/src/client/events.rs:64-85 | equals `LoadError` |
| BrowserObjects.Inner.HandleOnAfterCreated | src/jfn_cef/src/client/lifecycle.rs:46-75 | equals `AfterCreated`: in an active session the created callback runs and the deferred load is tried, in a closed one the browser is told to close |
| BrowserObjects.Inner.HandleOnBeforeClose | src/jfn_cef/src/client/lifecycle.rs:77-99 | equals `BeforeClose`, and asks for another browser exactly in an active session |
| BrowserObjects.Overlay.EnsureBrowser | src/jfn_cef/src/web_overlay.rs:167-210 | equals `CreateClient` given a platform and a menu, and changes nothing without; one client is ever made |
| BrowserObjects.Overlay.NavigateOnUi | src/jfn_cef/src/web_overlay.rs:282-288 | equals `Navigate` with or without a client |
| BrowserObjects.Overlay.AbandonOnUi | src/jfn_cef/src/web_overlay.rs:292-298 | equals `Abandon` with or without a client |
| BrowserObjects.Overlay.CancelProbeOnUi | src/jfn_cef/src/web_overlay.rs:508-513 | the probe kept alive is let go and canceled |
| BrowserObjects.Overlay.ProbeOnUi | src/jfn_cef/src/web_overlay.rs:515-526 | the previous probe is canceled; the new one is kept alive if there is a handler to answer |
| Protocol.UndeliveredClosesTheGap | src/jfn_cef/src/web_overlay.rs:269-298 | in every interleaving without a lost delivery, while the client's owner is not gone, running the requests still undelivered over what the browser is set on gives exactly the navigation the actor's phase names, and over its probe the cycle the actor waits for |
| Protocol.UndeliveredIsQueued | src/jfn_cef/src/ready.rs:26-110 | while both gates are open the requests undelivered are exactly what the channel, the batch and the actor still hold, in that order |
| Protocol.DrainedHalvesAgree | src/jfn_rust/src/connection.rs:142-201 | once everything issued has run, the browser is set on the actor's navigation, names that one or none, and keeps the actor's probe |
| Protocol.LeftAloneTheyAgree | src/jfn_rust/src/connection.rs:105-140 | from any reachable state with nothing lost and the gates open, attaching, the flush to its end and the UI thread's own steps, within a bound, bring the browser to the actor's navigation and the probe to its cycle |
| Arrival.LeftAloneItIsLoaded | src/jfn_cef/src/client/lifecycle.rs:17-44 | from any reachable lossless state with the gates open and a live browser, flush and UI steps leave nothing deferred unless it was before and no request cites a navigation; the last load submitted is then the page of the actor's navigation, or the blank |
| Arrival.LoadErrorShowsFailure | src/jfn_rust/src/connection.rs:258-268 | while a navigation loads, an error of a page of its base, delivered, shows the failure and abandons it |
| Arrival.ProbedServerIsShown | src/jfn_rust/src/connection.rs:236-308 | from any reachable lossless state with the gates open, a live browser and a probe under way: resolving, flushing, the UI steps, the load, its frame and the fade end with that page loaded, painted and the connect screen gone |
| Arrival.RevokedReportsNothing | src/jfn_cef/src/runtime.rs:288-299 | once the session is revoked the browser reports nothing more to the actor, in any continuation |
| Protocol.IssuedStaysBracketed | src/jfn_rust/src/connection.rs:110-201 | across flushing, posting and running, the requests issued stay bracketed; fresh even after a loss |
| Protocol.BracketedMeaning | src/jfn_rust/src/connection.rs:142-201 | a bracketed log leaves live exactly its one open request |
| Evidence.RetiredOnEvidence | src/jfn_cef/src/client.rs:283-294 | the actor retires or connects for a navigation only after it was run, then a page of its base finished while it was live, then a frame of it was presented |
| Evidence.AbandonedIsOver | src/jfn_cef/src/client.rs:441-465 | once its abandonment has run, no frame is ever charged to a navigation again, in any continuation |
| Once.ReportedOnce | src/jfn_cef/src/client.rs:158-182 | a navigation's first frame is reported at most once in every run in which no step meets the guard `Redelivers`, read before the step |
| Once.ForgetsExactlyOnRedelivery | src/jfn_cef/src/client/lifecycle.rs:17-44 | a step makes a page already shown be awaited anew exactly when it meets that guard |
| Once.LosslessGuard | src/jfn_cef/src/client/lifecycle.rs:46-75 | in every run without a lost delivery the guard is one event: a browser with a main frame comes up in an active session while the page shown is still deferred |
| Once.RepeatsExactlyOnRedelivery | src/jfn_cef/src/client/lifecycle.rs:17-44 | a step of a run meets the guard exactly if from some point of that run one page need only load and paint for a navigation to be reported twice |
| Once.DeferredIsTheShownPage | src/jfn_cef/src/client/lifecycle.rs:17-44 | a page still deferred after its navigation was shown is that navigation's own, under the URL whose page loaded |
| Once.TwiceIsReachable | src/jfn_cef/src/client/lifecycle.rs:17-75 | twenty-one protocol steps from the first state, every request delivered, that report one navigation twice |
| Session.PermitsAreBodies | src/jfn_cef/src/runtime.rs:230-304 | in every run the count equals the dispatch bodies running, under any nesting, and the phase never moves back |
| Session.RevokedIsQuiet | src/jfn_cef/src/runtime.rs:306-327 | once a bounded revocation succeeded no dispatch body is running or ever runs again |
| Session.ShutdownIsSafe | src/jfn_cef/src/runtime.rs:409-423 | native shutdown happens at most once, only drained with no permit out, and after a confirmed close if an overlay was ever registered |
| Session.ClosersExclude | src/jfn_cef/src/web_overlay.rs:310-363 | one closer at a time is past the close lock, and no dispatch runs beside its close |
| Session.DrainedMeansClosed | src/jfn_cef/src/runtime.rs:280-304 | a registered overlay whose close was not confirmed leaves the session undrained |
| Session.SuccessIsDrained | src/jfn_cef/src/web_overlay.rs:310-363 | a close that answered success, however the others interleaved, has drained the session for good |
| Session.CloseReturns | src/jfn_cef/src/web_overlay.rs:310-363 | a close called in any reachable state and left alone returns within eight steps, with the answer that state determines, the lock as it was, and the session drained exactly on success |
| Session.ShutdownReturns | src/jfn_cef/src/runtime.rs:409-423 | a shutdown call left alone returns within five steps, and succeeds exactly if it had before or nobody is inside and no overlay is left to close |
| Session.CloseThenShutdown | src/jfn_cef/src/runtime.rs:409-423 | from a reachable state with an overlay, nobody inside and the lock free, a close that succeeds and a shutdown end with one native shutdown |
| Session.RevocationIsSeen | src/jfn_cef/src/runtime.rs:306-314 | a revocation leaves a session that admits no dispatch, then or in any later state |
| Session.WaitsForBodies | src/jfn_cef/src/runtime.rs:316-327 | while a body runs both waits go on until their deadline, and then give up |
| Session.SecondLookReturns | src/jfn_cef/src/web_overlay.rs:318-323 | a closer that takes the lock after another drained the session returns success and frees the lock |
| Session.OpenUntilRevoked | src/jfn_cef/src/runtime.rs:280-299 | until the first revocation every dispatch is admitted, every return leaves, and the overlay is the registered one |
| SessionObjects.Session.RegisterOverlay | src/jfn_cef/src/runtime.rs:280-286 | equals `RegisterOverlay`: once, and only while active |
| SessionObjects.Session.Acquire | src/jfn_cef/src/runtime.rs:288-294 | equals `Enter`: a permit while active, a refusal otherwise |
| SessionObjects.Session.Release | src/jfn_cef/src/runtime.rs:230-238 | equals `Leave` |
| SessionObjects.Session.Revoke | src/jfn_cef/src/runtime.rs:306-314 | equals `Revoke`: drained without an overlay, closing with one |
| SessionObjects.Session.Drain | src/jfn_cef/src/runtime.rs:300-304 | drained if the close succeeded or there was nothing to close, closing otherwise, the permits untouched |
| SessionObjects.Session.IsDrained | src/jfn_cef/src/runtime.rs:335-341 | equals `IsDrained` |
| Pixels.ClipInPlace | src/gpu_paint/src/painter.rs:744-771 | the clipping over locals equals the per-axis specification, with wrapping sums |
| Pixels.ClipAgrees | src/gpu_paint/src/types.rs:109-123 | the uploader draws the plain intersection exactly when no axis wraps into view |
| Pixels.ClipDisagreesOnHugeRect | src/gpu_paint/src/types.rs:168-174 | a rectangle on which the two differ |
| Pixels.ClipMissesNothing | src/gpu_paint/src/painter.rs:744-771 | wrapping never drops a damaged pixel inside the bound |
| Pixels.DrawnShows | src/gpu_paint/src/painter.rs:200-206 | a rectangle is drawn exactly when on each axis its span reaches into the bound or wraps into it from below, by its coordinates |
| Pixels.SliceFits | src/gpu_paint/src/painter.rs:704-721 | the one buffer check bounds every slice taken for a rectangle inside the frame |
| Pixels.SliceHolds | src/gpu_paint/src/painter.rs:773-785 | the slice holds each pixel of its rectangle where the copy reads it |
| Upload.DrawnFits | src/gpu_paint/src/painter.rs:194-209 | a drawn rectangle stays inside frame, texture and buffer exactly unless it is oversized |
| Upload.DamageAborts | src/gpu_paint/src/painter.rs:194-209 | copying the damage fails exactly on an oversized rectangle |
| Upload.DamageAt | src/gpu_paint/src/painter.rs:194-209 | every damaged texel inside the frame shows the frame, and no texel changes to anything else |
| Upload.PatchIsFullUpload | src/gpu_paint/src/painter.rs:194-209 | on a texture holding the previous frame, honest damage leaves exactly what a full upload would |
| Upload.PatchingRefinesFullUpload | src/gpu_paint/src/painter.rs:379-446 | after any run of frames, resizes and detaches with honest damage, the texture equals full uploads of its frames, so the current frame is all there |
| Upload.AbortsExactlyOnOversized | src/gpu_paint/src/painter.rs:427-446 | a frame ends the process exactly when it is patched with a visible oversized rectangle |
| Upload.OversizedFrameAborts | src/gpu_paint/src/painter.rs:427-446 | a second frame with a rectangle past the largest i32 ends the process |
| Upload.KindIsLatched | src/gpu_paint/src/painter.rs:352-369 | the kind of the first frame stays for every run, and shared frames never touch the texture's frames |
| Upload.CompositeAt | src/gpu_paint/src/painter.rs:390-409 | every texel shows the newest frame that reached it since the texture was made, and is clear where none did |
| Upload.StripIsClear | src/gpu_paint/src/painter.rs:32-37 | in every honest run the strip is transparent exactly when the newest frame to reach each of its texels was clear there; so when no frame since the texture was made was larger within it, and with opaque frames only then |
| Upload.UntouchedExactlyWhenNoneLarger | src/gpu_paint/src/painter.rs:390-409 | no frame reaches the strip exactly when none is larger than the newest, both clipped to the texture |
| Upload.ShrunkFrameLeavesStalePixels | src/gpu_paint/src/painter.rs:390-409 | a run with honest damage in which the strip shows an earlier frame |
| Extent.AcceptedFrameSetsExtent | src/gpu_paint/src/painter.rs:379-408 | in every run an accepted frame leaves surface and texture exactly as large as the target's policy says: the frame, or the size the target was last given |
| Extent.AcceptedSharedSetsExtent | src/gpu_paint/src/painter.rs:379-408 | and so does a shared one |
| Extent.OwnedSurfaceIsItsTarget | src/gpu_paint/src/painter.rs:320-336 | a surface its owner configures is at every point as large as its target was last made, within the device's limit |
| Extent.AcceptedExactly | src/gpu_paint/src/painter.rs:362-433 | a frame is taken exactly if it is of the surface's kind, of an extent the device holds, and backed by its buffer |
| Extent.ConfiguresExactly | src/gpu_paint/src/painter.rs:379-408 | a painter configures for a frame exactly if the extent moves or the binding was severed |
| Extent.DetachedIsRebound | src/gpu_paint/src/painter.rs:338-350 | after content is detached the next frame a painter accepts has rebound it, whatever came between |
| Extent.MovedExtentIsTheTarget | src/gpu_paint/src/painter.rs:393-408 | a frame that moves the extent of a surface that follows it is what the surface then takes its target to be |
| UploadObjects.WriteTexture | src/gpu_paint/src/painter.rs:782-808 | the copy writes each texel of the rectangle from its offset and no other |
| UploadObjects.UploadTexture.WriteRect | src/gpu_paint/src/painter.rs:773-808 | equals `CopyRect`, or aborts exactly as `Aborts` says |
| UploadObjects.UploadTexture.Write | src/gpu_paint/src/painter.rs:194-209 | equals `Write`: whole without a base or damage, else rectangle by rectangle |
| UploadObjects.Surface.ReconfigureTo | src/gpu_paint/src/painter.rs:393-409 | equals `ReconfigureTo`; the texture is dropped exactly when the extent moves |
| UploadObjects.Surface.Resize | src/gpu_paint/src/painter.rs:329-336 | equals `Resize` |
| UploadObjects.Surface.ContentDetached | src/gpu_paint/src/painter.rs:346-348 | equals `ContentDetached` |
| UploadObjects.Surface.Latch | src/gpu_paint/src/painter.rs:359-369 | equals `Latch` |
| UploadObjects.Surface.ExtentFor | src/gpu_paint/src/painter.rs:379-388 | equals `ExtentFor` |
| UploadObjects.Surface.TakeUpload | src/gpu_paint/src/painter.rs:493-526 | equals `TakeUpload`: the texture at exactly the extent, or a fresh one that needs a base |
| UploadObjects.Surface.PresentPixels | src/gpu_paint/src/painter.rs:427-446 | equals `PresentPixels` in surface and outcome |
| Redact.ElideMeans | src/logging/src/redact.rs:50-65 | one pass changes nothing but tokens of its rule and leaves none of them standing |
| Redact.StaysCovered | src/logging/src/redact.rs:15-40 | a byte hidden by an earlier rule is still inside some token after a later pass |
| Redact.RulesAreCompatible | src/logging/src/redact.rs:12-40 | no needle holds the filler or repeats its first byte, and each rule runs through what the earlier ones stop at, the JSON rule last |
| Redact.CensorRedacts | src/logging/src/redact.rs:79-83 | in the output every byte in a token of any of the six rules is the filler, and every other byte is the original |
| Redact.CensorIsIdempotent | src/logging/src/redact.rs:79-83 | censoring twice is censoring once |
| Redact.GateRedactsUnless | src/logging/src/lib.rs:638-645 | the gated record is redacted exactly unless the gate says no and a later occurrence has a token in the clear |
| Redact.GateMissesSecondToken | src/logging/src/redact.rs:67-77 | a record the gate passes with a token in the clear |
| Redact.ContainsSecretScan | src/logging/src/redact.rs:67-77 | the loop over the rules answers whether some needle's first occurrence has a token |
| Redact.Elide | src/logging/src/redact.rs:50-65 | the in-place pass equals `ElideFrom` from the start of the buffer |
| Redact.CensorInPlace | src/logging/src/redact.rs:79-83 | the six passes on one buffer equal `Censor` |
| SaveWorker.WritesAreASubsequence | src/config/src/lib.rs:519-603 | in every interleaving the background writes are an in-order subsequence of the snapshots accepted |
| SaveWorker.NewestIsNeverDropped | src/config/src/lib.rs:519-603 | the last snapshot accepted is waiting, being written or the last one written |
| SaveWorker.LandedKeepsTheNewest | src/config/src/lib.rs:580-618 | of what lands in the mailbox the newest before the stop survives |
| SaveWorker.LoopEndsEmpty | src/config/src/lib.rs:519-528 | the worker's loop ends only stopped, with nothing queued |
| SaveWorker.LoopWritesTheNewest | src/config/src/lib.rs:519-528 | the loop writes in order and leaves out only what something newer replaced: what was last taken before the stop is written or still queued |
| SaveWorker.LoopWritesEveryRound | src/config/src/lib.rs:519-528 | and it writes once for every wait that finds something |
| SaveWorker.ShutdownDrains | src/config/src/lib.rs:605-618 | when the shutdown call that set `stop` returns, the slot is empty, no worker runs, the last write is the last snapshot accepted, and so it stays |
| SaveWorker.JoinEnds | src/config/src/lib.rs:519-618 | a joining shutdown waits for at most four worker steps, which write what was queued |
| SaveWorker.SaveReturns | src/config/src/lib.rs:580-603 | a save that finds the lock free is over in three steps, handed over exactly if nobody stopped the mailbox, with a worker to write it |
| SaveWorker.ShutdownReturns | src/config/src/lib.rs:605-618 | a shutdown call returns at once if there is nothing to stop, and otherwise with the worker gone and all in hand and queued written |
| SaveWorker.SettingsAreTheHistory | src/config/src/lib.rs:541-548 | in every run the settings are at the first path set, with the last text, in a version for every change |
| SaveWorker.ExitFindsSlotEmpty | src/config/src/lib.rs:519-528 | the worker ends only stopped, with the slot empty and everything written |
| SaveWorkerObjects.Mailbox.Offer | src/config/src/lib.rs:580-603 | the slot takes the newest snapshot unless stopped |
| SaveWorkerObjects.Mailbox.Take | src/config/src/lib.rs:519-528 | the wait hands out the snapshot and empties the slot; nothing is handed out only once stopped |
| SaveWorkerObjects.Mailbox.SetStop | src/config/src/lib.rs:605-618 | true for the first call alone |
| SaveWorkerObjects.Mailbox.Loop | src/config/src/lib.rs:519-528 | the loop, whatever lands between its waits, equals `Looped` in what it writes, what it leaves and whether it ended |
| SaveWorkerObjects.Mailbox.DrainLoop | src/config/src/lib.rs:519-528 | on a mailbox already stopped the loop writes what was queued and ends |
| SettingsDisk.OvertakenExactlyInBetween | src/config/src/lib.rs:566-603 | of a saver about to give its clone away, to the mailbox or the file: something newer was given before exactly when, after its clone, the settings changed and a clone taken after that was given |
| SettingsDisk.OnDiskIsOldExactly | src/config/src/lib.rs:519-603 | in every run what is on disk is the clone last written, and something newer was given away exactly when the settings changed after that clone and a later clone was given |
| SettingsDisk.LastGivenStaysExactlyUnlessOwed | src/config/src/lib.rs:566-618 | once shutdown has returned, the last clone given away is on disk, unless it was written past the mailbox while the worker owed a write, and then the worker's is |
| SettingsDisk.NewestStaysExactlyUnlessOvertaken | src/config/src/lib.rs:566-618 | so the newest clone given away is what stays on disk exactly unless, by the act that gave the last one, the settings had changed after the clone that stays was taken and a later clone had been given |
| SettingsDisk.SerialSavesKeepVersionOrder | src/config/src/lib.rs:566-603 | savers of either kind that do not overlap give their clones away in version order |
| SettingsDisk.ExitSaveCanBeOverwritten | src/jfn_rust/src/app.rs:786-808 | a run in which the save at exit writes the newest settings and the worker an older snapshot after them, and shutdown has returned |
| SettingsDisk.OlderCanStay | src/config/src/lib.rs:580-618 | a run in which an older version is accepted after a newer one, is all that is written, and shutdown has returned |
| Manager.NoLostWakeup | src/jfn_rust/src/manager.rs:165-191 | a parked manager with no sender between push and signal has handled everything pushed, and after a shutdown request is about to be notified |
| Manager.HandledInOrder | src/jfn_rust/src/manager.rs:165-191 | messages are handled in push order up to and including the first shutdown, which ends the loop and closes once |
| Manager.HiddenMatchesState | src/jfn_rust/src/manager.rs:193-225 | before shutdown the overlay is hidden exactly in the hidden and suspended states, and every call flips what it was told |
| Manager.StateIsTheHistory | src/jfn_rust/src/manager.rs:193-225 | the state read off the messages: shut down by a shutdown, suspended exactly when the last suspension or resume suspends, hidden exactly after an unsuspended hiding neither shown nor suspended since |
| Manager.StateIsStateAfter | src/jfn_rust/src/manager.rs:170-191 | in every run without a failed close the manager's state is that reading of the messages handled |
| Manager.QuiescesServed | src/jfn_rust/src/manager.rs:170-191 | left to itself the loop parks or ends within a bounded number of its own steps, with everything served and a notified shutdown carried out |
| Manager.ProcessingIsHandleAll | src/jfn_rust/src/manager.rs:183-188 | the loop's steps over the messages taken are one pass of `HandleAll` |
| Manager.PushedIsWhatWasSent | src/jfn_rust/src/manager.rs:165-191 | in every run what the manager takes is what the senders pushed, in order, with at most one shutdown of its own, put in only once one was requested |
| Manager.EndsByItsClose | src/jfn_rust/src/manager.rs:165-225 | the loop ends in the step that called the close, well exactly if it delivered |
| Manager.RunsHiddenExactlyAfterResume | src/jfn_rust/src/manager.rs:193-225 | the manager runs a window that last reported itself hidden exactly after a resume that ended a suspension of it, with no report or suspension since |
| Manager.ResumeShowsHiddenWindow | src/jfn_rust/src/manager.rs:193-225 | in every run a resume taken in the suspended state shows the overlay, whatever the window last reported |
| ManagerObjects.Manager.Send | src/jfn_rust/src/manager.rs:165-168 | the message is queued behind the others and the wake is set |
| ManagerObjects.Manager.Turn | src/jfn_rust/src/manager.rs:170-191 | one turn drains the wake, takes the queue with a shutdown behind it if requested, and equals `HandleAll` over it |
| Discord.AttemptsAreSpaced | src/discord/src/sink.rs:129-183 | consecutive pushes, successful or not and across reconnections, are at least four seconds apart |
| Discord.WithinRateLimit | src/discord/src/sink.rs:38-40 | no half-open window of twenty seconds holds more than five pushes |
| Discord.OverLimitExactlyByTheClear | src/discord/src/sink.rs:179-182 | in every reachable state, a stop puts more than five requests in some window exactly when the connection is live and the fifth last push is less than twenty seconds before the clear |
| Discord.ClearCanBeTheSixth | src/discord/src/sink.rs:179-182 | a run whose first window holds six requests |
| Discord.BackoffFollowsFailures | src/discord/src/sink.rs:42-43 | the pause doubles with each failure since the last connection, from five seconds up to sixty |
| Discord.ShownIsCurrent | src/discord/src/sink.rs:147-176 | connected with nothing pending, the last request this connection took, or the nothing it starts with, renders the current view |
| Discord.WaitsOnlyForTheThrottle | src/discord/src/sink.rs:164-176 | a turn leaves an update waiting on a live connection only within four seconds of the last push |
| Discord.RetriesAfterThePause | src/discord/src/sink.rs:142-180 | from any reachable outage nothing is tried before the pause is over; the first turn past it fails into the doubled pause counted from that failure, or connects and pushes the view at once |
| Discord.PushesWhenOwed | src/discord/src/sink.rs:158-176 | a turn on a live connection pushes exactly when something is owed and the interval is over, and what it pushes renders the view |
| Discord.StoppedForEver | src/discord/src/sink.rs:143-180 | a stop ends the worker for good, with a clear exactly on a live connection |
| Discord.ChangedMeansMoved | src/discord/src/sink.rs:187-268 | a push is owed exactly when the view moved, to the projection of the new state; the snapshot is always the event's |
| Discord.FirstAnnouncementStays | src/discord/src/sink.rs:198-207 | over any run, repeated metadata of one item never replaces the first |
| Discord.ContentIsLastAnnounced | src/discord/src/sink.rs:200-213 | the content is what the last event that opened an item announced, read off the events alone |
| Discord.ViewIsLastProjection | src/discord/src/sink.rs:187-277 | the view is the projection at the last event that tells anything, of the item announced by then and that event's own snapshot and settings, both read off the events alone |
| DiscordObjects.Worker.Receive | src/discord/src/sink.rs:138-147 | equals `Receive` |
| DiscordObjects.Worker.TryConnect | src/discord/src/sink.rs:149-162 | equals `TryConnect` |
| DiscordObjects.Worker.TryPush | src/discord/src/sink.rs:164-176 | equals `TryPush` |
| DiscordObjects.Worker.Turn | src/discord/src/sink.rs:138-177 | equals `Next`, and stops exactly on a stop message |
| DiscordObjects.Worker.Loop | src/discord/src/sink.rs:138-182 | the loop equals `Run` over the turns taken, up to the first stop |
| LogFiles.BackupsAreTheLastFiles | src/logging/src/lib.rs:76-128 | the files closed and the current one hold exactly the records written, and the backups are the last of those files, newest first, then what the run found |
| LogFiles.OnlyOversizedRecordsGoOver | src/logging/src/lib.rs:114-128 | a file over the limit holds exactly one record, and no file was closed with room for the next record, except exactly under the largest limit, where no file is ever closed, once more than one record together go over it |
| LogFiles.ChainIsASuffix | src/logging/src/lib.rs:76-128 | oldest to newest, backups and current file are a suffix of the stream, records of earlier runs included |
| LogFiles.ShiftDropsTheOldest | src/logging/src/lib.rs:100-106 | a shift drops the oldest file of the chain and nothing else |
| LogFiles.OthersAreSpared | src/logging/src/lib.rs:100-106 | over any run the files beside the chain stay as they were found, but that with no backups asked for number zero is removed |
| LogFiles.ClosesEmptyExactlyOnOversized | src/logging/src/lib.rs:117-124 | an empty file is closed exactly by a record over the limit, which no record is at the largest limit |
| LogFilesObjects.RotatingFile.constructor | src/logging/src/lib.rs:77-89 | equals `Open`: the earlier run's file shifts and a fresh one is current |
| LogFilesObjects.RotatingFile.ShiftBackups | src/logging/src/lib.rs:100-106 | the removal and the loop of renames equal `Shifted`, for any number of backups, holes included |
| LogFilesObjects.RotatingFile.Rotate | src/logging/src/lib.rs:91-97 | equals `Rotate` |
| LogFilesObjects.RotatingFile.Write | src/logging/src/lib.rs:117-124 | equals `Write`: rotates before a record that would cross the limit |
| LineSplitter.ChunkingIsInvisible | src/logging/src/lib.rs:214-247 | for every chunking, the lines emitted and the bytes kept are those of the whole stream read byte by byte |
| LineSplitter.SameStreamSameLines | src/logging/src/lib.rs:214-247 | two chunkings of one stream emit the same lines |
| LineSplitter.NothingIsLost | src/logging/src/lib.rs:214-247 | the lines emitted, each with its newline, and what is kept are the stream itself without its blank lines |
| LineSplitter.KeepsTheTail | src/logging/src/lib.rs:236-243 | what is kept is the tail after the last newline, and what is emitted is whole, non-empty lines |
| LineSplitterObjects.Capture.Read | src/logging/src/lib.rs:235-243 | the draining loop equals `Feed` |
| Scroll.PreciseLeavesHalfExactlyInRange | src/input/src/scroll.rs:113-117 | a precise flush leaves at most half a unit exactly when the delta is within half a unit of the 32-bit range |
| Scroll.LineNeverOvershoots | src/input/src/scroll.rs:118-126 | a line flush takes no more than there is, in its direction |
| Scroll.LineTakesFromAUnit | src/input/src/scroll.rs:118-126 | a line flush takes something exactly from a whole unit up |
| Scroll.HalfGoesOut | src/input/src/scroll.rs:108-134 | rounding takes a half away from zero, both signs alike |
| Scroll.LineTakesItsShare | src/input/src/scroll.rs:117-134 | within range a line flush takes the nearest to 45 hundredths, a whole unit at least, and leaves nothing or half a unit |
| Scroll.ChunkIsAtLastWheel | src/input/src/scroll.rs:64-148 | in every run a chunk goes out where the last event was, with its modifiers and of its kind |
| Scroll.ScrollIsConserved | src/input/src/scroll.rs:68-146 | what was scrolled, a line as forty pixels, is what the chunks forwarded carry, what is carried on and what line flushes zeroed, less than half a unit each |
| Scroll.OneFlushPerBurst | src/input/src/scroll.rs:85-92 | since the last flush exactly the first event asked for one |
| Scroll.PendingIsCarried | src/input/src/scroll.rs:104-136 | nothing pending means nothing carried and a flush that emits nothing; after a flush, pending is what is carried |
| Scroll.LineFlushesSettle | src/input/src/scroll.rs:118-134 | line flushes bring both axes below one unit within as many flushes as there are whole units |
| Scroll.LineFlushesNeverTurn | src/input/src/scroll.rs:116-133 | however many line flushes run, neither axis grows or changes sign |
| Scroll.SettledFlush | src/input/src/scroll.rs:118-140 | below one unit a line flush emits nothing and a second changes nothing |
| ScrollObjects.ScrollAccum.Accumulate | src/input/src/scroll.rs:68-93 | equals `Accumulate` |
| ScrollObjects.ScrollAccum.Flush | src/input/src/scroll.rs:104-146 | equals `Flush` |
| Utf16.FeedIsDecode | src/input/src/text.rs:17-33 | on any units, feeding gives the decoding of section 2.2 of RFC 2781 with unpaired surrogates dropped |
| Utf16.FeedEncodedRoundTrip | src/input/src/text.rs:17-33 | feeding the encoding of any characters gives them back, with nothing left waiting |
| Utf16.ReEncodesExactlyWellFormed | src/input/src/text.rs:17-33 | encoding what was fed gives the units back exactly when every surrogate was paired |
| Utf16Objects.Utf16.Feed | src/input/src/text.rs:21-33 | equals `Feed` |
| WebFocus.AnnouncedSinkHoldsTheBelief | src/input/src/sink.rs:127-195 | in every interleaving, between reports a live and announced browser holds what was last reported: the window's focus with no modal open |
| WebFocus.FocusIsTheLastReports | src/input/src/sink.rs:156-181 | in every run the two flags are the last window and modal reports begun |
| WebFocus.CreatedTooLateIsNeverTold | src/jfn_cef/src/client/lifecycle.rs:46-78 | a browser created once the session was revoked is never announced and never told anything |
| WebFocus.NeverHandedTwice | src/input/src/sink.rs:156-169 | between two announcements no value is handed over twice in a row |
| WebFocus.FinishedReportNeverMisleads | src/input/src/sink.rs:156-169 | a report that finishes on a live sink leaves it the belief or told nothing, never the opposite |
| WebFocus.ReportSkipsExactlyAnUntoldSuccessor | src/input/src/sink.rs:156-169 | at the step that compares the belief, whatever was destroyed or created since the report began, the report ends on a live sink not holding the belief exactly when that browser was told nothing and its predecessor took the same belief |
| WebFocus.HandOverReachesExactlyWhoStays | src/input/src/sink.rs:156-169 | a report past its comparison, whatever interleaves, ends on a live sink holding the belief exactly unless the browser was gone at some point between the hand-over and its record |
| WebFocus.HandOverCanReachNobody | src/input/src/sink.rs:156-169 | a run in which the browser handed the focus is replaced before the record, and the live one has been told nothing |
| WebFocus.LoneReportSkipsExactlyAnUntoldSuccessor | src/input/src/sink.rs:156-169 | the same condition for a report with nothing between its steps, on the state before the call |
| WebFocus.SuccessorCanBeSkipped | src/input/src/sink.rs:156-169 | a run in which a live browser is left untold by a report |
| WebFocus.AnnouncementTellsTheSuccessor | src/input/src/sink.rs:171-176 | a browser's own announcement leaves it holding the belief |
| WebFocusObjects.WebSink.SetFocus | src/jfn_cef/src/client/ops.rs:30-34 | a live browser takes the focus, an absent one takes nothing |
| WebFocusObjects.WebFocus.Report | src/input/src/sink.rs:156-169 | the report under the lock equals `ReportAlone` in focus, hand-overs and what the browser holds |

## Left out

- Protocol.UndeliveredClosesTheGap: claims nothing after a request's delivery failed, because the shell drops the rest of the batch and starts process shutdown.
- BrowserObjects.Overlay.EnsureBrowser: does not model the view's size, which is applied to the client before its browser exists.
- SaveWorkerObjects.Mailbox.DrainLoop: only the loop on a mailbox already stopped; `Loop` is the whole loop, whatever lands between its waits.
- 64-bit counters (probe cycles, navigations, settings versions, bytes written) never overflow.
- The network behind a probe is an environment that may answer any cycle with anything at any time.
- Popups, accelerated textures, drawing, presenting and surface loss; a presentation either happens or does not.
- The device's texture limit is taken to be at most the largest 32-bit signed value.
- Bytes are modelled as the characters they encode in the redaction and log models; invalid UTF-8 replacement is not modelled.
- Partial file writes, failed file creation and I/O errors; a write takes the whole record.
- The last line of standard error without a newline is kept and never emitted, as in the code; the poll and pipe around it are not modelled.
- Rounding of floating-point scroll deltas; they are exact reals.
- The projection of playback state to an activity is a parameter; timestamps, image URLs and the IPC payload are not modelled.
- The wake event is a latched flag and the settings mailbox one atomic update or wait, as their documentation promises.
- `track_producer`, `wait_for_producers` and the drain barrier inside a close; the close body is one step that succeeds or fails.
- Shell-state listeners and their subscriptions; only the keyboard-focus report is modelled.
- Device profiles, settings fields and their JSON, device-name normalisation, injected scripts, key tables, theme colours and the paint scheduler.
