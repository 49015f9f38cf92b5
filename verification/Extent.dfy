// How large the surface is: the frame's size or the target's, by its policy and
// by who may configure it.
module Extent {
  import opened Wrappers
  import opened Pixels
  import opened Upload

  // The target's size: the last positive one set, or the one it was made with.
  function TargetSize(w: nat, h: nat, events: seq<Event>): (nat, nat)
    decreases |events|
  {
    if events == [] then (w, h)
    else
      match events[|events| - 1]
      case Resized(rw, rh) => if rw > 0 && rh > 0 then (rw, rh) else TargetSize(w, h, events[..|events| - 1])
      case _ => TargetSize(w, h, events[..|events| - 1])
  }

  // As near to `size` as the device allows.
  function Held(size: (nat, nat), max: nat): (nat, nat)
    requires max >= 1
  {
    (if size.0 < 1 then 1 else Min(size.0, max), if size.1 < 1 then 1 else Min(size.1, max))
  }

  function ExtentOf(s: Surface): (nat, nat) {
    (s.width, s.height)
  }

  // What a surface knows of its target: the painter stores it, the owner's
  // surface is it.
  predicate Follows(s: Surface, size: (nat, nat))
    requires s.maxDim >= 1
  {
    && (s.site.Painter? && s.policy.FollowTarget? ==> (s.pendingW, s.pendingH) == size)
    && (s.site.Owner? ==> ExtentOf(s) == Held(size, s.maxDim))
  }

  predicate SameTarget(s: Surface, s1: Surface) {
    s1.policy == s.policy && s1.site == s.site && s1.maxDim == s.maxDim
  }

  lemma {:induction false} ReconfiguredFollows(s: Surface, cw: nat, ch: nat, size: (nat, nat))
    requires s.maxDim >= 1 && s.site.Painter? && Follows(s, size)
    ensures SameTarget(s, ReconfigureTo(s, cw, ch)) && Follows(ReconfigureTo(s, cw, ch), size)
  {
  }

  lemma {:induction false} ExtentForFollows(s: Surface, w: nat, h: nat, size: (nat, nat))
    requires Valid(s) && 1 <= w <= s.maxDim && 1 <= h <= s.maxDim && Follows(s, size)
    ensures var s1 := ExtentFor(s, w, h);
      && SameTarget(s, s1) && Follows(s1, size)
      && ExtentOf(s1) == if s.site.Painter? && s.policy.FollowFrame? then (w, h)
                         else if s.site.Painter? then Held(size, s.maxDim) else ExtentOf(s)
  {
    if s.site.Painter? {
      var (cw, ch) := if s.policy.FollowFrame? then (w, h) else Held(size, s.maxDim);
      ReconfiguredFollows(s, cw, ch, size);
    }
  }

  lemma {:induction false} FrameFollows(s: Surface, f: Frame, size: (nat, nat))
    requires Valid(s) && Follows(s, size)
    ensures var (s1, outcome) := PresentPixels(s, f); SameTarget(s, s1) && Follows(s1, size)
  {
    var s0 := s.(mode := Some(Copied));
    if Latch(s, Copied).Some? && ExtentOk(s0, f.w, f.h) && Backed(f) {
      ExtentForFollows(s0, f.w, f.h, size);
    }
  }

  lemma {:induction false} SharedFollows(s: Surface, w: int32, h: int32, size: (nat, nat))
    requires Valid(s) && Follows(s, size)
    ensures var (s1, outcome) := PresentShared(s, w, h); SameTarget(s, s1) && Follows(s1, size)
  {
    var s0 := s.(mode := Some(Shared));
    if Latch(s, Shared).Some? && ExtentOk(s0, w, h) {
      ExtentForFollows(s0, w, h, size);
    }
  }

  lemma {:induction false} ResizeFollows(s: Surface, w: int32, h: int32, size: (nat, nat))
    requires Valid(s) && Follows(s, size)
    ensures var s1 := Resize(s, w, h); SameTarget(s, s1) && Follows(s1, if w > 0 && h > 0 then (w, h) else size)
  {
  }

  lemma {:induction false} NextFollows(t: Tracked, e: Event, size: (nat, nat))
    requires Valid(t.surface) && t.alive && Follows(t.surface, size)
    ensures var s1 := Next(t, e).surface;
      SameTarget(t.surface, s1) && Follows(s1, if e.Resized? && e.w > 0 && e.h > 0 then (e.w, e.h) else size)
  {
    match e
    case Pixel(f) => FrameFollows(t.surface, f, size);
    case SharedFrame(w, h) => SharedFollows(t.surface, w, h, size);
    case Resized(w, h) => ResizeFollows(t.surface, w, h, size);
    case Detached =>
  }

  lemma {:induction false} RunFollows(s: Surface, events: seq<Event>)
    requires Valid(s) && Follows(s, ExtentOf(s)) && Run(Start(s), events).alive
    ensures var s1 := Run(Start(s), events).surface; SameTarget(s, s1) && Follows(s1, TargetSize(s.width, s.height, events))
    decreases |events|
  {
    if events != [] {
      var before := events[..|events| - 1];
      RunFollows(s, before);
      NextFollows(Run(Start(s), before), events[|events| - 1], TargetSize(s.width, s.height, before));
    }
  }

  // ----- results -----

  // A surface that its owner configures is, at every point of every run, as large
  // as its target was last made, within the device's limit.
  lemma {:induction false} OwnedSurfaceIsItsTarget(w: int32, h: int32, maxDim: nat, events: seq<Event>)
    requires 1 <= maxDim <= 0x7FFF_FFFF && New(CoreAnimationLayer, w, h, maxDim).Some?
    requires Run(Start(New(CoreAnimationLayer, w, h, maxDim).value), events).alive
    ensures ExtentOf(Run(Start(New(CoreAnimationLayer, w, h, maxDim).value), events).surface) ==
            Held(TargetSize(w, h, events), maxDim)
  {
    RunFollows(New(CoreAnimationLayer, w, h, maxDim).value, events);
  }

  // The extent a frame is shown in, if it is accepted at the end of a run.
  function FrameExtent(target: Target, w: nat, h: nat, maxDim: nat, events: seq<Event>, frame: (nat, nat)): (nat, nat)
    requires maxDim >= 1
  {
    match target
    case Wayland => frame
    case CompositionVisual => frame
    case Xcb => Held(TargetSize(w, h, events), maxDim)
    case CoreAnimationLayer => Held(TargetSize(w, h, events), maxDim)
  }

  // In every run an accepted frame leaves the surface, and the texture it was
  // written to, exactly as large as its target's policy says: the frame itself,
  // or the size the target was last given.
  lemma {:induction false} AcceptedFrameSetsExtent(target: Target, w: int32, h: int32, maxDim: nat, events: seq<Event>, f: Frame)
    requires 1 <= maxDim <= 0x7FFF_FFFF && New(target, w, h, maxDim).Some?
    requires var t := Run(Start(New(target, w, h, maxDim).value), events); t.alive && PresentPixels(t.surface, f).1.Accepted?
    ensures var s := Next(Run(Start(New(target, w, h, maxDim).value), events), Pixel(f)).surface;
      && 1 <= f.w && 1 <= f.h
      && ExtentOf(s) == FrameExtent(target, w, h, maxDim, events, (f.w, f.h))
      && s.upload.Some? && (s.upload.value.texture.w, s.upload.value.texture.h) == ExtentOf(s)
  {
    var s0 := New(target, w, h, maxDim).value;
    RunFollows(s0, events);
    var t := Run(Start(s0), events);
    AcceptedSurface(t.surface, f);
    ExtentForFollows(t.surface.(mode := Some(Copied)), f.w, f.h, TargetSize(w, h, events));
  }

  // And so does a shared one.
  lemma {:induction false} AcceptedSharedSetsExtent(
      target: Target, w: int32, h: int32, maxDim: nat, events: seq<Event>, fw: int32, fh: int32)
    requires 1 <= maxDim <= 0x7FFF_FFFF && New(target, w, h, maxDim).Some?
    requires var t := Run(Start(New(target, w, h, maxDim).value), events); t.alive && PresentShared(t.surface, fw, fh).1.Accepted?
    ensures var s := Next(Run(Start(New(target, w, h, maxDim).value), events), SharedFrame(fw, fh)).surface;
      1 <= fw && 1 <= fh && ExtentOf(s) == FrameExtent(target, w, h, maxDim, events, (fw, fh))
  {
    var s0 := New(target, w, h, maxDim).value;
    RunFollows(s0, events);
    var t := Run(Start(s0), events);
    ExtentForFollows(t.surface.(mode := Some(Shared)), fw, fh, TargetSize(w, h, events));
  }

  // A frame that moves the extent of a surface that follows it is what the surface
  // then takes its target to be.
  lemma {:induction false} MovedExtentIsTheTarget(s: Surface, f: Frame)
    requires Valid(s) && s.site.Painter? && s.policy.FollowFrame? && PresentPixels(s, f).1.Accepted?
    ensures var s1 := PresentPixels(s, f).0;
      (s1.pendingW, s1.pendingH) == if ExtentOf(s1) != ExtentOf(s) then (f.w, f.h) else (s.pendingW, s.pendingH)
  {
    AcceptedSurface(s, f);
  }

  // What is accepted: the surface's own kind, an extent the device holds, and for
  // pixels a buffer that covers it.
  lemma {:induction false} AcceptedExactly(s: Surface, f: Frame, w: int32, h: int32)
    requires Valid(s)
    ensures var outcome := PresentPixels(s, f).1;
      outcome.Accepted? || outcome.Aborted? <==>
      s.mode != Some(Shared) && 1 <= f.w <= s.maxDim && 1 <= f.h <= s.maxDim && Backed(f)
    ensures PresentShared(s, w, h).1.Accepted? <==> s.mode != Some(Copied) && 1 <= w <= s.maxDim && 1 <= h <= s.maxDim
  {
    match s.mode
    case None =>
    case Some(Shared) =>
    case Some(Copied) =>
  }

  // ----- a severed binding -----

  // A frame the painter configures for does so exactly if the extent moves or the
  // binding was severed, and the binding is then whole.
  lemma {:induction false} ConfiguresExactly(s: Surface, f: Frame)
    requires Valid(s) && s.site.Painter? && PresentPixels(s, f).1.Accepted?
    ensures var s1 := PresentPixels(s, f).0;
      && s1.configures == s.configures + (if ExtentOf(s1) != ExtentOf(s) || s.needsConfigure then 1 else 0)
      && !s1.needsConfigure
  {
    AcceptedSurface(s, f);
  }

  // The mark goes only with a configure.
  predicate Unbound(s: Surface, s1: Surface) {
    s1.configures >= s.configures && (s.needsConfigure ==> s1.needsConfigure || s1.configures > s.configures)
  }

  lemma {:induction false} FrameUnbound(s: Surface, f: Frame)
    requires Valid(s)
    ensures Unbound(s, PresentPixels(s, f).0)
  {
    var s0 := s.(mode := Some(Copied));
    assert ExtentOk(s0, f.w, f.h) ==> Unbound(s0, ExtentFor(s0, f.w, f.h));
  }

  lemma {:induction false} SharedUnbound(s: Surface, w: int32, h: int32)
    requires Valid(s)
    ensures Unbound(s, PresentShared(s, w, h).0)
  {
  }

  lemma {:induction false} NextUnbound(t: Tracked, e: Event)
    requires Valid(t.surface)
    ensures Unbound(t.surface, Next(t, e).surface)
  {
    if t.alive {
      match e
      case Pixel(f) => FrameUnbound(t.surface, f);
      case SharedFrame(w, h) => SharedUnbound(t.surface, w, h);
      case Resized(_, _) =>
      case Detached =>
    }
  }

  // After its content is detached a surface stays marked until it is configured, so
  // the next frame the painter accepts rebinds it, whatever came in between.
  lemma {:induction false} DetachedStaysSevered(t: Tracked, events: seq<Event>)
    requires Valid(t.surface) && t.alive && Run(Next(t, Detached), events).alive
    ensures var s1 := Run(Next(t, Detached), events).surface; s1.needsConfigure || s1.configures > t.surface.configures
    ensures Run(Next(t, Detached), events).surface.configures >= t.surface.configures
    decreases |events|
  {
    if events != [] {
      var before := events[..|events| - 1];
      DetachedStaysSevered(t, before);
      var t1 := Run(Next(t, Detached), before);
      NextUnbound(t1, events[|events| - 1]);
    }
  }

  lemma {:induction false} DetachedIsRebound(t: Tracked, events: seq<Event>, f: Frame)
    requires Valid(t.surface) && t.alive && Run(Next(t, Detached), events).alive
    requires var s := Run(Next(t, Detached), events).surface; s.site.Painter? && PresentPixels(s, f).1.Accepted?
    ensures var s1 := Next(Run(Next(t, Detached), events), Pixel(f)).surface;
      s1.configures > t.surface.configures && !s1.needsConfigure
  {
    DetachedStaysSevered(t, events);
    ConfiguresExactly(Run(Next(t, Detached), events).surface, f);
  }
}
