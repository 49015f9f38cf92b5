// The incremental pixel uploader: a persistent texture patched with clipped
// dirty rectangles. `Pixels` holds the arithmetic on one frame, `Upload` the
// surface over whole runs, `UploadObjects` the code that updates it in place.
module Pixels {
  import opened Wrappers

  type int32 = x: int | -0x8000_0000 <= x < 0x8000_0000
  type byte = x: int | 0 <= x < 0x100

  // Release-mode i32 arithmetic.
  function Wrap(x: int): (r: int32)
    ensures -0x8000_0000 <= x < 0x8000_0000 ==> r == x
  {
    (x + 0x8000_0000) % 0x1_0000_0000 - 0x8000_0000
  }

  datatype Rect = Rect(x: int32, y: int32, w: int32, h: int32)

  datatype Texel = Texel(b: byte, g: byte, r: byte, a: byte)

  const CLEAR := Texel(0, 0, 0, 0)

  datatype Frame = Frame(w: int32, h: int32, stride: nat, bgra: seq<byte>, dirty: seq<Rect>)

  function Min(a: int, b: int): int {
    if a <= b then a else b
  }

  function Max(a: int, b: int): int {
    if a >= b then a else b
  }

  // ----- clipping -----

  // One axis of `clip_rect`: origin and length inside `0..bound`.
  function ClipAxis(x: int32, w: int32, bound: int32): (int32, int32)
    requires bound > 0
  {
    var n := Max(x, 0);
    var len0 := Wrap(w + Min(x, 0));
    var len1 := if Wrap(n + len0) > bound then Wrap(bound - n) else len0;
    var len2 := if len1 < 0 then 0 else len1;
    if n >= bound then (bound - 1, 0) else (n, len2)
  }

  function ClipRect(r: Rect, fw: int32, fh: int32): Rect
    requires fw > 0 && fh > 0
  {
    var (x, w) := ClipAxis(r.x, r.w, fw);
    var (y, h) := ClipAxis(r.y, r.h, fh);
    Rect(x, y, w, h)
  }

  // `clip_rect` itself: both axes at once, on locals that change in place.
  method ClipInPlace(x: int32, y: int32, w: int32, h: int32, fw: int32, fh: int32) returns (clipped: Rect)
    requires fw > 0 && fh > 0
    ensures clipped == ClipRect(Rect(x, y, w, h), fw, fh)
  {
    var nx: int32 := Max(x, 0);
    var ny: int32 := Max(y, 0);
    var nw := Wrap(w + Min(x, 0));
    var nh := Wrap(h + Min(y, 0));
    if Wrap(nx + nw) > fw {
      nw := Wrap(fw - nx);
    }
    if Wrap(ny + nh) > fh {
      nh := Wrap(fh - ny);
    }
    if nw < 0 {
      nw := 0;
    }
    if nh < 0 {
      nh := 0;
    }
    if nx >= fw {
      nx := fw - 1;
      nw := 0;
    }
    if ny >= fh {
      ny := fh - 1;
      nh := 0;
    }
    clipped := Rect(nx, ny, nw, nh);
  }

  // `DamageRect::clamped`, which computes in i64.
  function Clamped(r: Rect, width: int32, height: int32): Option<Rect> {
    var x0, y0 := Max(r.x, 0), Max(r.y, 0);
    var x1, y1 := Min(r.x + r.w, width), Min(r.y + r.h, height);
    if x1 <= x0 || y1 <= y0 then None else Some(Rect(x0, y0, x1 - x0, y1 - y0))
  }

  // What the uploader draws for a rectangle.
  function Drawn(r: Rect, fw: int32, fh: int32): Option<Rect>
    requires fw > 0 && fh > 0
  {
    var clipped := ClipRect(r, fw, fh);
    if clipped.w <= 0 || clipped.h <= 0 then None else Some(clipped)
  }

  // The far edge wraps past the buffer although the near edge is inside it.
  predicate WrapsBeyond(x: int32, w: int32, bound: int32) {
    0 <= x < bound && x + w > 0x7FFF_FFFF
  }

  // The length wraps from far below zero to above it.
  predicate WrapsBelow(x: int32, w: int32) {
    x < 0 && -0x1_0000_0000 < w + x < -0x8000_0000
  }

  predicate AxisFits(x: int32, w: int32, bound: int32) {
    !WrapsBeyond(x, w, bound) && !WrapsBelow(x, w)
  }

  predicate AxisEmpty(x: int32, w: int32, bound: int32) {
    Min(x + w, bound) <= Max(x, 0)
  }

  lemma {:induction false} ClipAxisIs(x: int32, w: int32, bound: int32)
    requires bound > 0
    ensures var (n, len) := ClipAxis(x, w, bound);
      && 0 <= n < bound && len >= 0
      && (AxisFits(x, w, bound) ==> if AxisEmpty(x, w, bound) then len == 0
                                    else n == Max(x, 0) && n + len == Min(x + w, bound))
      && (WrapsBeyond(x, w, bound) ==> n == x && len == w && n + len > 0x7FFF_FFFF)
      && (WrapsBelow(x, w) ==> n == 0 && 0 < len <= bound && AxisEmpty(x, w, bound))
  {
  }

  // What an axis draws something of, read off the coordinates: a span that
  // reaches into the bound, or one that wraps into it from below.
  predicate AxisShows(x: int32, w: int32, bound: int32) {
    (x < bound && w > 0 && x + w > 0) || WrapsBelow(x, w)
  }

  lemma {:induction false} DrawnShows(r: Rect, fw: int32, fh: int32)
    requires fw > 0 && fh > 0
    ensures Drawn(r, fw, fh).Some? <==> AxisShows(r.x, r.w, fw) && AxisShows(r.y, r.h, fh)
  {
    ClipAxisIs(r.x, r.w, fw);
    ClipAxisIs(r.y, r.h, fh);
  }

  // The uploader's clip is the plain intersection exactly when no axis wraps
  // into view: each axis fits, or the other one draws nothing anyway.
  lemma {:induction false} ClipAgrees(r: Rect, fw: int32, fh: int32)
    requires fw > 0 && fh > 0
    ensures Drawn(r, fw, fh) == Clamped(r, fw, fh) <==>
            || (AxisFits(r.x, r.w, fw) && AxisFits(r.y, r.h, fh))
            || (AxisFits(r.x, r.w, fw) && AxisEmpty(r.x, r.w, fw))
            || (AxisFits(r.y, r.h, fh) && AxisEmpty(r.y, r.h, fh))
  {
    ClipAxisIs(r.x, r.w, fw);
    ClipAxisIs(r.y, r.h, fh);
  }

  // A rectangle on which the two part.
  lemma {:induction false} ClipDisagreesOnHugeRect()
    ensures var r := Rect(1, 1, 0x7FFF_FFFF, 0x7FFF_FFFF);
      Clamped(r, 10, 10) == Some(Rect(1, 1, 9, 9)) && Drawn(r, 10, 10) == Some(r)
  {
  }

  predicate Covers(r: Rect, i: int, j: int) {
    r.x <= i < r.x + r.w && r.y <= j < r.y + r.h
  }

  // Wrapping never makes the uploader miss a damaged pixel.
  lemma {:induction false} ClipMissesNothing(r: Rect, fw: int32, fh: int32, i: int, j: int)
    requires fw > 0 && fh > 0 && 0 <= i < fw && 0 <= j < fh && Covers(r, i, j)
    ensures Drawn(r, fw, fh).Some? && Covers(Drawn(r, fw, fh).value, i, j)
  {
    ClipAxisIs(r.x, r.w, fw);
    ClipAxisIs(r.y, r.h, fh);
  }

  // ----- the buffer -----

  // The buffer covers its declared extent.
  predicate Backed(f: Frame) {
    f.w > 0 && f.h > 0 && f.stride >= f.w * 4 && |f.bgra| >= (f.h - 1) * f.stride + f.w * 4
  }

  function TexelAt(bytes: seq<byte>, at: int): Texel
    requires 0 <= at && at + 4 <= |bytes|
  {
    Texel(bytes[at], bytes[at + 1], bytes[at + 2], bytes[at + 3])
  }

  predicate Inside(f: Frame, i: int, j: int) {
    0 <= i < f.w && 0 <= j < f.h
  }

  lemma {:induction false} OffsetFits(f: Frame, i: int, j: int)
    requires Backed(f) && Inside(f, i, j)
    ensures 0 <= j * f.stride + 4 * i && j * f.stride + 4 * i + 4 <= |f.bgra|
  {
    MulMono(j, f.h - 1, f.stride);
  }

  lemma {:induction false} MulMono(a: int, b: int, c: int)
    requires a <= b && c >= 0
    ensures a * c <= b * c
  {
  }

  function PixelAt(f: Frame, i: int, j: int): Texel
    requires Backed(f) && Inside(f, i, j)
  {
    OffsetFits(f, i, j);
    TexelAt(f.bgra, j * f.stride + 4 * i)
  }

  // The bytes `write_rect` slices for a rectangle.
  function SliceStart(f: Frame, r: Rect): int {
    r.y * f.stride + r.x * 4
  }

  function SliceEnd(f: Frame, r: Rect): int {
    SliceStart(f, r) + (r.h - 1) * f.stride + r.w * 4
  }

  // One buffer check bounds every slice taken inside the frame, and the slice
  // holds each pixel of the rectangle where the copy looks for it.
  lemma {:induction false} SliceFits(f: Frame, r: Rect)
    requires Backed(f) && 0 <= r.x && 0 <= r.y && r.w > 0 && r.h > 0 && r.x + r.w <= f.w && r.y + r.h <= f.h
    ensures 0 <= SliceStart(f, r) <= SliceEnd(f, r) <= |f.bgra|
  {
    var rows := r.y + r.h - 1;
    assert r.y * f.stride + (r.h - 1) * f.stride == rows * f.stride;
    MulMono(rows, f.h - 1, f.stride);
    MulMono(0, r.y, f.stride);
    MulMono(0, r.h - 1, f.stride);
  }

  // Where the copy of a rectangle looks for a pixel in its slice.
  function Offset(r: Rect, stride: nat, i: int, j: int): int {
    (j - r.y) * stride + 4 * (i - r.x)
  }

  lemma {:induction false} SliceOffset(f: Frame, r: Rect, i: int, j: int)
    requires Backed(f) && 0 <= r.x && 0 <= r.y && r.w > 0 && r.h > 0 && Covers(r, i, j)
    ensures SliceStart(f, r) + Offset(r, f.stride, i, j) == j * f.stride + 4 * i
    ensures 0 <= Offset(r, f.stride, i, j)
    ensures Offset(r, f.stride, i, j) + 4 <= SliceEnd(f, r) - SliceStart(f, r)
  {
    assert (j - r.y) * f.stride + r.y * f.stride == j * f.stride;
    MulMono(0, j - r.y, f.stride);
    MulMono(j - r.y, r.h - 1, f.stride);
  }

  lemma {:induction false} SliceHolds(f: Frame, r: Rect, i: int, j: int)
    requires Backed(f) && 0 <= r.x && 0 <= r.y && r.w > 0 && r.h > 0 && r.x + r.w <= f.w && r.y + r.h <= f.h
    requires Covers(r, i, j)
    ensures 0 <= SliceStart(f, r) <= SliceEnd(f, r) <= |f.bgra| && Inside(f, i, j)
    ensures var slice := f.bgra[SliceStart(f, r)..SliceEnd(f, r)]; var at := Offset(r, f.stride, i, j);
      0 <= at && at + 4 <= |slice| && TexelAt(slice, at) == PixelAt(f, i, j)
  {
    SliceFits(f, r);
    SliceOffset(f, r, i, j);
    OffsetFits(f, i, j);
  }
}

module Upload {
  import opened Wrappers
  import opened Pixels

  datatype Texture = Texture(w: nat, h: nat, rows: seq<seq<Texel>>) {
    predicate Valid() {
      |rows| == h && forall j | 0 <= j < h :: |rows[j]| == w
    }
  }

  function BlankTexture(w: nat, h: nat): (t: Texture)
    ensures t.Valid() && t.w == w && t.h == h
    ensures forall i, j | 0 <= i < w && 0 <= j < h :: t.rows[j][i] == CLEAR
  {
    Texture(w, h, seq(h, j => seq(w, i => CLEAR)))
  }

  // The copy of one rectangle of the frame. Every texel is said outright.
  function CopyRect(t: Texture, f: Frame, r: Rect): (t1: Texture)
    requires t.Valid() && Backed(f)
    requires 0 <= r.x && 0 <= r.y && r.x + r.w <= f.w && r.y + r.h <= f.h
    ensures t1.Valid() && t1.w == t.w && t1.h == t.h
    ensures forall i, j | 0 <= i < t.w && 0 <= j < t.h ::
              t1.rows[j][i] == if Covers(r, i, j) then PixelAt(f, i, j) else t.rows[j][i]
  {
    Texture(t.w, t.h, seq(t.h, j requires 0 <= j < t.h =>
      seq(t.w, i requires 0 <= i < t.w =>
        if Covers(r, i, j) then PixelAt(f, i, j) else t.rows[j][i])))
  }

  // The part of the frame the texture holds.
  function BoundW(t: Texture, f: Frame): int32 { Min(f.w, t.w) }
  function BoundH(t: Texture, f: Frame): int32 { Min(f.h, t.h) }

  // What a full upload does.
  function CopyFrame(t: Texture, f: Frame): (t1: Texture)
    requires t.Valid() && Backed(f)
    ensures t1.Valid() && t1.w == t.w && t1.h == t.h
    ensures forall i, j | 0 <= i < t.w && 0 <= j < t.h ::
              t1.rows[j][i] == if Inside(f, i, j) then PixelAt(f, i, j) else t.rows[j][i]
  {
    CopyRect(t, f, Rect(0, 0, BoundW(t, f), BoundH(t, f)))
  }

  // A rectangle whose copy leaves the buffer or the texture aborts the process.
  predicate Aborts(t: Texture, f: Frame, r: Rect) {
    SliceEnd(f, r) > |f.bgra| || r.x + r.w > t.w || r.y + r.h > t.h
  }

  // The copy of the damage, rectangle by rectangle.
  function CopyDamage(t: Texture, f: Frame, dirty: seq<Rect>): (r: Option<Texture>)
    requires t.Valid() && t.w > 0 && t.h > 0 && Backed(f)
    requires t.w <= 0x7FFF_FFFF && t.h <= 0x7FFF_FFFF
    ensures r.Some? ==> r.value.Valid() && r.value.w == t.w && r.value.h == t.h
    decreases |dirty|
  {
    if dirty == [] then Some(t)
    else
      match Drawn(dirty[0], BoundW(t, f), BoundH(t, f))
      case None => CopyDamage(t, f, dirty[1..])
      case Some(r) =>
        DrawnFits(t, f, dirty[0]);
        if Aborts(t, f, r) then None else CopyDamage(CopyRect(t, f, r), f, dirty[1..])
  }

  // Too wide or too tall for i32, and visible.
  predicate Oversized(t: Texture, f: Frame, r: Rect)
    requires t.w > 0 && t.h > 0 && f.w > 0 && f.h > 0
  {
    && AxisShows(r.x, r.w, BoundW(t, f)) && AxisShows(r.y, r.h, BoundH(t, f))
    && (WrapsBeyond(r.x, r.w, BoundW(t, f)) || WrapsBeyond(r.y, r.h, BoundH(t, f)))
  }

  // A drawn rectangle stays inside the frame and the texture, and every slice it
  // takes inside the buffer, unless it wrapped; and then it aborts.
  lemma {:induction false} DrawnFits(t: Texture, f: Frame, r: Rect)
    requires t.w > 0 && t.h > 0 && Backed(f) && t.w <= 0x7FFF_FFFF && t.h <= 0x7FFF_FFFF
    ensures var drawn := Drawn(r, BoundW(t, f), BoundH(t, f));
      drawn.Some? ==>
        && drawn.value.x >= 0 && drawn.value.y >= 0 && drawn.value.w > 0 && drawn.value.h > 0
        && (Aborts(t, f, drawn.value) <==> Oversized(t, f, r))
        && (!Oversized(t, f, r) ==> drawn.value.x + drawn.value.w <= BoundW(t, f) && drawn.value.y + drawn.value.h <= BoundH(t, f))
  {
    ClipAxisIs(r.x, r.w, BoundW(t, f));
    ClipAxisIs(r.y, r.h, BoundH(t, f));
    DrawnShows(r, BoundW(t, f), BoundH(t, f));
    var drawn := Drawn(r, BoundW(t, f), BoundH(t, f));
    if drawn.Some? && !Oversized(t, f, r) {
      SliceFits(f, drawn.value);
    }
  }

  // The process aborts exactly on an oversized rectangle.
  lemma {:induction false} DamageAborts(t: Texture, f: Frame, dirty: seq<Rect>)
    requires t.Valid() && t.w > 0 && t.h > 0 && Backed(f) && t.w <= 0x7FFF_FFFF && t.h <= 0x7FFF_FFFF
    ensures CopyDamage(t, f, dirty).None? <==> exists k :: 0 <= k < |dirty| && Oversized(t, f, dirty[k])
    decreases |dirty|
  {
    if dirty != [] {
      DrawnFits(t, f, dirty[0]);
      DrawnShows(dirty[0], BoundW(t, f), BoundH(t, f));
      var drawn := Drawn(dirty[0], BoundW(t, f), BoundH(t, f));
      var rest := dirty[1..];
      assert forall k | 0 < k < |dirty| :: dirty[k] == rest[k - 1];
      if drawn.None? {
        DamageAborts(t, f, rest);
        assert !Oversized(t, f, dirty[0]);
      } else if !Aborts(t, f, drawn.value) {
        var t1 := CopyRect(t, f, drawn.value);
        DamageAborts(t1, f, rest);
        assert forall k | 0 <= k < |rest| :: Oversized(t1, f, rest[k]) == Oversized(t, f, rest[k]);
      }
    }
  }

  predicate Damaged(dirty: seq<Rect>, i: int, j: int) {
    exists k :: 0 <= k < |dirty| && Covers(dirty[k], i, j)
  }

  // Texel by texel: damage inside the frame is refreshed, and whatever changes
  // changes to the frame's own pixel.
  lemma {:induction false} DamageAt(t: Texture, f: Frame, dirty: seq<Rect>, i: int, j: int)
    requires t.Valid() && t.w > 0 && t.h > 0 && Backed(f) && t.w <= 0x7FFF_FFFF && t.h <= 0x7FFF_FFFF
    requires CopyDamage(t, f, dirty).Some? && 0 <= i < t.w && 0 <= j < t.h
    ensures var texel := CopyDamage(t, f, dirty).value.rows[j][i];
      && (Inside(f, i, j) && Damaged(dirty, i, j) ==> texel == PixelAt(f, i, j))
      && (texel == t.rows[j][i] || (Inside(f, i, j) && texel == PixelAt(f, i, j)))
    decreases |dirty|
  {
    if dirty != [] {
      DrawnFits(t, f, dirty[0]);
      var drawn := Drawn(dirty[0], BoundW(t, f), BoundH(t, f));
      if Inside(f, i, j) && Covers(dirty[0], i, j) {
        ClipMissesNothing(dirty[0], BoundW(t, f), BoundH(t, f), i, j);
      }
      var rest := dirty[1..];
      assert Damaged(dirty, i, j) ==> Covers(dirty[0], i, j) || Damaged(rest, i, j) by {
        if Damaged(dirty, i, j) {
          var k :| 0 <= k < |dirty| && Covers(dirty[k], i, j);
          assert k > 0 ==> rest[k - 1] == dirty[k];
        }
      }
      DamageAt(if drawn.Some? then CopyRect(t, f, drawn.value) else t, f, rest, i, j);
    }
  }

  // ----- the surface -----

  datatype Policy = FollowFrame | FollowTarget
  datatype Site = Painter | Owner
  datatype Mode = Shared | Copied

  datatype Uploaded = Uploaded(texture: Texture, needsBase: bool)

  // `maxDim` is the device's texture limit; `configures` is a history, how often
  // the swapchain was configured since it was made.
  datatype Surface = Surface(
    width: nat, height: nat, pendingW: nat, pendingH: nat, needsConfigure: bool,
    policy: Policy, site: Site, maxDim: nat, mode: Option<Mode>, upload: Option<Uploaded>, configures: nat)

  predicate Valid(s: Surface) {
    && 1 <= s.maxDim <= 0x7FFF_FFFF
    && 1 <= s.width <= s.maxDim && 1 <= s.height <= s.maxDim
    && (s.upload.Some? ==> s.upload.value.texture.Valid() && s.upload.value.texture.w >= 1 && s.upload.value.texture.h >= 1
                           && s.upload.value.texture.w <= s.maxDim && s.upload.value.texture.h <= s.maxDim)
  }

  function Clamp(x: nat, max: nat): nat
    requires max >= 1
  {
    if x < 1 then 1 else if x > max then max else x
  }

  // Drops the texture whenever the extent moves.
  function ReconfigureTo(s: Surface, cw: nat, ch: nat): (r: Surface)
    ensures r.width == cw && r.height == ch && r.maxDim == s.maxDim && r.mode == s.mode
    ensures if s.width == cw && s.height == ch then r.upload == s.upload else r.upload.None?
  {
    var resized := s.width != cw || s.height != ch;
    if !resized && !s.needsConfigure then s
    else
      var s1 := s.(width := cw, height := ch, needsConfigure := false, configures := s.configures + 1);
      if !resized then s1
      else if s.policy.FollowFrame? then s1.(upload := None, pendingW := cw, pendingH := ch)
      else s1.(upload := None)
  }

  function Resize(s: Surface, w: int32, h: int32): (r: Surface)
    requires Valid(s)
    ensures Valid(r)
    ensures r.upload.Some? ==> r.upload == s.upload && r.width == s.width && r.height == s.height
  {
    if w <= 0 || h <= 0 then s
    else
      var s1 := s.(pendingW := w, pendingH := h);
      if s.site.Owner? then ReconfigureTo(s1, Clamp(w, s.maxDim), Clamp(h, s.maxDim)) else s1
  }

  function ContentDetached(s: Surface): Surface {
    s.(needsConfigure := true)
  }

  function Latch(s: Surface, mode: Mode): Option<Surface> {
    if s.mode.None? || s.mode == Some(mode) then Some(s.(mode := Some(mode))) else None
  }

  predicate ExtentOk(s: Surface, w: int32, h: int32) {
    w > 0 && h > 0 && w <= s.maxDim && h <= s.maxDim
  }

  function ExtentFor(s: Surface, w: nat, h: nat): (r: Surface)
    requires Valid(s) && 1 <= w <= s.maxDim && 1 <= h <= s.maxDim
    ensures Valid(r) && r.mode == s.mode && r.maxDim == s.maxDim
    ensures r.upload.Some? ==> r.upload == s.upload && r.width == s.width && r.height == s.height
    ensures r.upload.None? ==> s.upload.None? || r.width != s.width || r.height != s.height
  {
    if s.site.Owner? then s
    else if s.policy.FollowFrame? then ReconfigureTo(s, w, h)
    else ReconfigureTo(s, Clamp(s.pendingW, s.maxDim), Clamp(s.pendingH, s.maxDim))
  }

  function TakeUpload(s: Surface): (u: Uploaded)
    requires Valid(s)
    ensures u.texture.Valid() && u.texture.w == s.width && u.texture.h == s.height
  {
    if s.upload.Some? && s.upload.value.texture.w == s.width && s.upload.value.texture.h == s.height then s.upload.value
    else Uploaded(BlankTexture(s.width, s.height), true)
  }

  function Write(u: Uploaded, f: Frame): (r: Option<Uploaded>)
    requires u.texture.Valid() && u.texture.w > 0 && u.texture.h > 0 && Backed(f)
    requires u.texture.w <= 0x7FFF_FFFF && u.texture.h <= 0x7FFF_FFFF
    ensures r.Some? ==> r.value.texture.Valid() && r.value.texture.w == u.texture.w && r.value.texture.h == u.texture.h
  {
    if u.needsBase || f.dirty == [] then Some(Uploaded(CopyFrame(u.texture, f), false))
    else
      match CopyDamage(u.texture, f, f.dirty)
      case Some(t) => Some(Uploaded(t, false))
      case None => None
  }

  datatype Outcome = Accepted | WrongKind | BadExtent | BadBuffer | Aborted

  // Up to the write; drawing and presenting change none of this state.
  function PresentPixels(s: Surface, f: Frame): (r: (Surface, Outcome))
    requires Valid(s)
    ensures Valid(r.0)
  {
    match Latch(s, Copied)
    case None => (s, WrongKind)
    case Some(s1) =>
      if !ExtentOk(s1, f.w, f.h) then (s1, BadExtent)
      else if !Backed(f) then (s1, BadBuffer)
      else
        var s2 := ExtentFor(s1, f.w, f.h);
        match Write(TakeUpload(s2), f)
        case None => (s2.(upload := None), Aborted)
        case Some(u) => (s2.(upload := Some(u)), Accepted)
  }

  function PresentShared(s: Surface, w: int32, h: int32): (r: (Surface, Outcome))
    requires Valid(s)
    ensures Valid(r.0)
    ensures r.0.upload.Some? ==> r.0.upload == s.upload && r.0.width == s.width && r.0.height == s.height
  {
    match Latch(s, Shared)
    case None => (s, WrongKind)
    case Some(s1) => if !ExtentOk(s1, w, h) then (s1, BadExtent) else (ExtentFor(s1, w, h), Accepted)
  }

  datatype Event = Pixel(frame: Frame) | SharedFrame(w: int32, h: int32) | Resized(w: int32, h: int32) | Detached

  // A run, with the accepted frames: all of them, and how many the current
  // texture has taken since it was made.
  datatype Tracked = Tracked(surface: Surface, frames: seq<Frame>, since: nat, alive: bool)

  function Next(t: Tracked, e: Event): (t1: Tracked)
    requires Valid(t.surface)
    ensures Valid(t1.surface)
  {
    if !t.alive then t
    else
      match e
      case Resized(w, h) => t.(surface := Resize(t.surface, w, h))
      case Detached => t.(surface := ContentDetached(t.surface))
      case SharedFrame(w, h) => t.(surface := PresentShared(t.surface, w, h).0)
      case Pixel(f) =>
        var (s, outcome) := PresentPixels(t.surface, f);
        if outcome.Aborted? then t.(surface := s, alive := false)
        else if !outcome.Accepted? then t.(surface := s)
        else
          var reused := ExtentFor(t.surface.(mode := Some(Copied)), f.w, f.h).upload.Some?;
          Tracked(s, t.frames + [f], if reused then t.since + 1 else 1, true)
  }

  function Run(t: Tracked, events: seq<Event>): (t1: Tracked)
    requires Valid(t.surface)
    ensures Valid(t1.surface)
    decreases |events|
  {
    if events == [] then t else Next(Run(t, events[..|events| - 1]), events[|events| - 1])
  }

  // ----- honest damage -----

  // The damage covers every pixel that differs from, or was absent in, the
  // previous accepted frame.
  ghost predicate HonestAfter(prev: Frame, f: Frame) {
    Backed(prev) && Backed(f) && f.dirty != [] ==>
      forall i, j | Inside(f, i, j) ::
        Damaged(f.dirty, i, j) || (Inside(prev, i, j) && PixelAt(prev, i, j) == PixelAt(f, i, j))
  }

  ghost predicate HonestRun(frames: seq<Frame>) {
    forall k | 0 < k < |frames| :: HonestAfter(frames[k - 1], frames[k])
  }

  // Full uploads of the frames, oldest first, onto a blank texture.
  function Composite(frames: seq<Frame>, w: nat, h: nat): (t: Texture)
    requires forall k | 0 <= k < |frames| :: Backed(frames[k])
    ensures t.Valid() && t.w == w && t.h == h
    decreases |frames|
  {
    if frames == [] then BlankTexture(w, h)
    else CopyFrame(Composite(frames[..|frames| - 1], w, h), frames[|frames| - 1])
  }

  lemma {:induction false} SameTexture(a: Texture, b: Texture)
    requires a.Valid() && b.Valid() && a.w == b.w && a.h == b.h
    requires forall i, j | 0 <= i < a.w && 0 <= j < a.h :: a.rows[j][i] == b.rows[j][i]
    ensures a == b
  {
    forall j | 0 <= j < a.h
      ensures a.rows[j] == b.rows[j]
    {
    }
  }

  // Patching equals uploading whole: on a texture that holds the previous frame,
  // honest damage leaves exactly what a full upload would.
  lemma {:induction false} PatchIsFullUpload(t: Texture, prev: Frame, f: Frame)
    requires t.Valid() && t.w > 0 && t.h > 0 && Backed(prev) && Backed(f) && t.w <= 0x7FFF_FFFF && t.h <= 0x7FFF_FFFF
    requires forall i, j | 0 <= i < t.w && 0 <= j < t.h && Inside(prev, i, j) :: t.rows[j][i] == PixelAt(prev, i, j)
    requires HonestAfter(prev, f) && f.dirty != [] && Write(Uploaded(t, false), f).Some?
    ensures CopyDamage(t, f, f.dirty).value == CopyFrame(t, f)
  {
    var patched, whole := CopyDamage(t, f, f.dirty).value, CopyFrame(t, f);
    forall i, j | 0 <= i < t.w && 0 <= j < t.h
      ensures patched.rows[j][i] == whole.rows[j][i]
    {
      DamageAt(t, f, f.dirty, i, j);
    }
    SameTexture(patched, whole);
  }

  // The texture, if there is one, holds the last `since` frames.
  ghost predicate Holds(s: Surface, frames: seq<Frame>, since: nat)
    requires forall k | 0 <= k < |frames| :: Backed(frames[k])
  {
    s.upload.Some? ==>
      && 0 < since <= |frames|
      && s.upload.value.texture.w == s.width && s.upload.value.texture.h == s.height
      && !s.upload.value.needsBase
      && s.upload.value.texture == Composite(frames[|frames| - since..], s.width, s.height)
  }

  ghost predicate Inv(t: Tracked) {
    && (forall k | 0 <= k < |t.frames| :: Backed(t.frames[k]))
    && Holds(t.surface, t.frames, t.since)
  }

  lemma {:induction false} CompositeHolds(frames: seq<Frame>, w: nat, h: nat)
    requires frames != [] && forall k | 0 <= k < |frames| :: Backed(frames[k])
    ensures var f := frames[|frames| - 1];
      forall i, j | 0 <= i < w && 0 <= j < h && Inside(f, i, j) :: Composite(frames, w, h).rows[j][i] == PixelAt(f, i, j)
  {
  }

  // What an accepted frame does to the surface.
  lemma {:induction false} AcceptedSurface(s: Surface, f: Frame)
    requires Valid(s) && PresentPixels(s, f).1.Accepted?
    ensures Backed(f) && 1 <= f.w <= s.maxDim && 1 <= f.h <= s.maxDim
    ensures var s2 := ExtentFor(s.(mode := Some(Copied)), f.w, f.h);
      && Write(TakeUpload(s2), f).Some?
      && PresentPixels(s, f).0 == s2.(upload := Some(Write(TakeUpload(s2), f).value))
  {
  }

  // A write keeps what the texture holds and adds the frame whole.
  lemma {:induction false} WriteIsFullUpload(u: Uploaded, held: seq<Frame>, f: Frame, w: nat, h: nat)
    requires 0 < w <= 0x7FFF_FFFF && 0 < h <= 0x7FFF_FFFF && Backed(f)
    requires forall k | 0 <= k < |held| :: Backed(held[k])
    requires u.texture == Composite(held, w, h)
    requires !u.needsBase ==> held != [] && HonestAfter(held[|held| - 1], f)
    requires Write(u, f).Some?
    ensures Write(u, f).value == Uploaded(CopyFrame(u.texture, f), false)
  {
    if !u.needsBase && f.dirty != [] {
      CompositeHolds(held, w, h);
      PatchIsFullUpload(u.texture, held[|held| - 1], f);
    }
  }

  lemma {:induction false} CompositePush(held: seq<Frame>, f: Frame, w: nat, h: nat)
    requires Backed(f) && forall k | 0 <= k < |held| :: Backed(held[k])
    ensures Composite(held + [f], w, h) == CopyFrame(Composite(held, w, h), f)
  {
    assert (held + [f])[..|held|] == held;
  }

  // What the taken texture holds: the frames since it was made, or nothing yet.
  lemma {:induction false} TakenHolds(s2: Surface, frames: seq<Frame>, since: nat) returns (held: seq<Frame>)
    requires Valid(s2) && (forall k | 0 <= k < |frames| :: Backed(frames[k])) && Holds(s2, frames, since)
    ensures var kept := if s2.upload.Some? then since else 0; kept <= |frames| && held == frames[|frames| - kept..]
    ensures forall k | 0 <= k < |held| :: Backed(held[k])
    ensures TakeUpload(s2).texture == Composite(held, s2.width, s2.height)
    ensures !TakeUpload(s2).needsBase ==> held != []
    ensures held != [] ==> frames != [] && held[|held| - 1] == frames[|frames| - 1]
  {
    held := frames[|frames| - (if s2.upload.Some? then since else 0)..];
  }

  lemma {:induction false} HeldGrows(frames: seq<Frame>, f: Frame, kept: nat)
    requires kept <= |frames|
    ensures var grown := frames + [f]; grown[|grown| - (kept + 1)..] == frames[|frames| - kept..] + [f]
  {
  }

  lemma {:induction false} WriteHolds(s2: Surface, frames: seq<Frame>, since: nat, f: Frame)
    requires Valid(s2) && Backed(f) && forall k | 0 <= k < |frames| :: Backed(frames[k])
    requires Holds(s2, frames, since) && Write(TakeUpload(s2), f).Some?
    requires frames != [] ==> HonestAfter(frames[|frames| - 1], f)
    ensures Holds(s2.(upload := Some(Write(TakeUpload(s2), f).value)), frames + [f], if s2.upload.Some? then since + 1 else 1)
  {
    var held := TakenHolds(s2, frames, since);
    WriteIsFullUpload(TakeUpload(s2), held, f, s2.width, s2.height);
    CompositePush(held, f, s2.width, s2.height);
    HeldGrows(frames, f, if s2.upload.Some? then since else 0);
  }

  lemma {:induction false} AcceptedNext(t: Tracked, f: Frame)
    requires Valid(t.surface) && t.alive && PresentPixels(t.surface, f).1.Accepted?
    ensures Backed(f) && 1 <= f.w <= t.surface.maxDim && 1 <= f.h <= t.surface.maxDim
    ensures var s2 := ExtentFor(t.surface.(mode := Some(Copied)), f.w, f.h);
      && Write(TakeUpload(s2), f).Some?
      && Next(t, Pixel(f)) == Tracked(s2.(upload := Some(Write(TakeUpload(s2), f).value)), t.frames + [f],
                                      if s2.upload.Some? then t.since + 1 else 1, true)
  {
    AcceptedSurface(t.surface, f);
  }

  // The extent chosen keeps what the texture holds, or drops it.
  lemma {:induction false} ExtentHolds(s: Surface, f: Frame, frames: seq<Frame>, since: nat)
    requires Valid(s) && 1 <= f.w <= s.maxDim && 1 <= f.h <= s.maxDim
    requires (forall k | 0 <= k < |frames| :: Backed(frames[k])) && Holds(s, frames, since)
    ensures Holds(ExtentFor(s.(mode := Some(Copied)), f.w, f.h), frames, since)
  {
  }

  lemma {:induction false} AcceptKeeps(t: Tracked, f: Frame)
    requires Valid(t.surface) && Inv(t) && t.alive && PresentPixels(t.surface, f).1.Accepted?
    requires HonestRun(t.frames) && (t.frames != [] ==> HonestAfter(t.frames[|t.frames| - 1], f))
    ensures Inv(Next(t, Pixel(f)))
  {
    AcceptedNext(t, f);
    ExtentHolds(t.surface, f, t.frames, t.since);
    WriteHolds(ExtentFor(t.surface.(mode := Some(Copied)), f.w, f.h), t.frames, t.since, f);
  }

  lemma {:induction false} HonestGrows(frames: seq<Frame>, f: Frame)
    requires HonestRun(frames) && (frames != [] ==> HonestAfter(frames[|frames| - 1], f))
    ensures HonestRun(frames + [f])
  {
  }

  // Whatever is not an accepted frame leaves the texture as it is or drops it.
  lemma {:induction false} OthersKeepOrDrop(t: Tracked, e: Event)
    requires Valid(t.surface)
    requires !(t.alive && e.Pixel? && PresentPixels(t.surface, e.frame).1.Accepted?)
    ensures var t1 := Next(t, e);
      && t1.frames == t.frames && t1.since == t.since
      && (t1.surface.upload.Some? ==>
            t1.surface.upload == t.surface.upload && t1.surface.width == t.surface.width && t1.surface.height == t.surface.height)
  {
  }

  lemma {:induction false} NextKeeps(t: Tracked, e: Event)
    requires Valid(t.surface) && Inv(t) && HonestRun(t.frames)
    requires t.alive && e.Pixel? && PresentPixels(t.surface, e.frame).1.Accepted? && t.frames != [] ==>
               HonestAfter(t.frames[|t.frames| - 1], e.frame)
    ensures Inv(Next(t, e)) && HonestRun(Next(t, e).frames)
  {
    if t.alive && e.Pixel? && PresentPixels(t.surface, e.frame).1.Accepted? {
      AcceptKeeps(t, e.frame);
      AcceptedNext(t, e.frame);
      HonestGrows(t.frames, e.frame);
    } else {
      OthersKeepOrDrop(t, e);
    }
  }

  // ----- results over whole runs -----

  datatype Target = Xcb | Wayland | CompositionVisual | CoreAnimationLayer

  // A new surface; the extent must be one the device can hold.
  function New(target: Target, w: int32, h: int32, maxDim: nat): (r: Option<Surface>)
    requires 1 <= maxDim <= 0x7FFF_FFFF
    ensures r.Some? ==> Valid(r.value) && r.value.upload.None? && r.value.mode.None?
  {
    if w <= 0 || h <= 0 || w > maxDim || h > maxDim then None
    else
      var policy := if target.Xcb? || target.CoreAnimationLayer? then FollowTarget else FollowFrame;
      var site := if target.CoreAnimationLayer? then Owner else Painter;
      Some(Surface(w, h, w, h, false, policy, site, maxDim, None, None, 0))
  }

  function Start(s: Surface): Tracked {
    Tracked(s, [], 0, true)
  }

  lemma {:induction false} NextFrames(t: Tracked, e: Event)
    requires Valid(t.surface)
    ensures var t1 := Next(t, e);
      if t.alive && e.Pixel? && PresentPixels(t.surface, e.frame).1.Accepted? then t1.frames == t.frames + [e.frame]
      else t1.frames == t.frames
  {
  }

  lemma {:induction false} HonestPrefix(frames: seq<Frame>, f: Frame)
    requires HonestRun(frames + [f])
    ensures HonestRun(frames) && (frames != [] ==> HonestAfter(frames[|frames| - 1], f))
  {
    var grown := frames + [f];
    forall k | 0 < k < |frames|
      ensures HonestAfter(frames[k - 1], frames[k])
    {
      assert grown[k - 1] == frames[k - 1] && grown[k] == frames[k];
    }
    if frames != [] {
      assert grown[|frames|] == f && grown[|frames| - 1] == frames[|frames| - 1];
    }
  }

  lemma {:induction false} RunKeeps(s: Surface, events: seq<Event>)
    requires Valid(s) && s.upload.None?
    requires HonestRun(Run(Start(s), events).frames)
    ensures Inv(Run(Start(s), events))
    decreases |events|
  {
    if events != [] {
      var e := events[|events| - 1];
      var t := Run(Start(s), events[..|events| - 1]);
      NextFrames(t, e);
      if t.alive && e.Pixel? && PresentPixels(t.surface, e.frame).1.Accepted? {
        HonestPrefix(t.frames, e.frame);
      }
      RunKeeps(s, events[..|events| - 1]);
      NextKeeps(t, e);
    }
  }

  // After any run of frames of either kind, resizes and detaches in which the
  // accepted frames' damage is honest, the patched texture is exactly what
  // uploading each of its frames whole would have made it; so the current frame
  // is all there, on every pixel the texture holds.
  lemma {:induction false} PatchingRefinesFullUpload(target: Target, w: int32, h: int32, maxDim: nat, events: seq<Event>)
    requires 1 <= maxDim <= 0x7FFF_FFFF && New(target, w, h, maxDim).Some?
    requires HonestRun(Run(Start(New(target, w, h, maxDim).value), events).frames)
    ensures var t := Run(Start(New(target, w, h, maxDim).value), events);
      t.surface.upload.Some? ==>
        && 0 < t.since <= |t.frames|
        && (forall k | 0 <= k < |t.frames| :: Backed(t.frames[k]))
        && var texture := t.surface.upload.value.texture;
        && texture.w == t.surface.width && texture.h == t.surface.height
        && texture == Composite(t.frames[|t.frames| - t.since..], texture.w, texture.h)
        && var current := t.frames[|t.frames| - 1];
        && forall i, j | 0 <= i < Min(current.w, texture.w) && 0 <= j < Min(current.h, texture.h) ::
             texture.rows[j][i] == PixelAt(current, i, j)
  {
    var t := Run(Start(New(target, w, h, maxDim).value), events);
    RunKeeps(New(target, w, h, maxDim).value, events);
    if t.surface.upload.Some? {
      CompositeHolds(t.frames[|t.frames| - t.since..], t.surface.width, t.surface.height);
    }
  }

  // A frame aborts the process exactly when it is patched, not uploaded whole,
  // with a visible rectangle too large for i32.
  lemma {:induction false} AbortsExactlyOnOversized(t: Tracked, f: Frame)
    requires Valid(t.surface) && t.alive && Latch(t.surface, Copied).Some? && ExtentOk(t.surface, f.w, f.h) && Backed(f)
    ensures var s2 := ExtentFor(t.surface.(mode := Some(Copied)), f.w, f.h);
      var u := TakeUpload(s2);
      !Next(t, Pixel(f)).alive <==>
        !u.needsBase && exists k :: 0 <= k < |f.dirty| && Oversized(u.texture, f, f.dirty[k])
  {
    var u := TakeUpload(ExtentFor(t.surface.(mode := Some(Copied)), f.w, f.h));
    DamageAborts(u.texture, f, f.dirty);
  }

  lemma {:induction false} NextKind(t: Tracked, e: Event)
    requires Valid(t.surface) && t.surface.mode.Some?
    ensures Next(t, e).surface.mode == t.surface.mode
    ensures t.surface.mode == Some(Shared) ==> Next(t, e).frames == t.frames
  {
  }

  // A surface keeps the kind of its first frame for ever, so a shared frame can
  // never leave the texture two frames old.
  lemma {:induction false} KindIsLatched(t: Tracked, events: seq<Event>)
    requires Valid(t.surface) && t.surface.mode.Some?
    ensures Run(t, events).surface.mode == t.surface.mode
    ensures t.surface.mode == Some(Shared) ==> Run(t, events).frames == t.frames
    decreases |events|
  {
    if events != [] {
      KindIsLatched(t, events[..|events| - 1]);
      NextKind(Run(t, events[..|events| - 1]), events[|events| - 1]);
    }
  }

  // ----- the rest of the texture -----

  // The newest frame that reaches a texel.
  function Latest(frames: seq<Frame>, i: int, j: int): (r: Option<Frame>)
    ensures r.Some? ==> r.value in frames && Inside(r.value, i, j)
    ensures r.None? <==> forall f | f in frames :: !Inside(f, i, j)
  {
    if frames == [] then None
    else if Inside(frames[|frames| - 1], i, j) then Some(frames[|frames| - 1])
    else Latest(frames[..|frames| - 1], i, j)
  }

  // Every texel shows the newest frame that reached it since the texture was
  // made, and is clear where none did.
  lemma {:induction false} CompositeAt(frames: seq<Frame>, w: nat, h: nat, i: int, j: int)
    requires forall k | 0 <= k < |frames| :: Backed(frames[k])
    requires 0 <= i < w && 0 <= j < h
    ensures Composite(frames, w, h).rows[j][i] ==
            if Latest(frames, i, j).Some? then PixelAt(Latest(frames, i, j).value, i, j) else CLEAR
    decreases |frames|
  {
    if frames != [] {
      CompositeAt(frames[..|frames| - 1], w, h, i, j);
    }
  }

  // The strip is what the texture holds beside its newest frame.
  predicate InStrip(frames: seq<Frame>, w: nat, h: nat, i: int, j: int)
    requires frames != []
  {
    0 <= i < w && 0 <= j < h && !Inside(frames[|frames| - 1], i, j)
  }

  ghost predicate StripClear(t: Texture, frames: seq<Frame>)
    requires t.Valid() && frames != []
  {
    forall i, j | InStrip(frames, t.w, t.h, i, j) :: t.rows[j][i] == CLEAR
  }

  // Nothing that reached a texel of the strip left a pixel there.
  ghost predicate NothingBeside(frames: seq<Frame>, w: nat, h: nat)
    requires frames != [] && forall k | 0 <= k < |frames| :: Backed(frames[k])
  {
    forall i, j | InStrip(frames, w, h, i, j) ::
      Latest(frames, i, j).None? || PixelAt(Latest(frames, i, j).value, i, j) == CLEAR
  }

  // No frame is larger than the newest, as far as the texture reaches.
  predicate NoneLarger(frames: seq<Frame>, w: nat, h: nat)
    requires frames != []
  {
    forall f | f in frames :: Min(f.w, w) <= frames[|frames| - 1].w && Min(f.h, h) <= frames[|frames| - 1].h
  }

  ghost predicate Opaque(frames: seq<Frame>)
    requires forall k | 0 <= k < |frames| :: Backed(frames[k])
  {
    forall k, i, j | 0 <= k < |frames| && Inside(frames[k], i, j) :: PixelAt(frames[k], i, j) != CLEAR
  }

  lemma {:induction false} StripOfComposite(frames: seq<Frame>, w: nat, h: nat)
    requires frames != [] && forall k | 0 <= k < |frames| :: Backed(frames[k])
    ensures StripClear(Composite(frames, w, h), frames) <==> NothingBeside(frames, w, h)
  {
    forall i, j | InStrip(frames, w, h, i, j)
      ensures Composite(frames, w, h).rows[j][i] ==
              if Latest(frames, i, j).Some? then PixelAt(Latest(frames, i, j).value, i, j) else CLEAR
    {
      CompositeAt(frames, w, h, i, j);
    }
  }

  // A frame reaches the strip exactly when it is larger within the texture.
  lemma {:induction false} UntouchedExactlyWhenNoneLarger(frames: seq<Frame>, w: nat, h: nat)
    requires frames != [] && forall k | 0 <= k < |frames| :: Backed(frames[k])
    requires w > 0 && h > 0
    ensures NoneLarger(frames, w, h) <==> forall i, j | InStrip(frames, w, h, i, j) :: Latest(frames, i, j).None?
  {
    var current := frames[|frames| - 1];
    if f :| f in frames && !(Min(f.w, w) <= current.w && Min(f.h, h) <= current.h) {
      var i := if Min(f.w, w) > current.w then current.w else 0;
      var j := if Min(f.w, w) > current.w then 0 else current.h;
      assert InStrip(frames, w, h, i, j) && Inside(f, i, j);
      assert Latest(frames, i, j).Some?;
    }
  }

  lemma {:induction false} OpaqueTouched(frames: seq<Frame>, w: nat, h: nat)
    requires frames != [] && forall k | 0 <= k < |frames| :: Backed(frames[k])
    requires w > 0 && h > 0 && Opaque(frames)
    ensures NothingBeside(frames, w, h) <==> NoneLarger(frames, w, h)
  {
    UntouchedExactlyWhenNoneLarger(frames, w, h);
    forall i, j | InStrip(frames, w, h, i, j) && Latest(frames, i, j).Some?
      ensures PixelAt(Latest(frames, i, j).value, i, j) != CLEAR
    {
      var k :| 0 <= k < |frames| && frames[k] == Latest(frames, i, j).value;
      assert Inside(frames[k], i, j);
    }
  }

  // The frames the texture has taken since it was made.
  function Taken(t: Tracked): seq<Frame>
    requires t.since <= |t.frames|
  {
    t.frames[|t.frames| - t.since..]
  }

  // In every honest run the strip beside the current frame is transparent exactly
  // when the newest frame to reach each of its texels was clear there. So it is
  // when no frame since the texture was made was larger, as far as the texture
  // reaches; and where frames are opaque, only then.
  lemma {:induction false} StripIsClear(target: Target, w: int32, h: int32, maxDim: nat, events: seq<Event>)
    requires 1 <= maxDim <= 0x7FFF_FFFF && New(target, w, h, maxDim).Some?
    requires HonestRun(Run(Start(New(target, w, h, maxDim).value), events).frames)
    requires Run(Start(New(target, w, h, maxDim).value), events).surface.upload.Some?
    ensures var t := Run(Start(New(target, w, h, maxDim).value), events);
      var texture := t.surface.upload.value.texture;
      && 0 < t.since <= |t.frames| && (forall k | 0 <= k < |t.frames| :: Backed(t.frames[k]))
      && (StripClear(texture, Taken(t)) <==> NothingBeside(Taken(t), texture.w, texture.h))
      && (NoneLarger(Taken(t), texture.w, texture.h) ==> StripClear(texture, Taken(t)))
      && (Opaque(Taken(t)) && StripClear(texture, Taken(t)) ==> NoneLarger(Taken(t), texture.w, texture.h))
  {
    var t := Run(Start(New(target, w, h, maxDim).value), events);
    RunKeeps(New(target, w, h, maxDim).value, events);
    StripOfTaken(t.surface.upload.value.texture, Taken(t), t.surface.width, t.surface.height);
  }

  lemma {:induction false} StripOfTaken(texture: Texture, frames: seq<Frame>, w: nat, h: nat)
    requires frames != [] && forall k | 0 <= k < |frames| :: Backed(frames[k])
    requires w > 0 && h > 0 && texture == Composite(frames, w, h)
    ensures StripClear(texture, frames) <==> NothingBeside(frames, w, h)
    ensures NoneLarger(frames, w, h) ==> StripClear(texture, frames)
    ensures Opaque(frames) && StripClear(texture, frames) ==> NoneLarger(frames, w, h)
  {
    StripOfComposite(frames, w, h);
    UntouchedExactlyWhenNoneLarger(frames, w, h);
    if Opaque(frames) {
      OpaqueTouched(frames, w, h);
    }
  }

  const WIDE := Frame(2, 1, 8, [1, 2, 3, 4, 5, 6, 7, 8], [])
  const NARROW := Frame(1, 1, 4, [9, 10, 11, 12], [Rect(0, 0, 1, 1)])
  const TWO_BY_ONE := Surface(2, 1, 2, 1, false, FollowTarget, Painter, 64, None, None, 0)

  // But a frame that shrinks under an unchanged extent leaves the old frame's
  // pixels in the strip: only an extent change drops the texture.
  lemma {:induction false} ShrunkFrameLeavesStalePixels()
    ensures New(Xcb, 2, 1, 64) == Some(TWO_BY_ONE)
    ensures var t := Run(Start(TWO_BY_ONE), [Pixel(WIDE), Pixel(NARROW)]);
      && t.frames == [WIDE, NARROW] && HonestRun(t.frames)
      && t.surface.upload.Some? && t.surface.upload.value.texture == Composite([WIDE, NARROW], 2, 1)
    ensures Composite([WIDE, NARROW], 2, 1).rows[0][1] == Texel(5, 6, 7, 8)
  {
    ShrunkRun();
    RunKeeps(TWO_BY_ONE, [Pixel(WIDE), Pixel(NARROW)]);
    assert [WIDE, NARROW][2 - 2..] == [WIDE, NARROW];
    StaleTexel();
  }

  lemma {:induction false} ShrunkRun()
    ensures var t := Run(Start(TWO_BY_ONE), [Pixel(WIDE), Pixel(NARROW)]);
      && t.frames == [WIDE, NARROW] && t.since == 2 && t.surface.upload.Some?
      && t.surface.width == 2 && t.surface.height == 1
    ensures HonestRun([WIDE, NARROW])
  {
    var events := [Pixel(WIDE), Pixel(NARROW)];
    assert events[..1] == [Pixel(WIDE)] && [Pixel(WIDE)][..0] == [];
    var t0 := Start(TWO_BY_ONE);
    var t1 := Next(t0, Pixel(WIDE));
    assert Run(t0, [Pixel(WIDE)]) == t1;
    WideIsAccepted();
    NarrowIsAccepted(t1);
    assert Run(t0, events) == Next(t1, Pixel(NARROW));
  }

  lemma {:induction false} WideIsAccepted()
    ensures var t1 := Next(Start(TWO_BY_ONE), Pixel(WIDE));
      t1.alive && t1.frames == [WIDE] && t1.since == 1
      && t1.surface == TWO_BY_ONE.(mode := Some(Copied), upload := Some(Uploaded(CopyFrame(BlankTexture(2, 1), WIDE), false)))
  {
  }

  lemma {:induction false} NarrowIsHonest()
    ensures HonestRun([WIDE, NARROW])
  {
    assert Covers(NARROW.dirty[0], 0, 0);
    assert Damaged(NARROW.dirty, 0, 0);
  }

  lemma {:induction false} NarrowWrites(u: Uploaded)
    requires u.texture.Valid() && u.texture.w == 2 && u.texture.h == 1
    ensures Write(u, NARROW).Some?
  {
    DamageAborts(u.texture, NARROW, NARROW.dirty);
    assert !Oversized(u.texture, NARROW, NARROW.dirty[0]);
  }

  lemma {:induction false} NarrowIsAccepted(t1: Tracked)
    requires t1.alive && t1.frames == [WIDE] && t1.since == 1
    requires t1.surface == TWO_BY_ONE.(mode := Some(Copied), upload := Some(Uploaded(CopyFrame(BlankTexture(2, 1), WIDE), false)))
    ensures var t2 := Next(t1, Pixel(NARROW));
      t2.alive && t2.frames == [WIDE, NARROW] && t2.since == 2 && t2.surface.upload.Some?
      && t2.surface.width == 2 && t2.surface.height == 1
    ensures HonestRun([WIDE, NARROW])
  {
    var s2 := ExtentFor(t1.surface, 1, 1);
    assert s2 == t1.surface && TakeUpload(s2) == t1.surface.upload.value;
    NarrowWrites(TakeUpload(s2));
    assert PresentPixels(t1.surface, NARROW).1.Accepted?;
    NarrowIsHonest();
  }

  // The same texture, patched with a rectangle whose end is past the largest i32.
  const OVERSIZED := Frame(2, 1, 8, WIDE.bgra, [Rect(1, 0, 0x7FFF_FFFF, 1)])

  // An accepted frame, and then one that ends the process.
  lemma {:induction false} OversizedFrameAborts()
    ensures New(Xcb, 2, 1, 64) == Some(TWO_BY_ONE)
    ensures var t := Run(Start(TWO_BY_ONE), [Pixel(WIDE)]); t.alive && t.frames == [WIDE]
    ensures !Run(Start(TWO_BY_ONE), [Pixel(WIDE), Pixel(OVERSIZED)]).alive
  {
    var events := [Pixel(WIDE), Pixel(OVERSIZED)];
    assert events[..1] == [Pixel(WIDE)] && [Pixel(WIDE)][..0] == [];
    var t1 := Next(Start(TWO_BY_ONE), Pixel(WIDE));
    assert Run(Start(TWO_BY_ONE), [Pixel(WIDE)]) == t1;
    WideIsAccepted();
    OversizedAborts(t1);
    assert Run(Start(TWO_BY_ONE), events) == Next(t1, Pixel(OVERSIZED));
  }

  lemma {:induction false} OversizedAborts(t1: Tracked)
    requires t1.alive
    requires t1.surface == TWO_BY_ONE.(mode := Some(Copied), upload := Some(Uploaded(CopyFrame(BlankTexture(2, 1), WIDE), false)))
    ensures !Next(t1, Pixel(OVERSIZED)).alive
  {
    var u := t1.surface.upload.value;
    assert ExtentFor(t1.surface, 2, 1) == t1.surface && TakeUpload(t1.surface) == u;
    assert Oversized(u.texture, OVERSIZED, OVERSIZED.dirty[0]);
    AbortsExactlyOnOversized(t1, OVERSIZED);
  }

  lemma {:induction false} StaleTexel()
    ensures Composite([WIDE, NARROW], 2, 1).rows[0][1] == Texel(5, 6, 7, 8)
  {
    CompositeAt([WIDE, NARROW], 2, 1, 1, 0);
    assert [WIDE, NARROW][..1] == [WIDE];
    assert Inside(WIDE, 1, 0) && !Inside(NARROW, 1, 0);
    assert Latest([WIDE, NARROW], 1, 0) == Some(WIDE);
    assert PixelAt(WIDE, 1, 0) == TexelAt(WIDE.bgra, 4);
  }
}

// The surface and its texture as objects, updated in place.
module UploadObjects {
  import opened Wrappers
  import opened Pixels
  import U = Upload

  function ViewOf(tex: array2<Texel>): (t: U.Texture)
    reads tex
    ensures t.Valid() && t.w == tex.Length1 && t.h == tex.Length0
    ensures forall i, j | 0 <= i < tex.Length1 && 0 <= j < tex.Length0 :: t.rows[j][i] == tex[j, i]
  {
    U.Texture(tex.Length1, tex.Length0, seq(tex.Length0, j requires 0 <= j < tex.Length0 reads tex =>
      seq(tex.Length1, i requires 0 <= i < tex.Length1 reads tex => tex[j, i])))
  }

  // `Queue::write_texture`: copies rows of `stride` bytes into a rectangle.
  method WriteTexture(tex: array2<Texel>, r: Rect, slice: seq<byte>, stride: nat)
    requires 0 <= r.x && 0 <= r.y && r.w > 0 && r.h > 0 && r.x + r.w <= tex.Length1 && r.y + r.h <= tex.Length0
    requires forall i, j | Covers(r, i, j) :: 0 <= Offset(r, stride, i, j) && Offset(r, stride, i, j) + 4 <= |slice|
    modifies tex
    ensures forall i, j | 0 <= i < tex.Length1 && 0 <= j < tex.Length0 ::
              tex[j, i] == if Covers(r, i, j) then TexelAt(slice, Offset(r, stride, i, j)) else old(tex[j, i])
  {
    forall i, j | r.x <= i < r.x + r.w && r.y <= j < r.y + r.h {
      tex[j, i] := (assert Covers(r, i, j); TexelAt(slice, Offset(r, stride, i, j)));
    }
  }

  class UploadTexture {
    const tex: array2<Texel>
    var needsBase: bool

    function Abs(): U.Uploaded
      reads this, tex
    {
      U.Uploaded(ViewOf(tex), needsBase)
    }

    constructor (w: nat, h: nat)
      ensures fresh(tex) && Abs() == U.Uploaded(U.BlankTexture(w, h), true)
    {
      tex := new Texel[h, w]((j, i) => CLEAR);
      needsBase := true;
      new;
      U.SameTexture(ViewOf(tex), U.BlankTexture(w, h));
    }

    // `write_rect`; a slice or a copy out of range aborts.
    method WriteRect(f: Frame, r: Rect) returns (ok: bool)
      requires Backed(f) && 0 <= r.x && 0 <= r.y && r.w > 0 && r.h > 0
      requires U.Aborts(ViewOf(tex), f, r) || (r.x + r.w <= f.w && r.y + r.h <= f.h)
      modifies tex
      ensures ok <==> !U.Aborts(old(ViewOf(tex)), f, r)
      ensures ok ==> ViewOf(tex) == U.CopyRect(old(ViewOf(tex)), f, r)
    {
      var start := r.y * f.stride + r.x * 4;
      var end := start + (r.h - 1) * f.stride + r.w * 4;
      if end > |f.bgra| || r.x + r.w > tex.Length1 || r.y + r.h > tex.Length0 {
        return false;
      }
      SliceFits(f, r);
      var slice := f.bgra[start..end];
      forall i, j | Covers(r, i, j)
        ensures 0 <= Offset(r, f.stride, i, j) && Offset(r, f.stride, i, j) + 4 <= |slice|
        ensures Inside(f, i, j) && TexelAt(slice, Offset(r, f.stride, i, j)) == PixelAt(f, i, j)
      {
        SliceHolds(f, r, i, j);
      }
      WriteTexture(tex, r, slice, f.stride);
      U.SameTexture(ViewOf(tex), U.CopyRect(old(ViewOf(tex)), f, r));
      return true;
    }

    // `UploadTexture::write`: the whole frame onto a texture without a base or
    // for a frame without damage, and the damage otherwise.
    method Write(f: Frame, cw: nat, ch: nat) returns (ok: bool)
      requires Backed(f) && cw == tex.Length1 && ch == tex.Length0 && 0 < cw <= 0x7FFF_FFFF && 0 < ch <= 0x7FFF_FFFF
      modifies this, tex
      ensures U.Write(old(Abs()), f) == if ok then Some(Abs()) else None
    {
      ghost var before := ViewOf(tex);
      var boundW: int32 := Min(f.w, cw);
      var boundH: int32 := Min(f.h, ch);
      if needsBase || f.dirty == [] {
        var whole := Rect(0, 0, boundW, boundH);
        SliceFits(f, whole);
        ok := WriteRect(f, whole);
        needsBase := false;
        assert ok && ViewOf(tex) == U.CopyFrame(before, f);
      } else {
        var k := 0;
        while k < |f.dirty|
          invariant 0 <= k <= |f.dirty| && !needsBase
          invariant ViewOf(tex).w == before.w && ViewOf(tex).h == before.h
          invariant U.CopyDamage(before, f, f.dirty) == U.CopyDamage(ViewOf(tex), f, f.dirty[k..])
        {
          assert f.dirty[k..][1..] == f.dirty[k + 1..];
          var r := f.dirty[k];
          var clipped := ClipInPlace(r.x, r.y, r.w, r.h, boundW, boundH);
          U.DrawnFits(ViewOf(tex), f, r);
          if clipped.w > 0 && clipped.h > 0 {
            var written := WriteRect(f, clipped);
            if !written {
              return false;
            }
          }
          k := k + 1;
        }
        ok := true;
      }
    }
  }

  class Surface {
    var width: nat
    var height: nat
    var pendingW: nat
    var pendingH: nat
    var needsConfigure: bool
    const policy: U.Policy
    const site: U.Site
    const maxDim: nat
    var mode: Option<U.Mode>
    var upload: UploadTexture?
    ghost var configures: nat

    ghost function Abs(): U.Surface
      reads this, upload, if upload == null then {} else {upload.tex}
    {
      U.Surface(width, height, pendingW, pendingH, needsConfigure, policy, site, maxDim, mode,
                if upload == null then None else Some(upload.Abs()), configures)
    }

    constructor (s: U.Surface)
      requires U.Valid(s) && s.upload.None?
      ensures Abs() == s
    {
      width, height, pendingW, pendingH, needsConfigure := s.width, s.height, s.pendingW, s.pendingH, s.needsConfigure;
      policy, site, maxDim, mode, upload, configures := s.policy, s.site, s.maxDim, s.mode, null, s.configures;
    }

    method ReconfigureTo(cw: nat, ch: nat)
      modifies this
      ensures Abs() == U.ReconfigureTo(old(Abs()), cw, ch)
      ensures upload == null || upload == old(upload)
    {
      var resized := width != cw || height != ch;
      if !(resized || needsConfigure) {
        return;
      }
      width := cw;
      height := ch;
      needsConfigure := false;
      configures := configures + 1;
      if resized {
        upload := null;
        if policy.FollowFrame? {
          pendingW, pendingH := cw, ch;
        }
      }
    }

    method Resize(w: int32, h: int32)
      requires U.Valid(Abs())
      modifies this
      ensures Abs() == U.Resize(old(Abs()), w, h)
    {
      if w <= 0 || h <= 0 {
        return;
      }
      pendingW, pendingH := w, h;
      if site.Owner? {
        ReconfigureTo(U.Clamp(w, maxDim), U.Clamp(h, maxDim));
      }
    }

    method ContentDetached()
      modifies this
      ensures Abs() == U.ContentDetached(old(Abs()))
    {
      needsConfigure := true;
    }

    method Latch(kind: U.Mode) returns (ok: bool)
      modifies this`mode
      ensures U.Latch(old(Abs()), kind) == if ok then Some(Abs()) else None
      ensures !ok ==> Abs() == old(Abs())
    {
      match mode {
        case Some(latched) => ok := latched == kind;
        case None => mode, ok := Some(kind), true;
      }
    }

    method ExtentFor(w: nat, h: nat)
      requires U.Valid(Abs()) && 1 <= w <= maxDim && 1 <= h <= maxDim
      modifies this
      ensures Abs() == U.ExtentFor(old(Abs()), w, h)
      ensures upload == null || upload == old(upload)
    {
      if site.Painter? {
        if policy.FollowFrame? {
          ReconfigureTo(w, h);
        } else {
          ReconfigureTo(U.Clamp(pendingW, maxDim), U.Clamp(pendingH, maxDim));
        }
      }
    }

    method TakeUpload() returns (taken: UploadTexture)
      requires U.Valid(Abs())
      modifies this`upload
      ensures upload == null
      ensures taken.Abs() == U.TakeUpload(old(Abs()))
      ensures taken == old(upload) || (fresh(taken) && fresh(taken.tex))
      ensures taken.tex.Length1 == width && taken.tex.Length0 == height
    {
      if upload != null && upload.tex.Length1 == width && upload.tex.Length0 == height {
        taken := upload;
        upload := null;
      } else {
        upload := null;
        taken := new UploadTexture(width, height);
      }
    }

    method PresentPixels(f: Frame) returns (outcome: U.Outcome)
      requires U.Valid(Abs())
      modifies this, upload, if upload == null then {} else {upload.tex}
      ensures (Abs(), outcome) == U.PresentPixels(old(Abs()), f)
    {
      var ok := Latch(U.Copied);
      if !ok {
        return U.WrongKind;
      }
      if f.w <= 0 || f.h <= 0 || f.w > maxDim || f.h > maxDim {
        return U.BadExtent;
      }
      if !Backed(f) {
        return U.BadBuffer;
      }
      ExtentFor(f.w, f.h);
      var taken := TakeUpload();
      var written := taken.Write(f, width, height);
      if !written {
        return U.Aborted;
      }
      upload := taken;
      return U.Accepted;
    }
  }
}
