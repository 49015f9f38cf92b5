// The coalescing scroll accumulator: wheel deltas add up, each flush drains an
// integer chunk and carries the remainder. Deltas are exact reals here.
module Scroll {
  import opened Wrappers

  const PIXELS_PER_TICK: real := 40.0
  const DRAIN: real := 0.45
  const I32_MIN: int := -0x8000_0000
  const I32_MAX: int := 0x7FFF_FFFF

  function Abs(v: real): real {
    if v < 0.0 then -v else v
  }

  // Half-way cases round away from zero.
  function Round(v: real): int {
    if v >= 0.0 then (v + 0.5).Floor else -((0.5 - v).Floor)
  }

  // A cast to a 32-bit integer saturates.
  function Saturate(n: int): int {
    if n < I32_MIN then I32_MIN else if n > I32_MAX then I32_MAX else n
  }

  datatype Accum = Accum(
    ax: real, ay: real, x: int, y: int, mods: nat, precise: bool, pending: bool, scheduled: bool)

  datatype Chunk = Chunk(x: int, y: int, dx: int, dy: int, mods: nat, precise: bool)

  datatype Wheel = Wheel(x: int, y: int, mods: nat, precise: bool, dx: real, dy: real)

  function New(): Accum {
    Accum(0.0, 0.0, 0, 0, 0, false, false, false)
  }

  function Scaled(wheel: Wheel, delta: real): real {
    if wheel.precise then delta else delta * PIXELS_PER_TICK
  }

  function Accumulate(a: Accum, wheel: Wheel): (Accum, bool) {
    (Accum(a.ax + Scaled(wheel, wheel.dx), a.ay + Scaled(wheel, wheel.dy),
           wheel.x, wheel.y, wheel.mods, wheel.precise, true, true),
     !a.scheduled)
  }

  // What one flush takes from an axis.
  function Drained(precise: bool, v: real): int {
    if precise then Saturate(Round(v))
    else
      var d := Saturate(Round(v * DRAIN));
      if d == 0 && Abs(v) >= 1.0 then (if v > 0.0 then 1 else -1) else d
  }

  // What it leaves there; a line flush zeroes less than half a unit.
  function Left(precise: bool, v: real): real {
    var rest := v - Drained(precise, v) as real;
    if !precise && Abs(rest) < 0.5 then 0.0 else rest
  }

  function Flush(a: Accum): (Accum, Option<Chunk>) {
    if !a.pending then (a.(scheduled := false), None)
    else
      var dx, dy := Drained(a.precise, a.ax), Drained(a.precise, a.ay);
      var ax, ay := Left(a.precise, a.ax), Left(a.precise, a.ay);
      (a.(ax := ax, ay := ay, pending := ax != 0.0 || ay != 0.0, scheduled := false),
       if dx == 0 && dy == 0 then None else Some(Chunk(a.x, a.y, dx, dy, a.mods, a.precise)))
  }

  // ----- one axis -----

  lemma {:induction false} RoundIsNearest(v: real)
    ensures Abs(v - Round(v) as real) <= 0.5
    ensures v >= 0.0 ==> Round(v) >= 0
    ensures v <= 0.0 ==> Round(v) <= 0
  {
    if v >= 0.0 {
      var f := (v + 0.5).Floor;
      assert f as real <= v + 0.5 < f as real + 1.0;
    } else {
      var f := (0.5 - v).Floor;
      assert f as real <= 0.5 - v < f as real + 1.0;
    }
  }

  // A half is rounded away from zero, and both signs alike.
  lemma {:induction false} HalfGoesOut(v: real)
    ensures Round(-v) == -Round(v)
    ensures Abs(v - Round(v) as real) == 0.5 ==> Abs(Round(v) as real) > Abs(v)
  {
    RoundIsNearest(v);
    if v >= 0.0 {
      var f := (v + 0.5).Floor;
      assert f as real <= v + 0.5 < f as real + 1.0;
    } else {
      var f := (0.5 - v).Floor;
      assert f as real <= 0.5 - v < f as real + 1.0;
    }
  }

  // A precise flush leaves at most half a unit exactly when the delta is within
  // half a unit of the 32-bit range; beyond it the cast saturates.
  lemma {:induction false} PreciseLeavesHalfExactlyInRange(v: real)
    ensures Abs(Left(true, v)) <= 0.5 <==> I32_MIN as real - 0.5 <= v <= I32_MAX as real + 0.5
  {
    RoundIsNearest(v);
  }

  // A line flush never takes more than there is and never turns it round.
  lemma {:induction false} LineNeverOvershoots(v: real)
    ensures var d := Drained(false, v) as real;
      if v >= 0.0 then 0.0 <= d <= v else v <= d <= 0.0
  {
    RoundIsNearest(v * DRAIN);
  }

  // Between nothing and all of it, on its own side.
  predicate Within(rest: real, v: real) {
    if v >= 0.0 then 0.0 <= rest <= v else v <= rest <= 0.0
  }

  lemma {:induction false} LineLeavesSign(v: real)
    ensures Within(Left(false, v), v)
  {
    LineNeverOvershoots(v);
  }

  // It takes something exactly when a whole unit is there to take.
  lemma {:induction false} LineTakesFromAUnit(v: real)
    ensures Drained(false, v) != 0 <==> Abs(v) >= 1.0
  {
    RoundIsNearest(v * DRAIN);
  }

  // Within the 32-bit range it takes the nearest to 45 hundredths of what there is,
  // but a whole unit at least; and what it leaves is nothing or half a unit.
  lemma {:induction false} LineTakesItsShare(v: real)
    requires I32_MIN as real <= v <= I32_MAX as real
    ensures var d := Drained(false, v);
      if Abs(v) >= 1.0 && Abs(0.45 * v) < 0.5 then d == (if v > 0.0 then 1 else -1)
      else Abs(0.45 * v - d as real) <= 0.5
    ensures Left(false, v) == 0.0 || Abs(Left(false, v)) >= 0.5
    ensures Abs(v - Drained(false, v) as real) >= 0.5 ==> Left(false, v) == v - Drained(false, v) as real
  {
    RoundIsNearest(v * DRAIN);
    HalfGoesOut(v * DRAIN);
  }

  // ----- runs -----

  datatype Op = Scroll(wheel: Wheel) | Drain

  // Histories beside the accumulator: what came in, what went out, what line
  // flushes zeroed and how many there were, and, since the last flush, the
  // events and the calls that asked for a flush.
  datatype Trace = Trace(
    accum: Accum, inX: real, inY: real, outX: int, outY: int, zeroedX: real, zeroedY: real,
    lineFlushes: nat, events: nat, signals: nat)

  function Start(): Trace {
    Trace(New(), 0.0, 0.0, 0, 0, 0.0, 0.0, 0, 0, 0)
  }

  function Step(t: Trace, op: Op): Trace {
    match op
    case Scroll(wheel) =>
      var (accum, schedule) := Accumulate(t.accum, wheel);
      t.(accum := accum, inX := t.inX + Scaled(wheel, wheel.dx), inY := t.inY + Scaled(wheel, wheel.dy),
      events := t.events + 1, signals := t.signals + if schedule then 1 else 0)
    case Drain =>
      var (accum, chunk) := Flush(t.accum);
      var (dx, dy) := if chunk.Some? then (chunk.value.dx, chunk.value.dy) else (0, 0);
      var line := t.accum.pending && !t.accum.precise;
      t.(accum := accum, outX := t.outX + dx, outY := t.outY + dy,
      zeroedX := t.zeroedX + Zeroed(t.accum, t.accum.ax), zeroedY := t.zeroedY + Zeroed(t.accum, t.accum.ay),
      lineFlushes := t.lineFlushes + (if line then 1 else 0), events := 0, signals := 0)
  }

  // What a flush of `a` drops from an axis holding `v`.
  function Zeroed(a: Accum, v: real): real {
    if !a.pending || a.precise then 0.0 else v - Drained(false, v) as real - Left(false, v)
  }

  function Run(t: Trace, ops: seq<Op>): Trace
    decreases |ops|
  {
    if ops == [] then t else Step(Run(t, ops[..|ops| - 1]), ops[|ops| - 1])
  }

  // Below half a unit for every line flush.
  ghost predicate ZeroedBound(zeroed: real, lineFlushes: nat) {
    if lineFlushes == 0 then zeroed == 0.0 else Abs(zeroed) < lineFlushes as real * 0.5
  }

  ghost predicate Inv(t: Trace) {
    && t.inX == t.outX as real + t.accum.ax + t.zeroedX
    && t.inY == t.outY as real + t.accum.ay + t.zeroedY
    && ZeroedBound(t.zeroedX, t.lineFlushes) && ZeroedBound(t.zeroedY, t.lineFlushes)
    && (!t.accum.pending ==> t.accum.ax == 0.0 && t.accum.ay == 0.0)
    && (t.accum.scheduled <==> t.events > 0)
    && t.signals == (if t.events > 0 then 1 else 0)
  }

  lemma {:induction false} AxisConserved(a: Accum, v: real)
    requires a.pending
    ensures v == Drained(a.precise, v) as real + Left(a.precise, v) + Zeroed(a, v)
    ensures Abs(Zeroed(a, v)) < 0.5
    ensures a.precise ==> Zeroed(a, v) == 0.0
  {
  }

  lemma {:induction false} ZeroedGrows(zeroed: real, more: real, lineFlushes: nat, line: bool)
    requires ZeroedBound(zeroed, lineFlushes) && Abs(more) < 0.5 && (!line ==> more == 0.0)
    ensures ZeroedBound(zeroed + more, lineFlushes + if line then 1 else 0)
  {
  }

  lemma {:induction false} DrainKeeps(t: Trace)
    requires Inv(t)
    ensures Inv(Step(t, Drain))
  {
    var line := t.accum.pending && !t.accum.precise;
    if t.accum.pending {
      AxisConserved(t.accum, t.accum.ax);
      AxisConserved(t.accum, t.accum.ay);
    }
    ZeroedGrows(t.zeroedX, Zeroed(t.accum, t.accum.ax), t.lineFlushes, line);
    ZeroedGrows(t.zeroedY, Zeroed(t.accum, t.accum.ay), t.lineFlushes, line);
  }

  lemma {:induction false} RunKeeps(ops: seq<Op>)
    ensures Inv(Run(Start(), ops))
    decreases |ops|
  {
    if ops != [] {
      RunKeeps(ops[..|ops| - 1]);
      if ops[|ops| - 1].Drain? {
        DrainKeeps(Run(Start(), ops[..|ops| - 1]));
      }
    }
  }

  // ----- results -----

  // What the user scrolled, in pixels: a line is forty.
  function Scrolled(ops: seq<Op>, vertical: bool): real
    decreases |ops|
  {
    if ops == [] then 0.0
    else
      Scrolled(ops[..|ops| - 1], vertical)
      + match ops[|ops| - 1]
        case Drain => 0.0
        case Scroll(wheel) =>
          var delta := if vertical then wheel.dy else wheel.dx;
          if wheel.precise then delta else 40.0 * delta
  }

  // The chunks the flushes forwarded, in order.
  function Forwarded(ops: seq<Op>): seq<Chunk>
    decreases |ops|
  {
    if ops == [] then []
    else
      var before := ops[..|ops| - 1];
      Forwarded(before)
      + if ops[|ops| - 1].Drain? then
          match Flush(Run(Start(), before).accum).1
          case Some(chunk) => [chunk]
          case None => []
        else []
  }

  function Total(chunks: seq<Chunk>, vertical: bool): int
    decreases |chunks|
  {
    if chunks == [] then 0
    else Total(chunks[..|chunks| - 1], vertical) + if vertical then chunks[|chunks| - 1].dy else chunks[|chunks| - 1].dx
  }

  lemma {:induction false} TotalAppend(chunks: seq<Chunk>, chunk: Chunk)
    ensures Total(chunks + [chunk], false) == Total(chunks, false) + chunk.dx
    ensures Total(chunks + [chunk], true) == Total(chunks, true) + chunk.dy
  {
    assert (chunks + [chunk])[..|chunks|] == chunks;
  }

  function Drains(ops: seq<Op>): nat
    decreases |ops|
  {
    if ops == [] then 0 else Drains(ops[..|ops| - 1]) + if ops[|ops| - 1].Drain? then 1 else 0
  }

  lemma {:induction false} TraceIsTheHistory(ops: seq<Op>)
    ensures var t := Run(Start(), ops);
      && t.inX == Scrolled(ops, false) && t.inY == Scrolled(ops, true)
      && t.outX == Total(Forwarded(ops), false) && t.outY == Total(Forwarded(ops), true)
      && t.lineFlushes <= Drains(ops)
    decreases |ops|
  {
    if ops != [] {
      var before := ops[..|ops| - 1];
      TraceIsTheHistory(before);
      if ops[|ops| - 1].Drain? && Flush(Run(Start(), before).accum).1.Some? {
        TotalAppend(Forwarded(before), Flush(Run(Start(), before).accum).1.value);
      } else {
        assert Forwarded(ops) == Forwarded(before);
      }
    }
  }

  // Over any mix of precise and line events and flushes nothing is lost but what
  // line flushes zero out, less than half a unit each: what was scrolled is what
  // was forwarded plus what is carried plus that.
  lemma {:induction false} ScrollIsConserved(ops: seq<Op>)
    ensures var t := Run(Start(), ops); var chunks := Forwarded(ops);
      && Scrolled(ops, false) == Total(chunks, false) as real + t.accum.ax + t.zeroedX && ZeroedBound(t.zeroedX, t.lineFlushes)
      && Scrolled(ops, true) == Total(chunks, true) as real + t.accum.ay + t.zeroedY && ZeroedBound(t.zeroedY, t.lineFlushes)
      && t.lineFlushes <= Drains(ops)
  {
    RunKeeps(ops);
    TraceIsTheHistory(ops);
  }

  // The last event, if there was one.
  function LastWheel(ops: seq<Op>): Option<Wheel>
    decreases |ops|
  {
    if ops == [] then None
    else if ops[|ops| - 1].Scroll? then Some(ops[|ops| - 1].wheel)
    else LastWheel(ops[..|ops| - 1])
  }

  lemma {:induction false} AccumIsAtLastWheel(ops: seq<Op>)
    ensures var a := Run(Start(), ops).accum;
      match LastWheel(ops)
      case Some(wheel) => a.x == wheel.x && a.y == wheel.y && a.mods == wheel.mods && a.precise == wheel.precise
      case None => !a.pending
    decreases |ops|
  {
    if ops != [] {
      AccumIsAtLastWheel(ops[..|ops| - 1]);
    }
  }

  // A chunk goes out where the last event was, with its modifiers and of its kind,
  // and carries exactly what its axes drain, if that is anything.
  lemma {:induction false} ChunkIsAtLastWheel(ops: seq<Op>)
    ensures var a := Run(Start(), ops).accum; var chunk := Flush(a).1;
      var dx, dy := Drained(a.precise, a.ax), Drained(a.precise, a.ay);
      && (chunk.Some? <==> a.pending && (dx != 0 || dy != 0))
      && (chunk.Some? ==>
            && LastWheel(ops).Some?
            && var wheel := LastWheel(ops).value;
               chunk.value == Chunk(wheel.x, wheel.y, dx, dy, wheel.mods, wheel.precise))
  {
    AccumIsAtLastWheel(ops);
  }

  // A burst asks for one flush: its first event returns `true`, no other does.
  lemma {:induction false} OneFlushPerBurst(ops: seq<Op>)
    ensures var t := Run(Start(), ops);
      && (t.accum.scheduled <==> t.events > 0)
      && t.signals == (if t.events > 0 then 1 else 0)
  {
    RunKeeps(ops);
  }

  // With nothing pending nothing is carried, and a flush then only clears the
  // latch; after any flush what is pending is exactly what is carried.
  lemma {:induction false} PendingIsCarried(ops: seq<Op>)
    ensures var a := Run(Start(), ops).accum;
      && (!a.pending ==> a.ax == 0.0 && a.ay == 0.0 && Flush(a) == (a.(scheduled := false), None))
      && var b := Flush(a).0; (b.pending <==> b.ax != 0.0 || b.ay != 0.0)
  {
    RunKeeps(ops);
  }

  // ----- settling -----

  // Whole units still to drain.
  function Units(a: Accum): nat {
    Abs(a.ax).Floor + Abs(a.ay).Floor
  }

  lemma {:induction false} LineFlushTakesUnits(v: real)
    ensures Abs(Left(false, v)).Floor <= Abs(v).Floor
    ensures Abs(v) >= 1.0 ==> Abs(Left(false, v)).Floor < Abs(v).Floor
  {
    LineNeverOvershoots(v);
    LineTakesFromAUnit(v);
    var d := Drained(false, v);
    var rest := Abs(v - d as real);
    assert Abs(Left(false, v)) <= rest;
    if v >= 0.0 {
      assert rest == v - d as real && rest.Floor == v.Floor - d;
    } else {
      assert rest == -v + d as real && rest.Floor == (-v).Floor + d;
    }
  }

  function FlushTimes(a: Accum, n: nat): Accum
    decreases n
  {
    if n == 0 then a else FlushTimes(Flush(a).0, n - 1)
  }

  // However many line flushes run, neither axis grows or turns round.
  lemma {:induction false} LineFlushesNeverTurn(a: Accum, n: nat)
    requires !a.precise
    ensures Within(FlushTimes(a, n).ax, a.ax) && Within(FlushTimes(a, n).ay, a.ay)
    decreases n
  {
    if n > 0 {
      LineLeavesSign(a.ax);
      LineLeavesSign(a.ay);
      LineFlushesNeverTurn(Flush(a).0, n - 1);
    }
  }

  predicate Settled(a: Accum) {
    Abs(a.ax) < 1.0 && Abs(a.ay) < 1.0
  }

  // Line flushes alone drain both axes below one unit in as many flushes as
  // there are whole units, and one flush more changes nothing and emits nothing.
  lemma {:induction false} LineFlushesSettle(a: Accum, n: nat)
    requires !a.precise && (a.pending || Settled(a)) && n >= Units(a)
    ensures Settled(FlushTimes(a, n))
    decreases n
  {
    if Settled(a) {
      StaysSettled(a, n);
    } else {
      LineFlushTakesUnits(a.ax);
      LineFlushTakesUnits(a.ay);
      LineFlushesSettle(Flush(a).0, n - 1);
    }
  }

  lemma {:induction false} SettledFlush(a: Accum)
    requires !a.precise && Settled(a)
    ensures Settled(Flush(a).0) && Flush(a).1.None?
    ensures Flush(Flush(a).0) == (Flush(a).0, None)
  {
    LineTakesFromAUnit(a.ax);
    LineTakesFromAUnit(a.ay);
  }

  lemma {:induction false} StaysSettled(a: Accum, n: nat)
    requires !a.precise && Settled(a)
    ensures Settled(FlushTimes(a, n))
    decreases n
  {
    if n > 0 {
      SettledFlush(a);
      StaysSettled(Flush(a).0, n - 1);
    }
  }
}

// The accumulator's fields, updated in place.
module ScrollObjects {
  import opened Wrappers
  import S = Scroll

  class ScrollAccum {
    var ax: real
    var ay: real
    var x: int
    var y: int
    var mods: nat
    var precise: bool
    var pending: bool
    var flushScheduled: bool

    ghost function Abs(): S.Accum
      reads this
    {
      S.Accum(ax, ay, x, y, mods, precise, pending, flushScheduled)
    }

    constructor ()
      ensures Abs() == S.New()
    {
      ax, ay, x, y, mods, precise, pending, flushScheduled := 0.0, 0.0, 0, 0, 0, false, false, false;
    }

    method Accumulate(wheel: S.Wheel) returns (schedule: bool)
      modifies this
      ensures (Abs(), schedule) == S.Accumulate(old(Abs()), wheel)
    {
      x, y, mods, precise := wheel.x, wheel.y, wheel.mods, wheel.precise;
      if precise {
        ax, ay := ax + wheel.dx, ay + wheel.dy;
      } else {
        ax, ay := ax + wheel.dx * S.PIXELS_PER_TICK, ay + wheel.dy * S.PIXELS_PER_TICK;
      }
      pending := true;
      if flushScheduled {
        return false;
      }
      flushScheduled := true;
      return true;
    }

    method Flush() returns (chunk: Option<S.Chunk>)
      modifies this
      ensures (Abs(), chunk) == S.Flush(old(Abs()))
    {
      flushScheduled := false;
      if !pending {
        return None;
      }
      ghost var before := Abs();
      var dx, dy;
      if precise {
        dx, dy := S.Saturate(S.Round(ax)), S.Saturate(S.Round(ay));
        ax, ay := ax - dx as real, ay - dy as real;
      } else {
        dx, dy := S.Saturate(S.Round(ax * S.DRAIN)), S.Saturate(S.Round(ay * S.DRAIN));
        if dx == 0 && S.Abs(ax) >= 1.0 {
          dx := if ax > 0.0 then 1 else -1;
        }
        if dy == 0 && S.Abs(ay) >= 1.0 {
          dy := if ay > 0.0 then 1 else -1;
        }
        assert dx == S.Drained(false, before.ax) && dy == S.Drained(false, before.ay);
        ax, ay := ax - dx as real, ay - dy as real;
        if S.Abs(ax) < 0.5 {
          ax := 0.0;
        }
        if S.Abs(ay) < 0.5 {
          ay := 0.0;
        }
      }
      assert dx == S.Drained(precise, before.ax) && ax == S.Left(precise, before.ax);
      assert dy == S.Drained(precise, before.ay) && ay == S.Left(precise, before.ay);
      pending := ax != 0.0 || ay != 0.0;
      if dx == 0 && dy == 0 {
        return None;
      }
      return Some(S.Chunk(x, y, dx, dy, mods, precise));
    }
  }
}
