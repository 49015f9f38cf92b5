// Sixteen-bit code units, as a platform delivers them one by one, paired into
// whole characters.
module Utf16 {
  import opened Wrappers

  type Unit = n: int | 0 <= n < 0x1_0000

  type Scalar = n: int | 0 <= n < 0xD800 || 0xE000 <= n < 0x11_0000

  predicate IsScalar(n: int) {
    0 <= n < 0xD800 || 0xE000 <= n < 0x11_0000
  }

  predicate IsHigh(unit: Unit) {
    0xD800 <= unit < 0xDC00
  }

  predicate IsLow(unit: Unit) {
    0xDC00 <= unit < 0xE000
  }

  // The checked conversion from a code point.
  function FromCode(n: int): Option<Scalar> {
    if IsScalar(n) then Some(n) else None
  }

  // The code point of a pair.
  function Code(high: Unit, low: Unit): int {
    0x1_0000 + (high - 0xD800) * 0x400 + (low - 0xDC00)
  }

  // The state is the high surrogate that waits, if any.
  function Feed(high: Option<Unit>, unit: Unit): (Option<Unit>, Option<Scalar>) {
    if IsHigh(unit) then (Some(unit), None)
    else if IsLow(unit) then
      (None, if high.None? then None
             else FromCode(Code(high.value, unit)))
    else (None, FromCode(unit))
  }

  datatype Feeding = Feeding(high: Option<Unit>, chars: seq<Scalar>)

  function Then(f: Feeding, unit: Unit): Feeding {
    var (high, done) := Feed(f.high, unit);
    Feeding(high, f.chars + if done.Some? then [done.value] else [])
  }

  function FeedAll(f: Feeding, units: seq<Unit>): Feeding
    decreases |units|
  {
    if units == [] then f else FeedAll(Then(f, units[0]), units[1..])
  }

  // Section 2.1 of RFC 2781.
  function EncodeOne(c: Scalar): seq<Unit> {
    if c < 0x1_0000 then [c]
    else [(0xD800 + (c - 0x1_0000) / 0x400), (0xDC00 + (c - 0x1_0000) % 0x400)]
  }

  function Encode(chars: seq<Scalar>): seq<Unit>
    decreases |chars|
  {
    if chars == [] then [] else EncodeOne(chars[0]) + Encode(chars[1..])
  }

  // Section 2.2 of RFC 2781, which looks one unit ahead; a surrogate in error is
  // dropped and decoding goes on behind it.
  function Decode(units: seq<Unit>): seq<Scalar>
    decreases |units|
  {
    if units == [] then []
    else if !IsHigh(units[0]) && !IsLow(units[0]) then [units[0]] + Decode(units[1..])
    else if IsHigh(units[0]) && |units| > 1 && IsLow(units[1]) then
      [Code(units[0], units[1])] + Decode(units[2..])
    else Decode(units[1..])
  }

  // Every surrogate has its other half beside it.
  ghost predicate WellFormed(units: seq<Unit>) {
    forall k | 0 <= k < |units| :: Paired(units, k)
  }

  predicate Paired(units: seq<Unit>, k: nat)
    requires k < |units|
  {
    && (IsHigh(units[k]) ==> k + 1 < |units| && IsLow(units[k + 1]))
    && (IsLow(units[k]) ==> k > 0 && IsHigh(units[k - 1]))
  }

  // ----- feeding is decoding -----

  // What the waiting high surrogate and the units to come decode to.
  function Pending(high: Option<Unit>, units: seq<Unit>): seq<Unit> {
    if high.Some? then [high.value] + units else units
  }

  lemma {:induction false} FeedStep(f: Feeding, units: seq<Unit>)
    requires units != [] && (f.high.Some? ==> IsHigh(f.high.value))
    ensures var f1 := Then(f, units[0]);
      && (f1.high.Some? ==> IsHigh(f1.high.value))
      && f1.chars + Decode(Pending(f1.high, units[1..])) == f.chars + Decode(Pending(f.high, units))
  {
    var f1, tail := Then(f, units[0]), units[1..];
    assert units == [units[0]] + tail;
    if f.high.Some? {
      var all := [f.high.value] + units;
      assert all[1..] == units && all[2..] == tail;
    }
  }

  lemma {:induction false} FeedingDecodes(f: Feeding, units: seq<Unit>)
    requires f.high.Some? ==> IsHigh(f.high.value)
    ensures FeedAll(f, units).chars == f.chars + Decode(Pending(f.high, units))
    decreases |units|
  {
    if units == [] {
      if f.high.Some? {
        assert Decode([f.high.value]) == [];
      }
    } else {
      FeedStep(f, units);
      FeedingDecodes(Then(f, units[0]), units[1..]);
    }
  }

  // Fed any units at all, the characters that come out are those the units
  // decode to with every unpaired surrogate dropped.
  lemma {:induction false} FeedIsDecode(units: seq<Unit>)
    ensures FeedAll(Feeding(None, []), units).chars == Decode(units)
  {
    FeedingDecodes(Feeding(None, []), units);
  }

  // ----- round trips -----

  lemma {:induction false} DecodeEncodeOne(c: Scalar, units: seq<Unit>)
    ensures Decode(EncodeOne(c) + units) == [c] + Decode(units)
  {
    var all := EncodeOne(c) + units;
    if c < 0x1_0000 {
      assert all[1..] == units;
    } else {
      assert all[0] == EncodeOne(c)[0] && all[1] == EncodeOne(c)[1] && all[2..] == units;
    }
  }

  lemma {:induction false} DecodeEncode(chars: seq<Scalar>)
    ensures Decode(Encode(chars)) == chars
    decreases |chars|
  {
    if chars != [] {
      DecodeEncode(chars[1..]);
      DecodeEncodeOne(chars[0], Encode(chars[1..]));
    }
  }

  // Whatever characters a platform encodes, feeding its units gives them back,
  // with no half character left waiting.
  lemma {:induction false} FeedEncodedRoundTrip(chars: seq<Scalar>)
    ensures FeedAll(Feeding(None, []), Encode(chars)) == Feeding(None, chars)
  {
    FeedIsDecode(Encode(chars));
    DecodeEncode(chars);
    NothingWaits(Feeding(None, []), chars);
  }

  lemma {:induction false} NothingWaits(f: Feeding, chars: seq<Scalar>)
    requires f.high.None?
    ensures FeedAll(f, Encode(chars)).high.None?
    decreases |chars|
  {
    if chars != [] {
      var one, rest := EncodeOne(chars[0]), Encode(chars[1..]);
      var all := one + rest;
      if |one| == 1 {
        assert all[1..] == rest;
        NothingWaits(Then(f, one[0]), chars[1..]);
      } else {
        assert all[1..][1..] == rest && all[1..][0] == one[1];
        NothingWaits(Then(Then(f, one[0]), one[1]), chars[1..]);
      }
    }
  }

  lemma {:induction false} WellFormedTail(units: seq<Unit>, n: nat)
    requires WellFormed(units) && n <= |units| && (n < |units| ==> !IsLow(units[n]))
    ensures WellFormed(units[n..])
  {
    var tail := units[n..];
    forall k | 0 <= k < |tail|
      ensures Paired(tail, k)
    {
      assert Paired(units, n + k);
    }
  }

  lemma {:induction false} EncodeDecodeWellFormed(units: seq<Unit>)
    requires WellFormed(units)
    ensures Encode(Decode(units)) == units
    decreases |units|
  {
    if units != [] {
      assert Paired(units, 0);
      var n := if IsHigh(units[0]) then 2 else 1;
      assert n < |units| ==> Paired(units, n);
      WellFormedTail(units, n);
      EncodeDecodeWellFormed(units[n..]);
      assert Decode(units)[1..] == Decode(units[n..]);
      EncodeOneDecoded(units, n);
      assert units == units[..n] + units[n..];
    }
  }

  lemma {:induction false} EncodePair(high: Unit, low: Unit)
    requires IsHigh(high) && IsLow(low)
    ensures EncodeOne(Code(high, low)) == [high, low]
  {
  }

  lemma {:induction false} DecodedHead(units: seq<Unit>)
    requires units != [] && !IsLow(units[0]) && (IsHigh(units[0]) ==> |units| > 1 && IsLow(units[1]))
    ensures Decode(units) != []
    ensures if IsHigh(units[0]) then Decode(units)[0] == Code(units[0], units[1]) else Decode(units)[0] == units[0]
  {
  }

  lemma {:induction false} EncodeOneDecoded(units: seq<Unit>, n: nat)
    requires WellFormed(units) && units != [] && n == (if IsHigh(units[0]) then 2 else 1)
    ensures n <= |units| && Decode(units) != [] && EncodeOne(Decode(units)[0]) == units[..n]
  {
    assert Paired(units, 0);
    DecodedHead(units);
    if n == 2 {
      EncodePair(units[0], units[1]);
      assert EncodeOne(Decode(units)[0]) == [units[0], units[1]];
      assert units[..n] == [units[0], units[1]];
    } else {
      assert units[..n] == [units[0]];
    }
  }

  lemma {:induction false} EncodingIsWellFormed(chars: seq<Scalar>)
    ensures WellFormed(Encode(chars)) && (chars != [] ==> Encode(chars) != [] && !IsLow(Encode(chars)[0]))
    decreases |chars|
  {
    if chars != [] {
      EncodingIsWellFormed(chars[1..]);
      var one, rest := EncodeOne(chars[0]), Encode(chars[1..]);
      var all := one + rest;
      forall k | 0 <= k < |all|
        ensures Paired(all, k)
      {
        if k >= |one| {
          assert Paired(rest, k - |one|);
        }
      }
    }
  }

  // Encoding what was decoded gives the units back exactly when they were well
  // formed: nothing else survives the dropping of unpaired surrogates.
  lemma {:induction false} ReEncodesExactlyWellFormed(units: seq<Unit>)
    ensures Encode(FeedAll(Feeding(None, []), units).chars) == units <==> WellFormed(units)
  {
    FeedIsDecode(units);
    EncodingIsWellFormed(Decode(units));
    if WellFormed(units) {
      EncodeDecodeWellFormed(units);
    }
  }
}

// The pairing state, updated in place.
module Utf16Objects {
  import opened Wrappers
  import U = Utf16

  class Utf16 {
    var high: Option<U.Unit>

    constructor ()
      ensures high == None
    {
      high := None;
    }

    method Feed(unit: U.Unit) returns (done: Option<U.Scalar>)
      modifies this
      ensures (high, done) == U.Feed(old(high), unit)
    {
      var pending := high;
      high := None;
      if U.IsHigh(unit) {
        high := Some(unit);
        return None;
      }
      if U.IsLow(unit) {
        if pending.None? {
          return None;
        }
        return U.FromCode(U.Code(pending.value, unit));
      }
      return U.FromCode(unit);
    }
  }
}
