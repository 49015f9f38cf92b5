// The stderr capture: reads arrive in chunks cut anywhere, whole lines are
// emitted, the unfinished one is kept for the next read.
module LineSplitter {

  const NEWLINE: char := '\n'

  // Where the first newline at or after `i` is, or the length without one.
  function PositionFrom(bytes: string, i: nat): (pos: nat)
    requires i <= |bytes|
    ensures i <= pos <= |bytes|
    ensures forall k | i <= k < pos :: bytes[k] != NEWLINE
    ensures pos < |bytes| ==> bytes[pos] == NEWLINE
    decreases |bytes| - i
  {
    if i == |bytes| || bytes[i] == NEWLINE then i else PositionFrom(bytes, i + 1)
  }

  function Position(bytes: string): nat {
    PositionFrom(bytes, 0)
  }

  // The lines one drain emits: a blank one is dropped.
  function Emitted(line: string): seq<string> {
    if line == "" then [] else [line]
  }

  // What draining `partial` emits and what it leaves.
  function Lines(partial: string): seq<string>
    decreases |partial|
  {
    var pos := Position(partial);
    if pos == |partial| then [] else Emitted(partial[..pos]) + Lines(partial[pos + 1..])
  }

  function Rest(partial: string): string
    decreases |partial|
  {
    var pos := Position(partial);
    if pos == |partial| then partial else Rest(partial[pos + 1..])
  }

  lemma {:induction false} Regroup<T>(a: seq<T>, b: seq<T>, c: seq<T>)
    ensures a + b + c == a + (b + c)
  {
  }

  lemma {:induction false} DrainOne(emitted: seq<string>, partial: string, pos: nat)
    requires pos == Position(partial) < |partial|
    ensures var line, tail := partial[..pos], partial[pos + 1..];
      && Rest(partial) == Rest(tail)
      && emitted + Lines(partial) == emitted + Emitted(line) + Lines(tail)
  {
    Regroup(emitted, Emitted(partial[..pos]), Lines(partial[pos + 1..]));
  }

  // One read: the chunk joins the unfinished line and every whole line leaves.
  function Feed(partial: string, chunk: string): (seq<string>, string) {
    (Lines(partial + chunk), Rest(partial + chunk))
  }

  function FeedAll(partial: string, chunks: seq<string>): (seq<string>, string)
    decreases |chunks|
  {
    if chunks == [] then ([], partial)
    else
      var (lines, left) := FeedAll(partial, chunks[..|chunks| - 1]);
      var (more, rest) := Feed(left, chunks[|chunks| - 1]);
      (lines + more, rest)
  }

  function Joined(chunks: seq<string>): string
    decreases |chunks|
  {
    if chunks == [] then "" else Joined(chunks[..|chunks| - 1]) + chunks[|chunks| - 1]
  }

  // ----- the stream, byte by byte -----

  datatype Reading = Reading(lines: seq<string>, line: string)

  // A byte extends the line, a newline ends it.
  function Take(r: Reading, byte: char): Reading {
    if byte == NEWLINE then Reading(r.lines + Emitted(r.line), "") else Reading(r.lines, r.line + [byte])
  }

  // The reading that knows no chunks.
  function ByByte(bytes: string): Reading
    decreases |bytes|
  {
    if bytes == "" then Reading([], "") else Take(ByByte(bytes[..|bytes| - 1]), bytes[|bytes| - 1])
  }

  lemma {:induction false} ByByteSnoc(bytes: string, byte: char, all: string)
    requires all == bytes + [byte]
    ensures ByByte(all) == Take(ByByte(bytes), byte)
  {
    assert all[..|bytes|] == bytes;
  }

  lemma {:induction false} ByByteNoNewline(bytes: string, more: string)
    requires NEWLINE !in more
    ensures ByByte(bytes + more) == Reading(ByByte(bytes).lines, ByByte(bytes).line + more)
    decreases |more|
  {
    if more == "" {
      assert bytes + more == bytes;
      assert ByByte(bytes).line + more == ByByte(bytes).line;
    } else {
      var init, last := more[..|more| - 1], more[|more| - 1];
      ByByteNoNewline(bytes, init);
      SplitLast(bytes, more);
      SplitLast(ByByte(bytes).line, more);
      ByByteSnoc(bytes + init, last, bytes + more);
    }
  }

  lemma {:induction false} SplitLast(front: string, more: string)
    requires more != ""
    ensures front + more == (front + more[..|more| - 1]) + [more[|more| - 1]]
  {
  }

  lemma {:induction false} OneLine(before: string, line: string)
    requires ByByte(before).line == "" && NEWLINE !in line
    ensures ByByte(before + line + [NEWLINE]) == Reading(ByByte(before).lines + Emitted(line), "")
  {
    ByByteNoNewline(before, line);
    ByByteSnoc(before + line, NEWLINE, before + line + [NEWLINE]);
    assert "" + line == line;
  }

  // Reading on from any point where no line is open.
  lemma {:induction false} DrainIsByByte(before: string, partial: string)
    requires ByByte(before).line == ""
    ensures ByByte(before + partial).lines == ByByte(before).lines + Lines(partial)
    ensures ByByte(before + partial).line == Rest(partial)
    decreases |partial|
  {
    var pos := Position(partial);
    if pos == |partial| {
      ByByteNoNewline(before, partial);
    } else {
      var upTo := before + partial[..pos] + [NEWLINE];
      OneLine(before, partial[..pos]);
      DrainIsByByte(upTo, partial[pos + 1..]);
      CutAtNewline(before, partial, pos);
      DrainOne(ByByte(before).lines, partial, pos);
    }
  }

  lemma {:induction false} CutAtNewline(before: string, partial: string, pos: nat)
    requires pos < |partial| && partial[pos] == NEWLINE
    ensures before + partial == before + partial[..pos] + [NEWLINE] + partial[pos + 1..]
  {
  }

  lemma {:induction false} RestHasNoNewline(partial: string)
    ensures NEWLINE !in Rest(partial)
    decreases |partial|
  {
    var pos := Position(partial);
    if pos < |partial| {
      RestHasNoNewline(partial[pos + 1..]);
    }
  }

  lemma {:induction false} RestIsASuffix(partial: string) returns (cut: nat)
    ensures cut <= |partial| && Rest(partial) == partial[cut..]
    ensures cut == 0 || partial[cut - 1] == NEWLINE
    decreases |partial|
  {
    var pos := Position(partial);
    if pos == |partial| {
      return 0;
    }
    var later := RestIsASuffix(partial[pos + 1..]);
    cut := pos + 1 + later;
    assert partial[pos + 1..][later..] == partial[cut..];
  }

  lemma {:induction false} LinesAreWhole(partial: string)
    ensures forall k | 0 <= k < |Lines(partial)| :: Lines(partial)[k] != "" && NEWLINE !in Lines(partial)[k]
    decreases |partial|
  {
    var pos := Position(partial);
    if pos < |partial| {
      LinesAreWhole(partial[pos + 1..]);
    }
  }

  // ----- results -----

  // A kept line and one more chunk drain as the bytes behind them do.
  lemma {:induction false} FeedContinues(bytes: string, chunk: string)
    ensures var r, more := ByByte(bytes), Feed(ByByte(bytes).line, chunk);
      ByByte(bytes + chunk) == Reading(r.lines + more.0, more.1)
  {
    var cut := OpenLine(bytes);
    ContinueAt(bytes, bytes[..cut], bytes[cut..], chunk);
  }

  // Where the line still open begins.
  lemma {:induction false} OpenLine(bytes: string) returns (cut: nat)
    ensures cut <= |bytes| && bytes == bytes[..cut] + bytes[cut..]
    ensures ByByte(bytes).line == bytes[cut..] && NEWLINE !in bytes[cut..]
    ensures cut == 0 || bytes[cut - 1] == NEWLINE
  {
    WholeStream(bytes);
    RestHasNoNewline(bytes);
    cut := RestIsASuffix(bytes);
    assert bytes == bytes[..cut] + bytes[cut..];
  }

  lemma {:induction false} ContinueAt(bytes: string, head: string, rest: string, chunk: string)
    requires bytes == head + rest && NEWLINE !in rest
    requires head == "" || head[|head| - 1] == NEWLINE
    ensures var more := Feed(rest, chunk);
      ByByte(bytes + chunk) == Reading(ByByte(bytes).lines + more.0, more.1)
  {
    NoLineOpen(head);
    ByByteNoNewline(head, rest);
    DrainIsByByte(head, rest + chunk);
    Regroup(head, rest, chunk);
  }

  lemma {:induction false} NoLineOpen(bytes: string)
    requires bytes == "" || bytes[|bytes| - 1] == NEWLINE
    ensures ByByte(bytes).line == ""
  {
  }

  lemma {:induction false} Nothing<T>(a: seq<T>)
    ensures [] + a == a
  {
  }

  lemma {:induction false} WholeStream(bytes: string)
    ensures ByByte(bytes) == Reading(Lines(bytes), Rest(bytes))
  {
    Nothing(bytes);
    Nothing(Lines(bytes));
    DrainIsByByte("", bytes);
  }

  // However a stream is cut into reads, the lines emitted and the bytes kept are
  // those of the whole stream read byte by byte.
  lemma {:induction false} ChunkingIsInvisible(chunks: seq<string>)
    ensures Reading(FeedAll("", chunks).0, FeedAll("", chunks).1) == ByByte(Joined(chunks))
    decreases |chunks|
  {
    if chunks != [] {
      var before := chunks[..|chunks| - 1];
      ChunkingIsInvisible(before);
      FeedContinues(Joined(before), chunks[|chunks| - 1]);
    }
  }

  // So two ways of cutting one stream emit the same lines.
  lemma {:induction false} SameStreamSameLines(chunks: seq<string>, others: seq<string>)
    requires Joined(chunks) == Joined(others)
    ensures FeedAll("", chunks) == FeedAll("", others)
  {
    ChunkingIsInvisible(chunks);
    ChunkingIsInvisible(others);
  }

  // The lines as a stream again, each ended by its newline.
  function Ended(lines: seq<string>): string
    decreases |lines|
  {
    if lines == [] then "" else Ended(lines[..|lines| - 1]) + lines[|lines| - 1] + [NEWLINE]
  }

  // The stream without its blank lines.
  function Squeezed(bytes: string): string
    decreases |bytes|
  {
    if bytes == "" then ""
    else
      var before, byte := bytes[..|bytes| - 1], bytes[|bytes| - 1];
      if byte == NEWLINE && (before == "" || before[|before| - 1] == NEWLINE) then Squeezed(before)
      else Squeezed(before) + [byte]
  }

  lemma {:induction false} ReadingIsSqueezed(bytes: string)
    ensures Ended(ByByte(bytes).lines) + ByByte(bytes).line == Squeezed(bytes)
    ensures ByByte(bytes).line == "" <==> bytes == "" || bytes[|bytes| - 1] == NEWLINE
    decreases |bytes|
  {
    if bytes != "" {
      var before, byte := bytes[..|bytes| - 1], bytes[|bytes| - 1];
      ReadingIsSqueezed(before);
      var r := ByByte(before);
      if byte == NEWLINE {
        if r.line == "" {
          assert r.lines + [] == r.lines;
        } else {
          assert (r.lines + [r.line])[..|r.lines|] == r.lines;
          assert Ended(r.lines + [r.line]) == Ended(r.lines) + r.line + [NEWLINE];
        }
      }
    }
  }

  // Nothing is lost but blank lines, and nothing is made up: however a stream is cut
  // into reads, the lines emitted, each with its newline, and then what is kept are
  // the stream itself with its blank lines squeezed out.
  lemma {:induction false} NothingIsLost(chunks: seq<string>)
    ensures Ended(FeedAll("", chunks).0) + FeedAll("", chunks).1 == Squeezed(Joined(chunks))
  {
    ChunkingIsInvisible(chunks);
    ReadingIsSqueezed(Joined(chunks));
  }

  // What is kept is the tail after the last newline; what is emitted is whole,
  // non-empty lines.
  lemma {:induction false} KeepsTheTail(chunks: seq<string>) returns (cut: nat)
    ensures var bytes, rest := Joined(chunks), FeedAll("", chunks).1;
      && cut <= |bytes| && rest == bytes[cut..] && NEWLINE !in rest
      && (cut == 0 || bytes[cut - 1] == NEWLINE)
    ensures var lines := FeedAll("", chunks).0;
      forall k | 0 <= k < |lines| :: lines[k] != "" && NEWLINE !in lines[k]
  {
    var bytes := Joined(chunks);
    ChunkingIsInvisible(chunks);
    WholeStream(bytes);
    cut := RestIsASuffix(bytes);
    RestHasNoNewline(bytes);
    LinesAreWhole(bytes);
  }
}

// The capture thread's buffer, updated in place read by read.
module LineSplitterObjects {
  import S = LineSplitter

  class Capture {
    var partial: string
    var emitted: seq<string>

    constructor ()
      ensures partial == "" && emitted == []
    {
      partial, emitted := "", [];
    }

    method Read(chunk: string)
      modifies this
      ensures partial == S.Feed(old(partial), chunk).1
      ensures emitted == old(emitted) + S.Feed(old(partial), chunk).0
    {
      partial := partial + chunk;
      ghost var goal, rest := emitted + S.Lines(partial), S.Rest(partial);
      var pos := S.Position(partial);
      while pos < |partial|
        invariant pos == S.Position(partial)
        invariant emitted + S.Lines(partial) == goal && S.Rest(partial) == rest
        decreases |partial|
      {
        var line := partial[..pos];
        S.DrainOne(emitted, partial, pos);
        partial := partial[pos + 1..];
        if line != "" {
          emitted := emitted + [line];
        } else {
          assert emitted + [] == emitted;
        }
        pos := S.Position(partial);
      }
      assert S.Lines(partial) == [] && emitted + [] == emitted;
    }
  }
}
