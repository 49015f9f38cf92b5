// The rotating log: a current file and a numbered chain of backups. A file is
// the sequence of records written to it, each record by one whole write.
module LogFiles {
  import opened Wrappers

  type Record = string

  type File = seq<Record>

  const U64_MAX: nat := 0xFFFF_FFFF_FFFF_FFFF

  // `current` is the file at the log's own path, `backups[n]` the one at the
  // path with `.n` appended.
  datatype Disk = Disk(current: Option<File>, backups: map<nat, File>)

  function Lookup(backups: map<nat, File>, n: nat): Option<File> {
    if n in backups then Some(backups[n]) else None
  }

  // Where the file at backup `n` comes from in one shift. With no backups asked
  // for the current file still moves to the first one.
  function Source(disk: Disk, keep: nat, n: nat): Option<File> {
    if n == 1 then (if disk.current.None? && keep == 0 then Lookup(disk.backups, 1) else disk.current)
    else if 2 <= n <= keep then Lookup(disk.backups, n - 1)
    else if n == 0 && keep == 0 then None
    else Lookup(disk.backups, n)
  }

  function Shifted(disk: Disk, keep: nat): Disk {
    var names := disk.backups.Keys + (set n | n in disk.backups.Keys :: n + 1) + {1};
    Disk(None, map n | n in names && Source(disk, keep, n).Some? :: Source(disk, keep, n).value)
  }

  lemma {:induction false} ShiftedLooksUp(disk: Disk, keep: nat, n: nat)
    ensures Lookup(Shifted(disk, keep).backups, n) == Source(disk, keep, n)
  {
    if 2 <= n <= keep && n - 1 in disk.backups {
      assert n in (set m | m in disk.backups.Keys :: m + 1);
    }
  }

  // ----- the rotating file -----

  // `closed` is a history: the files this run has rotated out, in order.
  datatype Log = Log(disk: Disk, maxBytes: nat, keep: nat, written: nat, closed: seq<File>)

  function Min(a: nat, b: nat): nat {
    if a < b then a else b
  }

  predicate Crosses(written: nat, size: nat, maxBytes: nat) {
    Min(written + size, U64_MAX) > maxBytes
  }

  function Open(disk: Disk, maxBytes: nat, keep: nat): Log {
    Log(Shifted(disk, keep).(current := Some([])), maxBytes, keep, 0, [])
  }

  function Current(log: Log): File {
    if log.disk.current.Some? then log.disk.current.value else []
  }

  function Rotate(log: Log): Log {
    log.(disk := Shifted(log.disk, log.keep).(current := Some([])), written := 0, closed := log.closed + [Current(log)])
  }

  function Append(log: Log, record: Record): Log {
    log.(disk := log.disk.(current := Some(Current(log) + [record])), written := log.written + |record|)
  }

  function Write(log: Log, record: Record): Log {
    Append(if Crosses(log.written, |record|, log.maxBytes) then Rotate(log) else log, record)
  }

  function WriteAll(log: Log, records: seq<Record>): Log
    decreases |records|
  {
    if records == [] then log else Write(WriteAll(log, records[..|records| - 1]), records[|records| - 1])
  }

  // ----- what a run leaves on disk -----

  // How many backups the shift keeps filled.
  function Depth(keep: nat): nat {
    if keep == 0 then 1 else keep
  }

  function Size(file: File): nat
    decreases |file|
  {
    if file == [] then 0 else Size(file[..|file| - 1]) + |file[|file| - 1]|
  }

  function Concat(files: seq<File>): File
    decreases |files|
  {
    if files == [] then [] else Concat(files[..|files| - 1]) + files[|files| - 1]
  }

  // Backups from `oldest` down to the first, then the current file.
  function Chain(disk: Disk, oldest: nat): seq<Record>
    decreases oldest
  {
    if oldest == 0 then (if disk.current.Some? then disk.current.value else [])
    else
      (match Lookup(disk.backups, oldest)
       case Some(file) => file
       case None => [])
      + Chain(disk, oldest - 1)
  }

  // Backup `n` is the `n`th last file closed by this run, or what the disk had
  // before it, that many places on.
  ghost predicate BackupsAre(log: Log, found: Disk) {
    forall n: nat | 1 <= n <= Depth(log.keep) ::
      Lookup(log.disk.backups, n) == Backup(log.closed, found, n)
  }

  function Backup(closed: seq<File>, found: Disk, n: nat): Option<File>
    requires n > 0
  {
    if n <= |closed| then Some(closed[|closed| - n]) else Lookup(found.backups, n - |closed|)
  }

  // A file goes over the limit only by holding one record that is over it.
  predicate Fits(file: File, maxBytes: nat) {
    Size(file) <= maxBytes || |file| == 1
  }

  // The files are packed as full as they can be: each closed file would have
  // gone over with the record that opens the next.
  ghost predicate Packed(files: seq<File>, maxBytes: nat) {
    && (forall k | 0 <= k < |files| :: Fits(files[k], maxBytes))
    && (forall k | 1 <= k < |files| :: OpenedForWant(files[k - 1], files[k], maxBytes))
  }

  // The file before had no room for the first record of this one.
  predicate OpenedForWant(previous: File, file: File, maxBytes: nat) {
    |file| > 0 && Size(previous) + |file[0]| > maxBytes
  }

  function Files(log: Log): seq<File> {
    log.closed + [Current(log)]
  }

  ghost predicate Inv(log: Log, found: Disk, records: seq<Record>) {
    && log.disk.current.Some?
    && log.written == Size(Current(log))
    && BackupsAre(log, found)
    && Concat(Files(log)) == records
    && Filled(log)
  }

  // Under the largest limit no file is ever closed.
  ghost predicate Filled(log: Log) {
    if log.maxBytes < U64_MAX then Packed(Files(log), log.maxBytes) else log.closed == []
  }

  lemma {:induction false} RotateKeepsBackups(log: Log, found: Disk)
    requires log.disk.current.Some? && BackupsAre(log, found)
    ensures BackupsAre(Rotate(log), found)
  {
    var log1 := Rotate(log);
    forall n: nat | 1 <= n <= Depth(log.keep)
      ensures Lookup(log1.disk.backups, n) == Backup(log1.closed, found, n)
    {
      ShiftedLooksUp(log.disk, log.keep, n);
      if n > 1 {
        assert Lookup(log.disk.backups, n - 1) == Backup(log.closed, found, n - 1);
      }
    }
  }

  lemma {:induction false} SizeGrows(file: File, record: Record)
    ensures Size(file + [record]) == Size(file) + |record|
  {
    assert (file + [record])[..|file|] == file;
  }

  // The record opens a new file because the last one had no room for it.
  lemma {:induction false} PackedPush(files: seq<File>, record: Record, maxBytes: nat)
    requires files != [] && Packed(files, maxBytes) && Size(files[|files| - 1]) + |record| > maxBytes
    ensures Packed(files + [[record]], maxBytes)
  {
    var files1 := files + [[record]];
    assert forall k | 0 <= k < |files| :: files1[k] == files[k];
  }

  // The record joins the last file, which has room for it.
  lemma {:induction false} PackedExtend(files: seq<File>, record: Record, maxBytes: nat)
    requires files != [] && Packed(files, maxBytes) && Size(files[|files| - 1]) + |record| <= maxBytes
    ensures Packed(files[..|files| - 1] + [files[|files| - 1] + [record]], maxBytes)
  {
    var last := |files| - 1;
    var files1 := files[..last] + [files[last] + [record]];
    SizeGrows(files[last], record);
    assert forall k | 0 <= k < last :: files1[k] == files[k];
    if last > 0 {
      assert OpenedForWant(files[last - 1], files[last], maxBytes);
      assert OpenedForWant(files1[last - 1], files1[last], maxBytes);
    }
  }

  lemma {:induction false} WriteKeepsPacked(log: Log, record: Record)
    requires log.maxBytes < U64_MAX && log.written == Size(Current(log)) && Packed(Files(log), log.maxBytes)
    ensures Packed(Files(Write(log, record)), log.maxBytes)
  {
    var files := Files(log);
    if Crosses(log.written, |record|, log.maxBytes) {
      PackedPush(files, record, log.maxBytes);
      assert [] + [record] == [record];
      assert Files(Write(log, record)) == files + [[record]];
    } else {
      PackedExtend(files, record, log.maxBytes);
      assert files[..|files| - 1] == log.closed;
    }
  }

  lemma {:induction false} WriteKeepsFilled(log: Log, record: Record)
    requires log.written == Size(Current(log)) && Filled(log)
    ensures Filled(Write(log, record))
  {
    if log.maxBytes < U64_MAX {
      WriteKeepsPacked(log, record);
    }
  }

  lemma {:induction false} WriteKeepsStream(log: Log, record: Record)
    ensures Concat(Files(Write(log, record))) == Concat(Files(log)) + [record]
  {
    var files, files1 := Files(log), Files(Write(log, record));
    assert files[..|log.closed|] == log.closed && Concat(files) == Concat(log.closed) + Current(log);
    if Crosses(log.written, |record|, log.maxBytes) {
      assert Current(Write(log, record)) == [record];
      assert files1 == files + [[record]] && files1[..|files|] == files;
    } else {
      assert files1[..|log.closed|] == log.closed;
    }
  }

  lemma {:induction false} WriteKeepsSize(log: Log, record: Record)
    requires log.disk.current.Some? && log.written == Size(Current(log))
    ensures var log1 := Write(log, record); log1.disk.current.Some? && log1.written == Size(Current(log1))
  {
    SizeGrows(Current(log), record);
    SizeGrows([], record);
  }

  lemma {:induction false} WriteKeepsBackups(log: Log, found: Disk, record: Record)
    requires log.disk.current.Some? && BackupsAre(log, found)
    ensures BackupsAre(Write(log, record), found)
  {
    RotateKeepsBackups(log, found);
    var log0 := if Crosses(log.written, |record|, log.maxBytes) then Rotate(log) else log;
    var log1 := Append(log0, record);
    assert log1.disk.backups == log0.disk.backups && log1.closed == log0.closed;
    forall n: nat | 1 <= n <= Depth(log.keep)
      ensures Lookup(log1.disk.backups, n) == Backup(log1.closed, found, n)
    {
      assert Lookup(log0.disk.backups, n) == Backup(log0.closed, found, n);
    }
  }

  lemma {:induction false} WriteKeeps(log: Log, found: Disk, records: seq<Record>, record: Record)
    requires Inv(log, found, records)
    ensures Inv(Write(log, record), found, records + [record])
  {
    WriteKeepsSize(log, record);
    WriteKeepsStream(log, record);
    WriteKeepsFilled(log, record);
    WriteKeepsBackups(log, found, record);
  }

  // A fresh log over what the shift left.
  lemma {:induction false} FreshKeeps(found: Disk, maxBytes: nat, keep: nat)
    ensures Inv(Log(found.(current := Some([])), maxBytes, keep, 0, []), found, [])
  {
    var log := Log(found.(current := Some([])), maxBytes, keep, 0, []);
    assert Files(log)[..0] == [];
  }

  lemma {:induction false} OpenKeeps(disk: Disk, maxBytes: nat, keep: nat)
    ensures Inv(Open(disk, maxBytes, keep), Shifted(disk, keep), [])
  {
    FreshKeeps(Shifted(disk, keep), maxBytes, keep);
  }

  lemma {:induction false} RunKeeps(log: Log, found: Disk, records: seq<Record>)
    requires Inv(log, found, [])
    ensures Inv(WriteAll(log, records), found, records)
    ensures WriteAll(log, records).maxBytes == log.maxBytes && WriteAll(log, records).keep == log.keep
    decreases |records|
  {
    if records != [] {
      var before, record := records[..|records| - 1], records[|records| - 1];
      var w := WriteAll(log, before);
      assert WriteAll(log, records) == Write(w, record) && records == before + [record];
      RunKeeps(log, found, before);
      WriteKeeps(w, found, before, record);
    }
  }

  lemma {:induction false} WriteAllKeeps(disk: Disk, maxBytes: nat, keep: nat, records: seq<Record>)
    ensures Inv(WriteAll(Open(disk, maxBytes, keep), records), Shifted(disk, keep), records)
    ensures var log := WriteAll(Open(disk, maxBytes, keep), records); log.maxBytes == maxBytes && log.keep == keep
  {
    OpenKeeps(disk, maxBytes, keep);
    RunKeeps(Open(disk, maxBytes, keep), Shifted(disk, keep), records);
  }

  // ----- results -----

  // The records written are the files closed and the current file end to end,
  // each record in one file; and the backups are exactly the last of those
  // files, newest first, then whatever the run found.
  lemma {:induction false} BackupsAreTheLastFiles(disk: Disk, maxBytes: nat, keep: nat, records: seq<Record>)
    ensures var log := WriteAll(Open(disk, maxBytes, keep), records);
      && Concat(Files(log)) == records
      && forall n: nat | 1 <= n <= Depth(keep) ::
        Lookup(log.disk.backups, n) == Backup(log.closed, Shifted(disk, keep), n)
  {
    WriteAllKeeps(disk, maxBytes, keep, records);
  }

  // A file over the limit holds exactly one record, and no file was closed that
  // had room for the next record. Under the largest limit the saturating sum never
  // crosses it, no file is ever closed, and that holds just when all the records
  // fit in one.
  lemma {:induction false} OnlyOversizedRecordsGoOver(disk: Disk, maxBytes: nat, keep: nat, records: seq<Record>)
    ensures var log := WriteAll(Open(disk, maxBytes, keep), records);
      && (Packed(Files(log), maxBytes) <==> maxBytes < U64_MAX || Fits(records, maxBytes))
      && (maxBytes >= U64_MAX ==> Files(log) == [records])
  {
    WriteAllKeeps(disk, maxBytes, keep, records);
    if maxBytes >= U64_MAX {
      OneFile(WriteAll(Open(disk, maxBytes, keep), records), records);
      PackedAlone(records, maxBytes);
    }
  }

  lemma {:induction false} OneFile(log: Log, records: seq<Record>)
    requires log.closed == [] && Concat(Files(log)) == records
    ensures Files(log) == [records]
  {
    assert Files(log)[..0] == [] && [] + Current(log) == Current(log);
  }

  lemma {:induction false} PackedAlone(file: File, maxBytes: nat)
    ensures Packed([file], maxBytes) <==> Fits(file, maxBytes)
  {
    assert Fits([file][0], maxBytes) <==> Fits(file, maxBytes);
  }

  // Oldest to newest, the backups and the current file are a suffix of what the
  // disk held at the start followed by everything written since.
  lemma {:induction false} ChainIsASuffix(disk: Disk, maxBytes: nat, keep: nat, records: seq<Record>)
    ensures var log := WriteAll(Open(disk, maxBytes, keep), records);
      var stream := Chain(disk, Depth(keep)) + records;
      exists lost | 0 <= lost <= |stream| :: Chain(log.disk, Depth(keep)) == stream[lost..]
  {
    var depth := Depth(keep);
    var first := ShiftDropsTheOldest(disk, keep);
    SetCurrent(Shifted(disk, keep), depth);
    var lost := DroppedByWrites(Open(disk, maxBytes, keep), records);
    DropThenWrite(Chain(disk, depth), records, first, lost);
  }

  lemma {:induction false} DropThenWrite(chain: seq<Record>, records: seq<Record>, first: nat, lost: nat)
    requires first <= |chain| && lost <= |chain| - first + |records|
    ensures (chain[first..] + records)[lost..] == (chain + records)[first + lost..]
  {
    assert chain[first..] + records == (chain + records)[first..];
  }

  // A shift moves the chain along by dropping its oldest file, and nothing else.
  lemma {:induction false} ShiftDropsTheOldest(disk: Disk, keep: nat) returns (dropped: nat)
    ensures dropped <= |Chain(disk, Depth(keep))|
    ensures disk.current.Some? ==>
      dropped == (if Depth(keep) in disk.backups then |disk.backups[Depth(keep)]| else 0)
    ensures Chain(Shifted(disk, keep), Depth(keep)) == Chain(disk, Depth(keep))[dropped..]
  {
    var shifted, depth := Shifted(disk, keep), Depth(keep);
    ShiftedLooksUp(disk, keep, depth);
    if disk.current.None? && keep == 0 {
      return 0;
    }
    dropped := match Lookup(disk.backups, depth)
      case Some(file) => |file|
      case None => 0;
    ShiftedTail(disk, keep, depth);
    assert Chain(disk, depth)[dropped..] == Chain(disk, depth - 1);
  }

  lemma {:induction false} ShiftedTail(disk: Disk, keep: nat, n: nat)
    requires 1 <= n <= Depth(keep) && (disk.current.Some? || keep > 0)
    ensures Chain(Shifted(disk, keep), n) == Chain(disk, n - 1)
    decreases n
  {
    ShiftedLooksUp(disk, keep, n);
    if n > 1 {
      ShiftedTail(disk, keep, n - 1);
    }
  }

  lemma {:induction false} ChainEnds(disk: Disk, record: Record, n: nat)
    requires disk.current.Some?
    ensures Chain(disk.(current := Some(disk.current.value + [record])), n) == Chain(disk, n) + [record]
    decreases n
  {
    if n > 0 {
      ChainEnds(disk, record, n - 1);
    }
  }

  lemma {:induction false} SetCurrent(disk: Disk, n: nat)
    requires disk.current.None?
    ensures Chain(disk.(current := Some([])), n) == Chain(disk, n)
    decreases n
  {
    if n > 0 {
      SetCurrent(disk, n - 1);
    }
  }

  lemma {:induction false} WriteDropsTheOldest(log: Log, record: Record) returns (dropped: nat)
    requires log.disk.current.Some?
    ensures var chain := Chain(log.disk, Depth(log.keep));
      dropped <= |chain| && Chain(Write(log, record).disk, Depth(log.keep)) == chain[dropped..] + [record]
  {
    var depth := Depth(log.keep);
    if Crosses(log.written, |record|, log.maxBytes) {
      dropped := ShiftDropsTheOldest(log.disk, log.keep);
      SetCurrent(Shifted(log.disk, log.keep), depth);
      ChainEnds(Rotate(log).disk, record, depth);
    } else {
      dropped := 0;
      ChainEnds(log.disk, record, depth);
    }
  }

  lemma {:induction false} DroppedByWrites(log: Log, records: seq<Record>) returns (lost: nat)
    requires log.disk.current.Some?
    ensures WriteAll(log, records).disk.current.Some? && WriteAll(log, records).keep == log.keep
    ensures var stream := Chain(log.disk, Depth(log.keep)) + records;
      lost <= |stream| && Chain(WriteAll(log, records).disk, Depth(log.keep)) == stream[lost..]
    decreases |records|
  {
    if records == [] {
      return 0;
    }
    var before, record := records[..|records| - 1], records[|records| - 1];
    lost := DroppedByWrites(log, before);
    var dropped := WriteDropsTheOldest(WriteAll(log, before), record);
    DropTwice(Chain(log.disk, Depth(log.keep)), before, record, lost, dropped);
    assert records == before + [record];
    lost := lost + dropped;
  }

  lemma {:induction false} DropTwice(chain: seq<Record>, before: seq<Record>, record: Record, first: nat, second: nat)
    requires first + second <= |chain + before|
    ensures (chain + before)[first..][second..] + [record] == (chain + (before + [record]))[first + second..]
  {
    assert chain + (before + [record]) == chain + before + [record];
  }

  // A file beside the chain: past the oldest backup kept, or numbered zero.
  predicate Beside(keep: nat, n: nat) {
    n > Depth(keep) || n == 0
  }

  // What becomes of it: nothing, but that with no backups asked for the removal of
  // the oldest is the removal of number zero.
  function Spared(disk: Disk, keep: nat, n: nat): Option<File> {
    if n == 0 && keep == 0 then None else Lookup(disk.backups, n)
  }

  lemma {:induction false} WritesSpare(log: Log, records: seq<Record>, n: nat)
    requires Beside(log.keep, n) && Lookup(log.disk.backups, n) == Spared(log.disk, log.keep, n)
    ensures var log1 := WriteAll(log, records);
      log1.keep == log.keep && Lookup(log1.disk.backups, n) == Lookup(log.disk.backups, n)
    decreases |records|
  {
    if records != [] {
      var before := WriteAll(log, records[..|records| - 1]);
      WritesSpare(log, records[..|records| - 1], n);
      ShiftedLooksUp(before.disk, log.keep, n);
    }
  }

  // Over any run the files beside the chain are left as they were found.
  lemma {:induction false} OthersAreSpared(disk: Disk, maxBytes: nat, keep: nat, records: seq<Record>, n: nat)
    requires Beside(keep, n)
    ensures Lookup(WriteAll(Open(disk, maxBytes, keep), records).disk.backups, n) == Spared(disk, keep, n)
  {
    ShiftedLooksUp(disk, keep, n);
    WritesSpare(Open(disk, maxBytes, keep), records, n);
  }

  // An oversized record rotates even a file that is still empty, which spends a
  // backup on nothing; no other record ever closes an empty file.
  lemma {:induction false} ClosesEmptyExactlyOnOversized(disk: Disk, maxBytes: nat, keep: nat, records: seq<Record>, record: Record)
    ensures var log := WriteAll(Open(disk, maxBytes, keep), records);
      Size(Current(log)) == 0 ==> (Write(log, record).closed != log.closed <==> |record| > maxBytes && maxBytes < U64_MAX)
  {
    WriteAllKeeps(disk, maxBytes, keep, records);
    var log := WriteAll(Open(disk, maxBytes, keep), records);
    assert |Rotate(log).closed| == |log.closed| + 1;
  }
}

// The log's fields and the files under it, updated in place.
module LogFilesObjects {
  import opened Wrappers
  import L = LogFiles

  class RotatingFile {
    var current: Option<L.File>
    var backups: map<nat, L.File>
    var maxBytes: nat
    var keep: nat
    var written: nat
    ghost var closed: seq<L.File>

    ghost function Abs(): L.Log
      reads this
    {
      L.Log(L.Disk(current, backups), maxBytes, keep, written, closed)
    }

    constructor (disk: L.Disk, maxBytes: nat, keep: nat)
      ensures Abs() == L.Open(disk, maxBytes, keep)
    {
      current, backups, this.maxBytes, this.keep, written, closed := disk.current, disk.backups, maxBytes, keep, 0, [];
      new;
      ShiftBackups();
      current := Some([]);
    }

    // A rename replaces its target; without a source it changes nothing.
    method Rename(from: nat, target: nat)
      requires from != target
      modifies this`backups
      ensures forall n: nat :: L.Lookup(backups, n) == Renamed(old(backups), from, target, n)
    {
      if from in backups {
        backups := (backups - {from})[target := backups[from]];
      }
    }

    method ShiftBackups()
      modifies this`current, this`backups
      ensures L.Disk(current, backups) == L.Shifted(L.Disk(old(current), old(backups)), keep)
    {
      ghost var disk := L.Disk(current, backups);
      backups := backups - {keep};
      var i: nat := if keep > 0 then keep - 1 else 0;
      while i > 0
        invariant (i == 0 || i < keep) && current == disk.current
        invariant forall n: nat :: L.Lookup(backups, n) == Partly(disk, keep, i, n)
      {
        ghost var was := backups;
        Rename(i, i + 1);
        forall n: nat
          ensures L.Lookup(backups, n) == Partly(disk, keep, i - 1, n)
        {
          assert L.Lookup(was, n) == Partly(disk, keep, i, n);
          assert L.Lookup(was, i) == Partly(disk, keep, i, i);
          assert L.Lookup(backups, n) == Renamed(was, i, i + 1, n);
        }
        i := i - 1;
      }
      ghost var moved := backups;
      if current.Some? {
        backups := backups[1 := current.value];
        current := None;
      }
      forall n: nat
        ensures L.Lookup(backups, n) == L.Lookup(L.Shifted(disk, keep).backups, n)
      {
        L.ShiftedLooksUp(disk, keep, n);
        assert L.Lookup(moved, n) == Partly(disk, keep, 0, n);
      }
      SameLookups(backups, L.Shifted(disk, keep).backups);
    }

    method Rotate()
      requires current.Some?
      modifies this
      ensures Abs() == L.Rotate(old(Abs()))
    {
      closed := closed + [current.value];
      ShiftBackups();
      current := Some([]);
      written := 0;
    }

    method Write(record: L.Record) returns (n: nat)
      requires current.Some?
      modifies this
      ensures Abs() == L.Write(old(Abs()), record) && current.Some? && n == |record|
    {
      if L.Crosses(written, |record|, maxBytes) {
        Rotate();
      }
      current := Some(current.value + [record]);
      n := |record|;
      written := written + n;
    }
  }

  ghost function Renamed(backups: map<nat, L.File>, from: nat, target: nat, n: nat): Option<L.File> {
    if from !in backups then L.Lookup(backups, n)
    else if n == target then L.Lookup(backups, from)
    else if n == from then None
    else L.Lookup(backups, n)
  }

  // The backups once everything above `i` has been renamed.
  ghost function Partly(disk: L.Disk, keep: nat, i: nat, n: nat): Option<L.File> {
    if n == keep && i == 0 && keep == 0 then None
    else if n <= i then L.Lookup(disk.backups, n)
    else if n == i + 1 && n <= keep then None
    else if n <= keep then L.Lookup(disk.backups, n - 1)
    else L.Lookup(disk.backups, n)
  }

  lemma {:induction false} SameLookups(a: map<nat, L.File>, b: map<nat, L.File>)
    requires forall n: nat :: L.Lookup(a, n) == L.Lookup(b, n)
    ensures a == b
  {
    forall n: nat
      ensures n in a <==> n in b
      ensures n in a && n in b ==> a[n] == b[n]
    {
      assert L.Lookup(a, n) == L.Lookup(b, n);
    }
  }
}
