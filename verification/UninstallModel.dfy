/** Undoing an installation as a function of the script of failures: each entry is tried twice, with
    a flush and a fresh cache in between, and an entry that is given up does not stop the others. */
module UninstallModel {
  import opened DiskModel
  import opened CacheModel
  import opened InstallModel

  /** Forget the cached block. */
  function Dropped(m: Machine): Machine {
    m.(disk := m.disk.(dirty := false, block := -1))
  }

  /** One entry: whether it was written, and whether no flush failed. */
  datatype Replayed = Replayed(machine: Machine, written: bool, flushed: bool)

  function ReplayEntry(m: Machine, s: Script, u: Undo): (r: Replayed)
    requires Sized(m.disk)
    ensures Sized(r.machine.disk) && SameShape(m.disk, r.machine.disk) && m.tick <= r.machine.tick
  {
    WriteFacts(m, s, u.loc, u.data);
    var w := WriteRange(m, s, u.loc, u.data);
    if w.ok then Replayed(w.machine, true, true)
    else
      FlushFacts(w.machine, s);
      var f := Flush(w.machine, s);
      WriteFacts(Dropped(f.machine), s, u.loc, u.data);
      var v := WriteRange(Dropped(f.machine), s, u.loc, u.data);
      Replayed(v.machine, v.ok, f.ok)
  }

  /** All entries: which of them were written, and whether no flush failed. */
  datatype Tally = Tally(machine: Machine, written: seq<bool>, flushed: bool)

  function ReplayAll(m: Machine, s: Script, log: seq<Undo>): (r: Tally)
    requires Sized(m.disk)
    ensures Sized(r.machine.disk) && SameShape(m.disk, r.machine.disk) && m.tick <= r.machine.tick
    ensures |r.written| == |log|
    decreases |log|
  {
    if log == [] then Tally(m, [], true)
    else
      var first := ReplayEntry(m, s, log[0]);
      var rest := ReplayAll(first.machine, s, log[1..]);
      Tally(rest.machine, [first.written] + rest.written, first.flushed && rest.flushed)
  }

  predicate AllTrue(written: seq<bool>) {
    forall k | 0 <= k < |written| :: written[k]
  }

  /** The whole undoing, with its last flush. */
  function UndoAll(m: Machine, s: Script, log: seq<Undo>): (r: Did)
    requires Sized(m.disk)
  {
    var all := ReplayAll(Dropped(m), s, log);
    var f := Flush(all.machine, s);
    Did(f.machine, AllTrue(all.written) && all.flushed && f.ok)
  }

  // ---- counting failures ----------------------------------------------------

  /** How many accesses fail from the first of these to before the second. */
  ghost function Failures(s: Script, from: nat, end: nat): nat
    decreases end
  {
    if end <= from then 0 else Failures(s, from, end - 1) + (if s.fails(end - 1) then 1 else 0)
  }

  lemma {:induction false} FailuresAdd(s: Script, a: nat, b: nat, c: nat)
    requires a <= b <= c
    ensures Failures(s, a, c) == Failures(s, a, b) + Failures(s, b, c)
    decreases c
  {
    if b < c {
      FailuresAdd(s, a, b, c - 1);
    }
  }

  lemma {:induction false} NotCalm(s: Script, from: nat, end: nat)
    requires from <= end
    ensures Failures(s, from, end) == 0 <==> CalmUntil(s, from, end)
    decreases end
  {
    if from < end {
      NotCalm(s, from, end - 1);
      assert s.fails(end - 1) ==> !CalmUntil(s, from, end);
    }
  }

  lemma CalmHasNone(s: Script, from: nat, end: nat)
    requires from <= end && Calm(s, from)
    ensures Failures(s, from, end) == 0
  {
    NotCalm(s, from, end);
  }

  /** The entry lies in the whole blocks of the device. */
  predicate Fits(u: Undo, reach: nat) {
    u.data == [] || u.loc + |u.data| <= reach
  }

  predicate InOneBlock(u: Undo, blockSize: nat)
    requires blockSize > 0
  {
    u.loc % blockSize + |u.data| <= blockSize
  }

  // ---- one entry ------------------------------------------------------------

  /** A write that fails although its range fits met a failing access. */
  lemma WriteMeetsFailure(m: Machine, s: Script, u: Undo)
    requires Sized(m.disk) && Fits(u, Reach(m.disk)) && !WriteRange(m, s, u.loc, u.data).ok
    ensures m.tick <= WriteRange(m, s, u.loc, u.data).machine.tick
    ensures Failures(s, m.tick, WriteRange(m, s, u.loc, u.data).machine.tick) >= 1
  {
    WriteFacts(m, s, u.loc, u.data);
    NotCalm(s, m.tick, WriteRange(m, s, u.loc, u.data).machine.tick);
    hide WriteRange, CalmUntil, Failures, Sized, Coherent, Touches, Blends, Logical;
  }

  lemma FlushMeetsFailure(m: Machine, s: Script)
    requires Sized(m.disk)
    ensures m.tick <= Flush(m, s).machine.tick
    ensures !Flush(m, s).ok ==> Failures(s, m.tick, Flush(m, s).machine.tick) >= 1
  {
    FlushFacts(m, s);
    NotCalm(s, m.tick, Flush(m, s).machine.tick);
    hide Flush, CalmUntil, Failures, Sized, Coherent, Touches, Logical;
  }

  lemma DroppedSized(m: Machine)
    requires Sized(m.disk)
    ensures Sized(Dropped(m).disk) && Reach(Dropped(m).disk) == Reach(m.disk) && Coherent(Dropped(m).disk)
    ensures Logical(Dropped(m).disk) == m.disk.device
  {
  }

  /** An entry that fits is given up only after two failing accesses, and a third one if the flush
      between the tries failed as well; that flush is made only after a failing access. */
  lemma GivenUpAfterTwo(m: Machine, s: Script, u: Undo)
    requires Sized(m.disk) && Fits(u, Reach(m.disk))
    ensures var r := ReplayEntry(m, s, u);
            Failures(s, m.tick, r.machine.tick)
            >= (if r.written then 0 else 2) + (if r.flushed then 0 else if r.written then 2 else 1)
  {
    var w := WriteRange(m, s, u.loc, u.data);
    if !w.ok {
      WriteFacts(m, s, u.loc, u.data);
      WriteMeetsFailure(m, s, u);
      FlushFacts(w.machine, s);
      FlushMeetsFailure(w.machine, s);
      var f := Flush(w.machine, s);
      DroppedSized(f.machine);
      var v := WriteRange(Dropped(f.machine), s, u.loc, u.data);
      WriteFacts(Dropped(f.machine), s, u.loc, u.data);
      FailuresAdd(s, m.tick, w.machine.tick, v.machine.tick);
      FailuresAdd(s, w.machine.tick, f.machine.tick, v.machine.tick);
      ReachOfFlush(w.machine, s);
      if !v.ok {
        WriteMeetsFailure(Dropped(f.machine), s, u);
      }
    }
    hide WriteRange, Flush, Failures, Sized, Coherent, Touches, Blends, Logical, Reach, CalmUntil, Calm;
  }

  lemma ReachOfFlush(m: Machine, s: Script)
    requires Sized(m.disk)
    ensures Sized(Flush(m, s).machine.disk) && Reach(Flush(m, s).machine.disk) == Reach(m.disk)
  {
    FlushFacts(m, s);
    SameReach(m.disk, Flush(m, s).machine.disk);
    hide Flush, Coherent, Touches, Logical;
  }

  // ---- all entries ----------------------------------------------------------

  function NotWritten(written: seq<bool>): nat {
    if written == [] then 0 else (if written[0] then 0 else 1) + NotWritten(written[1..])
  }

  lemma {:induction false} NoneMissing(written: seq<bool>)
    ensures NotWritten(written) == 0 <==> AllTrue(written)
  {
    if written != [] {
      NoneMissing(written[1..]);
      assert AllTrue(written) <==> written[0] && AllTrue(written[1..]) by {
        assert written == [written[0]] + written[1..];
      }
    }
  }

  lemma EntryReach(m: Machine, s: Script, u: Undo)
    requires Sized(m.disk)
    ensures Reach(ReplayEntry(m, s, u).machine.disk) == Reach(m.disk)
  {
    WriteFacts(m, s, u.loc, u.data);
    var w := WriteRange(m, s, u.loc, u.data);
    if !w.ok {
      FlushFacts(w.machine, s);
      ReachOfFlush(w.machine, s);
      DroppedSized(Flush(w.machine, s).machine);
      WriteFacts(Dropped(Flush(w.machine, s).machine), s, u.loc, u.data);
    }
    hide WriteRange, Flush, Sized, Coherent, Touches, Blends, Logical, Reach, CalmUntil, Calm;
  }

  /** Every entry is tried: of entries that fit the device, none is given up without two failing
      accesses of its own, and no flush fails but after or by a failing access. */
  lemma {:induction false} EveryEntryTried(m: Machine, s: Script, log: seq<Undo>)
    requires Sized(m.disk) && Inside(log, Reach(m.disk))
    ensures var r := ReplayAll(m, s, log);
            var failures := Failures(s, m.tick, r.machine.tick);
            failures >= 2 * NotWritten(r.written) + (if r.flushed then 0 else 1) && (!r.flushed ==> failures >= 2)
    decreases |log|
  {
    assert log != [] ==> Fits(log[0], Reach(m.disk));
    hide ReplayEntry, Failures, Reach, Sized, Fits;
    if log != [] {
      var first := ReplayEntry(m, s, log[0]);
      GivenUpAfterTwo(m, s, log[0]);
      EntryReach(m, s, log[0]);
      EveryEntryTried(first.machine, s, log[1..]);
      var rest := ReplayAll(first.machine, s, log[1..]);
      FailuresAdd(s, m.tick, first.machine.tick, rest.machine.tick);
      assert ([first.written] + rest.written)[1..] == rest.written;
    }
  }

  /** At most one access fails, and not the very last one, which no retry follows. */
  ghost predicate OneFailure(s: Script, from: nat, end: nat) {
    Failures(s, from, end) <= 1 && (end > from ==> !s.fails(end - 1))
  }

  lemma FailedFlushEnds(m: Machine, s: Script)
    requires Sized(m.disk) && !Flush(m, s).ok
    ensures m.tick < Flush(m, s).machine.tick && s.fails(Flush(m, s).machine.tick - 1)
  {
  }

  /** One failing access is mended: undoing a log that fits succeeds if at most one access fails, and
      not the very last one, which no retry follows. */
  lemma OneFailureIsMended(m: Machine, s: Script, log: seq<Undo>)
    requires Sized(m.disk) && Inside(log, Reach(m.disk))
    requires OneFailure(s, m.tick, UndoAll(m, s, log).machine.tick)
    ensures UndoAll(m, s, log).ok
  {
    DroppedSized(m);
    var all := ReplayAll(Dropped(m), s, log);
    FlushFacts(all.machine, s);
    var f := Flush(all.machine, s);
    EveryEntryTried(Dropped(m), s, log);
    FailuresAdd(s, m.tick, all.machine.tick, f.machine.tick);
    NoneMissing(all.written);
    if !f.ok {
      FailedFlushEnds(all.machine, s);
    }
    hide ReplayAll, Flush, Failures, Reach, Sized, Coherent, Touches, Logical, Inside, AllTrue, NotWritten, CalmUntil, Calm;
  }

  lemma CalmUndoes(m: Machine, s: Script, log: seq<Undo>)
    requires Sized(m.disk) && Inside(log, Reach(m.disk)) && Calm(s, m.tick)
    ensures UndoAll(m, s, log).ok
  {
    DroppedSized(m);
    FlushFacts(ReplayAll(Dropped(m), s, log).machine, s);
    CalmHasNone(s, m.tick, UndoAll(m, s, log).machine.tick);
    hide ReplayAll, Flush, Failures, Reach, Sized, Coherent, Touches, Logical, Inside, AllTrue, NotWritten, CalmUntil;
    OneFailureIsMended(m, s, log);
  }

  // ---- the bytes ------------------------------------------------------------

  /** A write only depends on the old bytes outside its own range. */
  lemma OverwriteAgrees(a: seq<byte>, b: seq<byte>, loc: nat, data: seq<byte>)
    requires |a| == |b| && forall i | 0 <= i < |a| && Outside(i, loc, loc + |data|) :: a[i] == b[i]
    ensures Overwrite(a, loc, data) == Overwrite(b, loc, data)
  {
  }

  /** Outside the entry nothing changes, unless a flush failed. */
  predicate KeepsOutside(s: Disk, t: Disk, u: Undo) {
    && |t.device| == |s.device|
    && (forall i | 0 <= i < |s.device| && Outside(i, u.loc, u.loc + |u.data|) :: Logical(t)[i] == Logical(s)[i])
  }

  lemma TryKeepsOutside(m: Machine, s: Script, u: Undo)
    requires Sized(m.disk) && Coherent(m.disk)
    ensures KeepsOutside(m.disk, WriteRange(m, s, u.loc, u.data).machine.disk, u)
  {
    WriteFacts(m, s, u.loc, u.data);
    var w := WriteRange(m, s, u.loc, u.data);
    var h := Head(u.loc, |u.data|, m.disk.blockSize);
    if !w.ok {
      BlendsTouches(m.disk, w.machine.disk, u.loc, Front(u.data, h));
    }
    hide WriteRange, Sized, Coherent, Blends, Logical, Reach, CalmUntil, Calm;
  }

  /** What one entry does to the bytes while no flush fails. */
  lemma EntryBytes(m: Machine, s: Script, u: Undo)
    requires Sized(m.disk) && Coherent(m.disk) && ReplayEntry(m, s, u).flushed
    ensures var r := ReplayEntry(m, s, u);
            && KeepsOutside(m.disk, r.machine.disk, u)
            && (r.written ==>
                  Coherent(r.machine.disk) && Logical(r.machine.disk) == Overwrite(Logical(m.disk), u.loc, u.data))
  {
    WriteFacts(m, s, u.loc, u.data);
    TryKeepsOutside(m, s, u);
    var w := WriteRange(m, s, u.loc, u.data);
    if !w.ok {
      FlushFacts(w.machine, s);
      var f := Flush(w.machine, s).machine;
      DroppedSized(f);
      LogicalKept(w.machine.disk, f.disk);
      var d := Dropped(f);
      WriteFacts(d, s, u.loc, u.data);
      TryKeepsOutside(d, s, u);
      OverwriteAgrees(Logical(d.disk), Logical(m.disk), u.loc, u.data);
    }
    hide WriteRange, Flush, Sized, Coherent, Touches, Blends, Logical, Overwrite, Reach, CalmUntil, Calm;
  }

  /** An entry in one block that is given up leaves nothing in the cache. */
  lemma GivenUpInOneBlock(m: Machine, s: Script, u: Undo)
    requires Sized(m.disk) && m.disk.block == -1 && !m.disk.dirty && InOneBlock(u, m.disk.blockSize)
    ensures var w := WriteRange(m, s, u.loc, u.data); !w.ok ==> w.machine.disk.block == -1 && Coherent(w.machine.disk)
  {
    if u.data != [] {
      FirstWrite(m, s, u.loc, u.data);
      OneChunk(u.loc, |u.data|, m.disk.blockSize);
      var c := CacheBlock(m, s, BlockAt(u.loc, m.disk.blockSize));
      if c.ok {
        var e := Dirtied(c.machine, OffsetAt(u.loc, m.disk.blockSize), u.data[..|u.data|]);
        EmptyWrite(e, s, u.loc + |u.data|);
      } else {
        FailedFetchForgets(m, s, BlockAt(u.loc, m.disk.blockSize));
      }
    }
    hide WriteRange, CacheBlock, Sized, Dirtied;
  }

  lemma OneChunk(loc: nat, count: nat, blockSize: nat)
    requires blockSize > 0 && loc % blockSize + count <= blockSize
    ensures ChunkLength(loc, count, blockSize) == count
  {
  }

  lemma FailedFetchForgets(m: Machine, s: Script, block: nat)
    requires Sized(m.disk) && m.disk.block == -1 && !m.disk.dirty && !CacheBlock(m, s, block).ok
    ensures CacheBlock(m, s, block).machine.disk.block == -1 && !CacheBlock(m, s, block).machine.disk.dirty
  {
  }

  lemma GivenUpCoherent(m: Machine, s: Script, u: Undo)
    requires Sized(m.disk) && ReplayEntry(m, s, u).flushed && !ReplayEntry(m, s, u).written
    requires InOneBlock(u, m.disk.blockSize)
    ensures Coherent(ReplayEntry(m, s, u).machine.disk)
  {
    WriteFacts(m, s, u.loc, u.data);
    var w := WriteRange(m, s, u.loc, u.data);
    FlushFacts(w.machine, s);
    var f := Flush(w.machine, s).machine;
    DroppedSized(f);
    LogicalKept(w.machine.disk, f.disk);
    GivenUpInOneBlock(Dropped(f), s, u);
    hide WriteRange, Flush, Sized, Coherent, Touches, Blends, Logical, Reach, CalmUntil, Calm;
  }

  /** No entry that was given up covers the byte. */
  predicate Spared(log: seq<Undo>, written: seq<bool>, i: int)
    requires |written| == |log|
  {
    forall k | 0 <= k < |log| && !written[k] :: !Covers(log[k], i)
  }

  /** Every entry that was given up lies in one block. */
  predicate GivenUpShort(log: seq<Undo>, written: seq<bool>, blockSize: nat)
    requires |written| == |log| && blockSize > 0
  {
    forall k | 0 <= k < |log| && !written[k] :: InOneBlock(log[k], blockSize)
  }

  /** A byte after a log depends on that byte before it. */
  lemma {:induction false} ApplyAt(a: seq<byte>, b: seq<byte>, log: seq<Undo>, i: nat)
    requires |a| == |b| && i < |a| && a[i] == b[i]
    ensures Apply(a, log)[i] == Apply(b, log)[i]
    decreases |log|
  {
    if log != [] {
      ApplyAt(Overwrite(a, log[0].loc, log[0].data), Overwrite(b, log[0].loc, log[0].data), log[1..], i);
    }
  }

  lemma EntryAt(m: Machine, s: Script, u: Undo, i: nat)
    requires Sized(m.disk) && Coherent(m.disk) && ReplayEntry(m, s, u).flushed && i < |m.disk.device|
    ensures |ReplayEntry(m, s, u).machine.disk.device| == |m.disk.device|
    ensures ReplayEntry(m, s, u).written || !Covers(u, i) ==>
              Logical(ReplayEntry(m, s, u).machine.disk)[i] == Overwrite(Logical(m.disk), u.loc, u.data)[i]
  {
    EntryBytes(m, s, u);
    hide ReplayEntry, Logical, Sized, Coherent;
  }

  lemma {:induction false} SparedBytes(m: Machine, s: Script, log: seq<Undo>, i: nat)
    requires Sized(m.disk) && Coherent(m.disk) && i < |m.disk.device|
    requires var r := ReplayAll(m, s, log);
             r.flushed && GivenUpShort(log, r.written, m.disk.blockSize) && Spared(log, r.written, i)
    ensures Logical(ReplayAll(m, s, log).machine.disk)[i] == Apply(Logical(m.disk), log)[i]
    decreases |log|
  {
    if log != [] {
      var u, first := log[0], ReplayEntry(m, s, log[0]);
      var r, rest := ReplayAll(m, s, log), ReplayAll(first.machine, s, log[1..]);
      assert r.written == [first.written] + rest.written && r.machine == rest.machine && r.flushed == (first.flushed && rest.flushed);
      assert r.written[0] == first.written && r.written[1..] == rest.written;
      SparedRest(log, r.written, i, m.disk.blockSize);
      EntryBytes(m, s, u);
      EntryAt(m, s, u, i);
      if !first.written {
        GivenUpCoherent(m, s, u);
      }
      hide ReplayEntry, ReplayAll, Logical, Sized, Coherent, Overwrite, KeepsOutside, Spared, GivenUpShort, InOneBlock;
      SparedBytes(first.machine, s, log[1..], i);
      ApplyAt(Logical(first.machine.disk), Overwrite(Logical(m.disk), u.loc, u.data), log[1..], i);
    }
  }

  lemma SparedRest(log: seq<Undo>, written: seq<bool>, i: int, blockSize: nat)
    requires |written| == |log| > 0 && blockSize > 0
    requires GivenUpShort(log, written, blockSize) && Spared(log, written, i)
    ensures GivenUpShort(log[1..], written[1..], blockSize) && Spared(log[1..], written[1..], i)
    ensures !written[0] ==> InOneBlock(log[0], blockSize) && !Covers(log[0], i)
  {
    hide InOneBlock, Covers;
  }

  /** An undoing that succeeds leaves the device as the log applied in order. */
  lemma UndoneBytes(m: Machine, s: Script, log: seq<Undo>)
    requires Sized(m.disk)
    ensures UndoAll(m, s, log).ok ==>
              UndoAll(m, s, log).machine.disk.device == Apply(m.disk.device, log) && !UndoAll(m, s, log).machine.disk.dirty
  {
    DroppedSized(m);
    var all := ReplayAll(Dropped(m), s, log);
    FlushFacts(all.machine, s);
    if UndoAll(m, s, log).ok {
      forall i | 0 <= i < |m.disk.device|
        ensures Logical(all.machine.disk)[i] == Apply(m.disk.device, log)[i]
      {
        SparedBytes(Dropped(m), s, log, i);
      }
      assert Logical(all.machine.disk) == Apply(m.disk.device, log);
    }
    hide ReplayAll, Flush, Sized, Coherent, Touches, Logical, Apply;
  }

  /** An entry that was given up does not stop the others: while no flush fails and the entries that
      were given up lie in one block each, every byte that none of them covers is what the whole log
      leaves there. */
  lemma OthersAreRestored(m: Machine, s: Script, log: seq<Undo>, i: nat)
    requires Sized(m.disk) && i < |m.disk.device|
    requires var all := ReplayAll(Dropped(m), s, log);
             && all.flushed && Flush(all.machine, s).ok
             && GivenUpShort(log, all.written, m.disk.blockSize) && Spared(log, all.written, i)
    ensures |UndoAll(m, s, log).machine.disk.device| == |m.disk.device|
    ensures UndoAll(m, s, log).machine.disk.device[i] == Apply(m.disk.device, log)[i]
  {
    DroppedSized(m);
    SparedBytes(Dropped(m), s, log, i);
    FlushFacts(ReplayAll(Dropped(m), s, log).machine, s);
    hide ReplayAll, Flush, Sized, Coherent, Touches, Logical, Apply, Spared, GivenUpShort;
  }

  // ---- an entry over a block boundary ---------------------------------------

  /** The first seek fails, and later the read of a second block; that read leaves sevens behind. */
  function StrayScript(): Script {
    Script(k => k == 0 || k == 6, (k, i) => false, (k, i) => 7)
  }

  function Zeros(n: nat): (r: seq<byte>)
    ensures |r| == n
  {
    seq(n, _ => 0)
  }

  function Sevens(n: nat): (r: seq<byte>)
    ensures |r| == n
  {
    seq(n, _ => 7)
  }

  /** A device of two blocks of zeros. */
  function TwoBlocks(tick: nat, cache: seq<byte>, dirty: bool, block: int): Machine {
    Machine(Disk(Zeros(1024), 512, 2, cache, dirty, block), tick)
  }

  lemma ZerosOnZeros(n: nat, loc: nat, k: nat)
    ensures Overwrite(Zeros(n), loc, Zeros(k)) == Zeros(n)
  {
  }

  lemma FirstTry(cache: seq<byte>)
    requires |cache| == 512
    ensures Sized(TwoBlocks(0, cache, false, -1).disk)
    ensures WriteRange(TwoBlocks(0, cache, false, -1), StrayScript(), 256, Zeros(512))
         == Did(TwoBlocks(1, cache, false, -1), false)
  {
    hide Zeros;
  }

  /** The second try writes the first block and fails to read the second. */
  lemma SecondTry(cache: seq<byte>)
    requires |cache| == 512
    ensures Sized(TwoBlocks(1, cache, false, -1).disk)
    ensures WriteRange(TwoBlocks(1, cache, false, -1), StrayScript(), 256, Zeros(512))
         == Did(TwoBlocks(7, Sevens(512), false, 0), false)
  {
    var s := StrayScript();
    var m, c, u := TwoBlocks(1, cache, false, -1), TwoBlocks(3, Zeros(512), false, 0), TwoBlocks(3, Zeros(512), true, 0);
    assert Zeros(1024)[0..512] == Zeros(512);
    assert CacheBlock(m, s, 0) == Did(c, true);
    assert Front(Zeros(512), 256) == Zeros(256) && Back(Zeros(512), 256) == Zeros(256);
    ZerosOnZeros(512, 256, 256);
    assert Dirtied(c, 256, Zeros(256)) == u;
    ZerosOnZeros(1024, 0, 512);
    assert Flush(u, s) == Did(TwoBlocks(5, Zeros(512), false, 0), true);
    assert Noise(s, 6, 512) == Sevens(512);
    assert CacheBlock(u, s, 1) == Did(TwoBlocks(7, Sevens(512), false, 0), false);
    hide CacheBlock, Overwrite, Dirtied, Zeros, Sevens, Front, Back;
    assert WriteRange(u, s, 512, Zeros(256)) == Did(TwoBlocks(7, Sevens(512), false, 0), false);
  }

  /** Both tries of the entry fail, and the cache holds sevens that pass for block 0. */
  lemma StrayEntry(cache: seq<byte>)
    requires |cache| == 512
    ensures Sized(TwoBlocks(0, cache, false, -1).disk)
    ensures ReplayEntry(TwoBlocks(0, cache, false, -1), StrayScript(), Undo(256, Zeros(512)))
         == Replayed(TwoBlocks(7, Sevens(512), false, 0), false, true)
  {
    FirstTry(cache);
    SecondTry(cache);
    assert Dropped(TwoBlocks(1, cache, false, -1)) == TwoBlocks(1, cache, false, -1);
    hide WriteRange, Zeros, Sevens, StrayScript;
  }

  /** The entry after it makes that garbage dirty. */
  lemma NextEntry()
    ensures Sized(TwoBlocks(7, Sevens(512), false, 0).disk)
    ensures ReplayEntry(TwoBlocks(7, Sevens(512), false, 0), StrayScript(), Undo(0, Zeros(1)))
         == Replayed(TwoBlocks(7, Overwrite(Sevens(512), 0, Zeros(1)), true, 0), true, true)
  {
    var m, s := TwoBlocks(7, Sevens(512), false, 0), StrayScript();
    assert CacheBlock(m, s, 0) == Did(m, true) && Front(Zeros(1), 1) == Zeros(1) && Back(Zeros(1), 1) == [];
    assert WriteRange(m, s, 0, Zeros(1)) == Did(Dirtied(m, 0, Zeros(1)), true);
    hide WriteRange, Zeros, Sevens, StrayScript, CacheBlock;
  }

  /** That the entries given up lie in one block each is needed: a log of two entries over a device
      that holds zeros already, and byte 1, which no entry covers, ends up as 7 although no flush
      failed. */
  lemma StrayByte(cache: seq<byte>)
    requires |cache| == 512
    ensures Sized(TwoBlocks(0, cache, false, 0).disk)
    ensures var m, log := TwoBlocks(0, cache, false, 0), [Undo(256, Zeros(512)), Undo(0, Zeros(1))];
            var all := ReplayAll(Dropped(m), StrayScript(), log);
            && all.written == [false, true] && all.flushed && Flush(all.machine, StrayScript()).ok
            && Spared(log, all.written, 1)
            && UndoAll(m, StrayScript(), log).machine.disk.device[1] == 7
            && Apply(m.disk.device, log)[1] == 0
  {
    var m, s := TwoBlocks(0, cache, false, 0), StrayScript();
    var a, b := Undo(256, Zeros(512)), Undo(0, Zeros(1));
    assert Dropped(m) == TwoBlocks(0, cache, false, -1);
    StrayEntry(cache);
    NextEntry();
    assert [a, b][1..] == [b] && [b][1..] == [];
    var dirty := TwoBlocks(7, Overwrite(Sevens(512), 0, Zeros(1)), true, 0);
    assert ReplayAll(TwoBlocks(7, Sevens(512), false, 0), s, [b]) == Tally(dirty, [true], true);
    assert Flush(dirty, s).ok && Flush(dirty, s).machine.disk.device[1] == 7;
    ZerosOnZeros(1024, 256, 512);
    ZerosOnZeros(1024, 0, 1);
    assert Apply(m.disk.device, [a, b]) == Apply(m.disk.device, [b]) == m.disk.device;
    hide ReplayEntry, Flush, Overwrite, Sevens, StrayScript;
  }
}
