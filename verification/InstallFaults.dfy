/** Exactly when a failed installation is undone completely, whatever fails. */
module InstallFaults {
  import opened Multiples
  import opened DiskModel
  import opened CacheModel
  import opened InstallModel

  // ---- the condition --------------------------------------------------------

  /** The k-th operation is reached when nothing fails on the medium. */
  predicate Attempted(ops: seq<Operation>, k: nat, reach: nat)
    requires k < |ops|
  {
    AllInside(ops[..k], reach) && |AllWritten(ops[..k])| <= UNINSTALL_DATA_MAX
  }

  /** Every operation that can be reached writes, before the last block of its range, only bytes
      that are there already or that an earlier write has saved. */
  predicate Recoverable(original: seq<byte>, blockSize: nat, reach: nat, ops: seq<Operation>)
    requires blockSize > 0
  {
    forall k | 0 <= k < |ops| && Attempted(ops, k, reach) ::
      Harmless(original, AllWritten(ops[..k]), ops[k], blockSize, reach)
  }

  /** If an operation fails under this script, replaying the log gives every byte back. */
  predicate Restores(m: Machine, s: Script, ops: seq<Operation>)
    requires Sized(m.disk)
  {
    var r := PerformAll(m, [], s, ops);
    r.done < |ops| ==> Apply(r.machine.disk.device, Reverse(r.log)) == m.disk.device
  }

  /** An operation fails, nothing fails afterwards, and replaying the log still leaves a byte changed. */
  ghost predicate Spoils(m: Machine, s: Script, ops: seq<Operation>)
    requires Sized(m.disk)
  {
    !Restores(m, s, ops) && Calm(s, PerformAll(m, [], s, ops).machine.tick)
  }

  lemma StartsKept(m: Machine)
    requires Starts(m)
    ensures Kept(m.disk.device, m, [], [])
  {
  }

  /** The condition suffices. */
  lemma RecoverableRestores(m: Machine, s: Script, ops: seq<Operation>)
    requires Starts(m) && Recoverable(m.disk.device, m.disk.blockSize, Reach(m.disk), ops)
    ensures Restores(m, s, ops)
  {
    var original := m.disk.device;
    StartsKept(m);
    AllKeeps(original, m, [], [], s, ops);
    var r := PerformAll(m, [], s, ops);
    hide PerformAll, Kept, Harmless, Undoable, AllInside, AllWritten, Reach, Inside, Coherent, WellFormed;
    if r.done < |ops| {
      var k := r.done;
      assert [] + AllWritten(ops[..k]) == AllWritten(ops[..k]);
      assert Attempted(ops, k, Reach(m.disk));
      UndoRestores(original, r.machine.disk, r.log, 0, 0);
      UndoneSize(original, r.machine.disk, r.log);
      hide Apply, Reverse, Spoiled;
    }
  }

  lemma UndoneSize(original: seq<byte>, d: Disk, log: seq<Undo>)
    requires Undoable(original, d, log, 0, 0)
    ensures |d.device| == |original|
  {
  }

  // ---- scripts --------------------------------------------------------------

  const QUIET := Script(_ => false, (_, _) => false, (_, _) => 0)

  /** Only the access with this number fails. */
  function Once(n: nat): Script {
    Script(k => k == n, (_, _) => false, (_, _) => 0)
  }

  lemma QuietIsCalm(from: nat)
    ensures Calm(QUIET, from)
  {
  }

  /** A failure later on does not matter. */
  lemma FlushLater(m: Machine, n: nat)
    requires Flush(m, QUIET).machine.tick <= n
    ensures Flush(m, Once(n)) == Flush(m, QUIET)
  {
  }

  lemma FetchLater(m: Machine, n: nat, block: nat)
    requires Sized(m.disk) && Fetch(m, QUIET, block).machine.tick <= n
    ensures Fetch(m, Once(n), block) == Fetch(m, QUIET, block)
  {
    assert Noise(QUIET, m.tick + 1, m.disk.blockSize) == Noise(Once(n), m.tick + 1, m.disk.blockSize);
  }

  lemma CacheLater(m: Machine, n: nat, block: nat)
    requires Sized(m.disk) && CacheBlock(m, QUIET, block).machine.tick <= n
    ensures CacheBlock(m, Once(n), block) == CacheBlock(m, QUIET, block)
  {
    if m.disk.block != block {
      FlushSized(m, QUIET);
      QuietIsCalm(m.tick);
      FlushFacts(m, QUIET);
      var f := Flush(m, QUIET).machine;
      FetchFacts(f, QUIET, block);
      FlushLater(m, n);
      FetchLater(f, n, block);
    }
    hide Flush, Fetch, Sized, Flushes, Touches, Logical, Coherent;
  }

  /** The bytes of the first chunk of a read. */
  function FirstBytes(c: Did, loc: nat, count: nat, blockSize: nat): (chunk: seq<byte>)
    requires blockSize > 0 && |c.machine.disk.cache| == blockSize
    ensures |chunk| <= count && (c.ok && count > 0 ==> chunk != [])
  {
    var offset := OffsetAt(loc, blockSize);
    if c.ok then c.machine.disk.cache[offset..offset + ChunkLength(loc, count, blockSize)] else []
  }

  lemma ReadParts(m: Machine, s: Script, loc: nat, count: nat) returns (c: Did)
    requires Sized(m.disk) && count > 0
    ensures c == CacheBlock(m, s, BlockAt(loc, m.disk.blockSize)) && Sized(c.machine.disk)
    ensures |c.machine.disk.cache| == m.disk.blockSize
    ensures c.machine.tick <= ReadRange(m, s, loc, count).machine.tick
    ensures ReadRange(m, s, loc, count) == Continued(c, s, loc, count, FirstBytes(c, loc, count, m.disk.blockSize))
  {
    FirstRead(m, s, loc, count);
    c := CacheBlock(m, s, BlockAt(loc, m.disk.blockSize));
    hide CacheBlock, BlockAt, OffsetAt, ChunkLength, ReadRange, Sized;
  }

  lemma ReadLaterStep(m: Machine, n: nat, loc: nat, count: nat) returns (c: Did, length: nat)
    requires Sized(m.disk) && count > 0 && ReadRange(m, QUIET, loc, count).machine.tick <= n
    ensures Sized(c.machine.disk) && length <= count && (c.ok ==> length > 0)
    ensures !c.ok ==> ReadRange(m, Once(n), loc, count) == ReadRange(m, QUIET, loc, count)
    ensures c.ok ==>
              var quiet := ReadRange(c.machine, QUIET, loc + length, count - length);
              && quiet.machine.tick <= n
              && (ReadRange(c.machine, Once(n), loc + length, count - length) == quiet ==>
                    ReadRange(m, Once(n), loc, count) == ReadRange(m, QUIET, loc, count))
  {
    hide CacheBlock, BlockAt, OffsetAt, ChunkLength, ReadRange, SameShape, FirstBytes;
    c := ReadParts(m, QUIET, loc, count);
    CacheLater(m, n, BlockAt(loc, m.disk.blockSize));
    var d := ReadParts(m, Once(n), loc, count);
    length := |FirstBytes(c, loc, count, m.disk.blockSize)|;
    hide Sized;
  }

  lemma {:induction false} ReadLater(m: Machine, n: nat, loc: nat, count: nat)
    requires Sized(m.disk) && ReadRange(m, QUIET, loc, count).machine.tick <= n
    ensures ReadRange(m, Once(n), loc, count) == ReadRange(m, QUIET, loc, count)
    decreases count
  {
    hide *;
    if count == 0 {
      EmptyRead(m, QUIET, loc);
      EmptyRead(m, Once(n), loc);
    } else {
      var c, length := ReadLaterStep(m, n, loc, count);
      if c.ok {
        ReadLater(c.machine, n, loc + length, count - length);
      }
    }
  }

  lemma WriteParts(m: Machine, s: Script, loc: nat, data: seq<byte>) returns (c: Did, n: nat, e: Machine)
    requires Sized(m.disk) && data != []
    ensures c == CacheBlock(m, s, BlockAt(loc, m.disk.blockSize))
    ensures n == ChunkLength(loc, |data|, m.disk.blockSize) && 0 < n <= |data|
    ensures e == Dirtied(c.machine, OffsetAt(loc, m.disk.blockSize), Front(data, n))
    ensures c.machine.tick <= WriteRange(m, s, loc, data).machine.tick
    ensures if c.ok then Sized(e.disk) && WriteRange(m, s, loc, data) == WriteRange(e, s, loc + n, Back(data, n))
            else WriteRange(m, s, loc, data) == c
  {
    FirstWrite(m, s, loc, data);
    c := CacheBlock(m, s, BlockAt(loc, m.disk.blockSize));
    n := ChunkLength(loc, |data|, m.disk.blockSize);
    e := Dirtied(c.machine, OffsetAt(loc, m.disk.blockSize), Front(data, n));
    hide CacheBlock, BlockAt, OffsetAt, ChunkLength, WriteRange, Sized, Overwrite;
  }

  /** The first chunk of a write does not depend on failures after it. */
  lemma ChunkLater(m: Machine, n: nat, loc: nat, data: seq<byte>, length: nat)
    requires Sized(m.disk) && data != [] && length == ChunkLength(loc, |data|, m.disk.blockSize)
    requires WriteRange(m, QUIET, loc, data).machine.tick <= n
    ensures AfterChunk(m, Once(n), loc, data, length) == AfterChunk(m, QUIET, loc, data, length)
  {
    assert m.disk.blockSize > 0;
    AfterFirstWrite(m, QUIET, loc, data, length);
    assert CacheBlock(m, QUIET, BlockAt(loc, m.disk.blockSize)).machine.tick <= n;
    hide CacheBlock, BlockAt, OffsetAt, ChunkLength, WriteRange, Sized, Overwrite;
    CacheLater(m, n, BlockAt(loc, m.disk.blockSize));
  }

  lemma WriteLaterStep(m: Machine, n: nat, loc: nat, data: seq<byte>) returns (e: Did, length: nat)
    requires Sized(m.disk) && data != [] && WriteRange(m, QUIET, loc, data).machine.tick <= n
    ensures 0 < length <= |data| && Sized(e.machine.disk)
    ensures !e.ok ==> WriteRange(m, Once(n), loc, data) == WriteRange(m, QUIET, loc, data)
    ensures e.ok ==>
              && WriteRange(m, QUIET, loc, data) == WriteRange(e.machine, QUIET, loc + length, Back(data, length))
              && WriteRange(m, Once(n), loc, data) == WriteRange(e.machine, Once(n), loc + length, Back(data, length))
  {
    assert m.disk.blockSize > 0;
    length := ChunkLength(loc, |data|, m.disk.blockSize);
    hide AfterChunk, ChunkLength, WriteRange, Sized;
    AfterFirstWrite(m, QUIET, loc, data, length);
    AfterFirstWrite(m, Once(n), loc, data, length);
    ChunkLater(m, n, loc, data, length);
    e := AfterChunk(m, QUIET, loc, data, length);
  }

  lemma {:induction false} WriteLater(m: Machine, n: nat, loc: nat, data: seq<byte>)
    requires Sized(m.disk) && WriteRange(m, QUIET, loc, data).machine.tick <= n
    ensures WriteRange(m, Once(n), loc, data) == WriteRange(m, QUIET, loc, data)
    decreases |data|
  {
    hide *;
    if data == [] {
      EmptyWrite(m, QUIET, loc);
      EmptyWrite(m, Once(n), loc);
    } else {
      var e, length := WriteLaterStep(m, n, loc, data);
      if e.ok {
        WriteLater(e.machine, n, loc + length, Back(data, length));
      }
    }
  }

  lemma OneLater(m: Machine, log: seq<Undo>, n: nat, op: Operation)
    requires Sized(m.disk) && PerformOne(m, log, QUIET, op).machine.tick <= n
    ensures PerformOne(m, log, Once(n), op) == PerformOne(m, log, QUIET, op)
  {
    hide ReadRange, WriteRange, Flush, Sized;
    match op {
      case ReadOp(loc, count) => ReadLater(m, n, loc, count);
      case WriteOp(loc, data) =>
        if |log| < UNINSTALL_DATA_MAX {
          ReadFacts(m, QUIET, loc, |data|);
          var r := ReadRange(m, QUIET, loc, |data|);
          hide Flushes, Touches, Coherent, Logical, Reach;
          ReadLater(m, n, loc, |data|);
          if r.ok {
            WriteLater(r.machine, n, loc, data);
          }
        }
      case FlushOp => FlushLater(m, n);
    }
  }

  lemma {:induction false} AllLater(m: Machine, log: seq<Undo>, n: nat, ops: seq<Operation>)
    requires Sized(m.disk) && PerformAll(m, log, QUIET, ops).machine.tick <= n
    ensures PerformAll(m, log, Once(n), ops) == PerformAll(m, log, QUIET, ops)
    decreases |ops|
  {
    hide PerformOne, Sized;
    if ops != [] {
      var p := PerformOne(m, log, QUIET, ops[0]);
      OneLater(m, log, n, ops[0]);
      if p.ok {
        AllLater(p.machine, p.log, n, ops[1..]);
      }
    }
  }

  // ---- runs in two parts ----------------------------------------------------

  /** The first operations, all successful, and then the others. */
  lemma {:induction false} PerformSplit(m: Machine, log: seq<Undo>, s: Script, ops: seq<Operation>, k: nat)
    requires Sized(m.disk) && k <= |ops| && PerformAll(m, log, s, ops[..k]).done == k
    ensures var p := PerformAll(m, log, s, ops[..k]);
            var rest := PerformAll(p.machine, p.log, s, ops[k..]);
            PerformAll(m, log, s, ops) == rest.(done := k + rest.done)
    decreases k
  {
    hide PerformOne, Sized;
    if k == 0 {
      assert ops[..0] == [] && ops[0..] == ops;
    } else {
      var p := PerformOne(m, log, s, ops[0]);
      assert ops[..k][0] == ops[0] && ops[..k][1..] == ops[1..][..k - 1] && ops[k..] == ops[1..][k - 1..];
      PerformSplit(p.machine, p.log, s, ops[1..], k - 1);
    }
  }

  /** A chunk that ends at a block boundary is the same in a range that goes on. */
  lemma BoundaryChunk(loc: nat, p: nat, count: nat, blockSize: nat)
    requires blockSize > 0 && 0 < p <= count && OffsetAt(loc + p, blockSize) == 0
    ensures ChunkLength(loc, p, blockSize) == ChunkLength(loc, count, blockSize)
    ensures ChunkLength(loc, p, blockSize) <= p
  {
    assert loc == blockSize * (loc / blockSize) + loc % blockSize;
    assert loc + p == blockSize * ((loc + p) / blockSize);
    if p < blockSize - loc % blockSize {
      DivisionUnique(loc + p, blockSize, loc / blockSize, loc % blockSize + p);
      assert false;
    }
  }

  /** A write up to a block boundary, and then the others. */
  lemma {:induction false} WriteSplit(m: Machine, s: Script, loc: nat, data: seq<byte>, p: nat)
    requires Sized(m.disk) && p <= |data| && (p > 0 ==> OffsetAt(loc + p, m.disk.blockSize) == 0)
    requires WriteRange(m, s, loc, Front(data, p)).ok
    ensures var q := WriteRange(m, s, loc, Front(data, p)).machine;
            Sized(q.disk) && WriteRange(m, s, loc, data) == WriteRange(q, s, loc + p, Back(data, p))
    decreases p
  {
    hide *;
    if p == 0 {
      FrontNothing(data);
      EmptyWrite(m, s, loc);
    } else {
      var n, e := SplitStep(m, s, loc, data, p);
      WriteSplit(e, s, loc + n, Back(data, n), p - n);
      BackParts(data, p, n);
    }
  }

  /** Both writes begin with the same chunk. */
  lemma SplitStep(m: Machine, s: Script, loc: nat, data: seq<byte>, p: nat) returns (n: nat, e: Machine)
    requires Sized(m.disk) && 0 < p <= |data| && OffsetAt(loc + p, m.disk.blockSize) == 0
    requires WriteRange(m, s, loc, Front(data, p)).ok
    ensures 0 < n <= p && Sized(e.disk) && e.disk.blockSize == m.disk.blockSize
    ensures WriteRange(m, s, loc, data) == WriteRange(e, s, loc + n, Back(data, n))
    ensures WriteRange(m, s, loc, Front(data, p)) == WriteRange(e, s, loc + n, Front(Back(data, n), p - n))
  {
    BoundaryChunk(loc, p, |data|, m.disk.blockSize);
    hide CacheBlock, BlockAt, OffsetAt, ChunkLength, WriteRange, Sized, Dirtied, Front, Back;
    var c;
    c, n, e := WriteParts(m, s, loc, data);
    SameBlockSize(m, c, e, loc, data, n);
    var d, l, f := WriteParts(m, s, loc, Front(data, p));
    FrontParts(data, p, n);
  }

  lemma FrontNothing(data: seq<byte>)
    ensures Front(data, 0) == [] && Back(data, 0) == data
  {
  }

  lemma BackParts(data: seq<byte>, p: nat, n: nat)
    requires n <= p <= |data|
    ensures Back(Back(data, n), p - n) == Back(data, p)
  {
  }

  lemma SameBlockSize(m: Machine, c: Did, e: Machine, loc: nat, data: seq<byte>, n: nat)
    requires Sized(m.disk) && n <= |data| && SameShape(m.disk, c.machine.disk)
    requires e == Dirtied(c.machine, OffsetAt(loc, m.disk.blockSize), Front(data, n))
    ensures e.disk.blockSize == m.disk.blockSize
  {
  }

  /** A write that succeeds leaves its last block dirty in the cache. */
  lemma {:induction false} WriteLast(m: Machine, s: Script, loc: nat, data: seq<byte>)
    requires Sized(m.disk) && data != [] && WriteRange(m, s, loc, data).ok
    ensures var q := WriteRange(m, s, loc, data).machine;
            q.disk.dirty && q.disk.block == BlockAt(loc + |data| - 1, m.disk.blockSize)
    decreases |data|
  {
    assert m.disk.blockSize > 0;
    var c, n, e := WriteParts(m, s, loc, data);
    SameBlockSize(m, c, e, loc, data, n);
    assert e.disk.dirty && e.disk.block == BlockAt(loc, m.disk.blockSize);
    if n == |data| {
      SameBlock(loc, n, m.disk.blockSize);
      EmptyWrite(e, s, loc + n);
      assert Back(data, n) == [];
      hide CacheBlock, BlockAt, OffsetAt, ChunkLength, WriteRange, Sized, Dirtied;
    } else {
      hide CacheBlock, BlockAt, OffsetAt, ChunkLength, WriteRange, Sized, Dirtied;
      WriteLast(e, s, loc + n, Back(data, n));
    }
  }

  lemma SameBlock(loc: nat, n: nat, blockSize: nat)
    requires blockSize > 0 && 0 < n <= blockSize - OffsetAt(loc, blockSize)
    ensures BlockAt(loc + n - 1, blockSize) == BlockAt(loc, blockSize)
  {
    assert loc == blockSize * (loc / blockSize) + loc % blockSize;
    DivisionUnique(loc + n - 1, blockSize, loc / blockSize, loc % blockSize + n - 1);
  }

  lemma NextBlock(pos: nat, blockSize: nat)
    requires blockSize > 0 && pos > 0 && OffsetAt(pos, blockSize) == 0
    ensures BlockAt(pos - 1, blockSize) != BlockAt(pos, blockSize)
  {
    var q := (pos - 1) / blockSize;
    assert pos - 1 == blockSize * q + (pos - 1) % blockSize;
    assert pos == blockSize * (pos / blockSize);
  }

  // ---- a failure in the middle of a write -----------------------------------

  /** A dirty block is flushed to make room for another one, whose seek then fails. */
  lemma StopsAfterFlush(q: Machine, loc: nat, data: seq<byte>) returns (w: Machine)
    requires Sized(q.disk) && q.disk.dirty && data != [] && q.disk.block != BlockAt(loc, q.disk.blockSize)
    ensures WriteRange(q, Once(q.tick + 2), loc, data) == Did(w, false)
    ensures w.disk.device == Logical(q.disk) && w.tick == q.tick + 3
  {
    var s := Once(q.tick + 2);
    var c := CacheBlock(q, s, BlockAt(loc, q.disk.blockSize));
    w := Machine(q.disk.(device := Logical(q.disk), dirty := false), q.tick + 3);
    assert c == Did(w, false) by {
      FlushSized(q, s);
      hide BlockAt;
    }
    FirstWrite(q, s, loc, data);
    hide CacheBlock, BlockAt, WriteRange, Sized;
  }

  /** Without failures a write up to a boundary succeeds and is in the cache. */
  lemma QuietFront(m: Machine, loc: nat, data: seq<byte>) returns (q: Machine)
    requires Sized(m.disk) && Coherent(m.disk) && data != [] && loc + |data| <= Reach(m.disk)
    ensures WriteRange(m, QUIET, loc, data) == Did(q, true) && Sized(q.disk) && q.disk.blockSize == m.disk.blockSize
    ensures q.disk.dirty && q.disk.block == BlockAt(loc + |data| - 1, m.disk.blockSize) && m.tick <= q.tick
    ensures Logical(q.disk) == Overwrite(Logical(m.disk), loc, data)
  {
    QuietIsCalm(m.tick);
    WriteFacts(m, QUIET, loc, data);
    var w := WriteRange(m, QUIET, loc, data);
    hide WriteRange, Sized, Reach, Coherent, Logical, Touches, Blends, Overwrite, BlockAt, Calm, Head;
    q := w.machine;
    WriteLast(m, QUIET, loc, data);
  }

  /** A write can fail right after its bytes before any block boundary reached the device. */
  lemma StopsMidway(m: Machine, loc: nat, data: seq<byte>, p: nat) returns (n: nat, w: Machine)
    requires Sized(m.disk) && Coherent(m.disk) && 0 < p < |data| && OffsetAt(loc + p, m.disk.blockSize) == 0
    requires loc + |data| <= Reach(m.disk)
    ensures m.tick <= n < w.tick && WriteRange(m, Once(n), loc, data) == Did(w, false)
    ensures w.disk.device == Overwrite(Logical(m.disk), loc, Front(data, p))
  {
    assert m.disk.blockSize > 0;
    NextBlock(loc + p, m.disk.blockSize);
    hide *;
    var q := QuietFront(m, loc, Front(data, p));
    n := q.tick + 2;
    WriteLater(m, n, loc, Front(data, p));
    WriteSplit(m, Once(n), loc, data, p);
    w := StopsAfterFlush(q, loc + p, Back(data, p));
  }

  lemma LoggedStopsMidway(m: Machine, log: seq<Undo>, loc: nat, data: seq<byte>, p: nat) returns (n: nat, w: Machine)
    requires Sized(m.disk) && Coherent(m.disk) && 0 < p < |data| && OffsetAt(loc + p, m.disk.blockSize) == 0
    requires loc + |data| <= Reach(m.disk) && |log| < UNINSTALL_DATA_MAX
    ensures m.tick <= n < w.tick && LoggedWrite(m, log, Once(n), loc, data) == Logged(w, log, false)
    ensures w.disk.device == Overwrite(Logical(m.disk), loc, Front(data, p))
  {
    QuietIsCalm(m.tick);
    ReadFacts(m, QUIET, loc, |data|);
    var r := ReadRange(m, QUIET, loc, |data|);
    LogicalKept(m.disk, r.machine.disk);
    hide ReadRange, WriteRange, Sized, Reach, Coherent, Logical, Touches, Overwrite, OffsetAt, Calm, Front;
    n, w := StopsMidway(r.machine, loc, data, p);
    ReadLater(m, n, loc, |data|);
  }

  /** The end of the block of a byte that lies before the last block of a range. */
  lemma Boundary(loc: nat, count: nat, i: nat, blockSize: nat) returns (p: nat)
    requires blockSize > 0 && loc <= i < loc + Head(loc, count, blockSize)
    ensures i - loc < p < count && OffsetAt(loc + p, blockSize) == 0
  {
    var block := i / blockSize;
    var last := (loc + count - 1) / blockSize;
    assert i == blockSize * block + i % blockSize;
    assert loc + count - 1 == blockSize * last + (loc + count - 1) % blockSize;
    if last <= block {
      if last < block {
        Spaced(blockSize, last, block);
      }
      assert false;
    } else {
      Spaced(blockSize, block, block + 1);
      if block + 1 < last {
        Spaced(blockSize, block + 1, last);
      }
      p := (block + 1) * blockSize - loc;
      MultipleModulo(block + 1, blockSize);
    }
  }

  /** Without failures on the medium operations that fit all succeed. */
  lemma QuietRun(m: Machine, ops: seq<Operation>) returns (r: Performed)
    requires Starts(m) && AllInside(ops, Reach(m.disk)) && |AllWritten(ops)| <= UNINSTALL_DATA_MAX
    ensures r == PerformAll(m, [], QUIET, ops) && r.done == |ops|
    ensures Kept(m.disk.device, r.machine, r.log, AllWritten(ops))
    ensures Reach(r.machine.disk) == Reach(m.disk) && r.machine.disk.blockSize == m.disk.blockSize
  {
    StartsKept(m);
    QuietIsCalm(m.tick);
    AllKeeps(m.disk.device, m, [], [], QUIET, ops);
    r := PerformAll(m, [], QUIET, ops);
    assert [] + AllWritten(ops) == AllWritten(ops);
    hide PerformAll, Kept, Spoiled, AllWritten, AllInside, Reach, Calm, Sized;
  }

  lemma StopsAt(m: Machine, log: seq<Undo>, s: Script, ops: seq<Operation>, w: Machine)
    requires Sized(m.disk) && ops != [] && PerformOne(m, log, s, ops[0]) == Logged(w, log, false)
    ensures PerformAll(m, log, s, ops) == Performed(w, log, 0)
  {
    hide PerformOne, Sized;
  }

  /** The next operation, a write, stops midway. */
  lemma NextStops(original: seq<byte>, before: Performed, writes: seq<Undo>, op: Operation, p: nat)
    returns (n: nat, w: Machine)
    requires Kept(original, before.machine, before.log, writes) && |writes| < UNINSTALL_DATA_MAX
    requires op.WriteOp? && op.Fits(Reach(before.machine.disk))
    requires 0 < p < |op.data| && OffsetAt(op.loc + p, before.machine.disk.blockSize) == 0
    ensures before.machine.tick <= n < w.tick
    ensures PerformOne(before.machine, before.log, Once(n), op) == Logged(w, before.log, false)
    ensures |w.disk.device| == |original| && SameRanges(before.log, writes)
    ensures forall i | op.loc <= i < op.loc + p && i < |original| :: w.disk.device[i] == op.data[i - op.loc]
  {
    LogicalSize(before.machine.disk, original, before.log);
    hide Sized, Coherent, Undoable, Inside, Logical, Apply, LoggedWrite, OffsetAt, Reach;
    n, w := LoggedStopsMidway(before.machine, before.log, op.loc, op.data, p);
  }

  lemma CalmAfter(n: nat, from: nat)
    requires n < from
    ensures Calm(Once(n), from)
  {
  }

  lemma StartAttempted(m: Machine, ops: seq<Operation>, k: nat)
    requires Starts(m) && k < |ops| && Attempted(ops, k, Reach(m.disk))
    ensures Sized(m.disk) && AllInside(ops[..k], Reach(m.disk)) && |AllWritten(ops[..k])| <= UNINSTALL_DATA_MAX
  {
    hide AllInside, AllWritten;
  }

  /** The run under a script that fails once in the middle of the k-th operation. */
  lemma FailsMidway(m: Machine, ops: seq<Operation>, k: nat, p: nat) returns (s: Script, r: Performed)
    requires Starts(m) && k < |ops| && Attempted(ops, k, Reach(m.disk)) && ops[k].WriteOp?
    requires |AllWritten(ops[..k])| < UNINSTALL_DATA_MAX && ops[k].Fits(Reach(m.disk))
    requires 0 < p < |ops[k].data| && OffsetAt(ops[k].loc + p, m.disk.blockSize) == 0
    ensures r == PerformAll(m, [], s, ops) && r.done == k && SameRanges(r.log, AllWritten(ops[..k]))
    ensures |r.machine.disk.device| == |m.disk.device| && Calm(s, r.machine.tick)
    ensures forall i | ops[k].loc <= i < ops[k].loc + p && i < |m.disk.device| ::
              r.machine.disk.device[i] == ops[k].data[i - ops[k].loc]
  {
    hide *;
    StartAttempted(m, ops, k);
    var before := QuietRun(m, ops[..k]);
    var n, w := NextStops(m.disk.device, before, AllWritten(ops[..k]), ops[k], p);
    s := Once(n);
    AllLater(m, [], n, ops[..k]);
    PerformSplit(m, [], s, ops, k);
    assert ops[k..][0] == ops[k];
    StopsAt(before.machine, before.log, s, ops[k..], w);
    CalmAfter(n, w.tick);
    r := PerformAll(m, [], s, ops);
  }

  /** A byte that breaks the condition stays changed under some script. */
  lemma NotRestored(m: Machine, ops: seq<Operation>, k: nat, i: nat) returns (s: Script)
    requires Starts(m) && k < |ops| && Attempted(ops, k, Reach(m.disk)) && ops[k].WriteOp?
    requires |AllWritten(ops[..k])| < UNINSTALL_DATA_MAX && ops[k].Fits(Reach(m.disk))
    requires ops[k].loc <= i < ops[k].RiskEnd(m.disk.blockSize) && i < |m.disk.device|
    requires !CoveredBy(AllWritten(ops[..k]), i) && ops[k].data[i - ops[k].loc] != m.disk.device[i]
    ensures Spoils(m, s, ops)
  {
    var op := ops[k];
    var p := Boundary(op.loc, |op.data|, i, m.disk.blockSize);
    var r;
    hide PerformAll, Reach, OffsetAt, Sized, Coherent, Head, AllInside, AllWritten, CoveredBy;
    s, r := FailsMidway(m, ops, k, p);
    SameCovered(r.log, AllWritten(ops[..k]), i);
    ApplyReversed(r.machine.disk.device, r.log, i);
    RestoredCovered(r.log, i, r.machine.disk.device[i], r.machine.disk.device[i]);
    hide Apply, Reverse, Restored, SameRanges;
  }

  /** Undoing gives every byte back after a failure anywhere, whatever the script, if and only if
      every write that can be reached would, before the last block of its range, change only bytes
      that an earlier write has saved.  Otherwise one failure can spoil the device. */
  lemma UndoneCompletely(m: Machine, ops: seq<Operation>)
    requires Starts(m)
    ensures (forall s: Script :: Restores(m, s, ops))
       <==> Recoverable(m.disk.device, m.disk.blockSize, Reach(m.disk), ops)
    ensures !Recoverable(m.disk.device, m.disk.blockSize, Reach(m.disk), ops) ==> exists s: Script :: Spoils(m, s, ops)
  {
    hide Restores;
    if Recoverable(m.disk.device, m.disk.blockSize, Reach(m.disk), ops) {
      forall s: Script
        ensures Restores(m, s, ops)
      {
        RecoverableRestores(m, s, ops);
      }
    } else {
      var s := SpoilingScript(m, ops);
      hide Recoverable, Starts;
    }
  }

  lemma SpoilingScript(m: Machine, ops: seq<Operation>) returns (s: Script)
    requires Starts(m) && !Recoverable(m.disk.device, m.disk.blockSize, Reach(m.disk), ops)
    ensures Spoils(m, s, ops)
  {
    hide Spoils, AllWritten, CoveredBy, AllInside;
    var original, bs, reach := m.disk.device, m.disk.blockSize, Reach(m.disk);
    var k :| 0 <= k < |ops| && Attempted(ops, k, reach)
             && !Harmless(original, AllWritten(ops[..k]), ops[k], bs, reach);
    var op := ops[k];
    assert op.WriteOp? && |AllWritten(ops[..k])| < UNINSTALL_DATA_MAX && op.Fits(reach);
    var i :| op.loc <= i < op.RiskEnd(bs) && i < |original|
             && !(CoveredBy(AllWritten(ops[..k]), i) || op.data[i - op.loc] == original[i]);
    s := NotRestored(m, ops, k, i);
  }

  /** In particular operations whose writes each lie in one block are always undone completely. */
  lemma OneBlockWritesRestore(m: Machine, s: Script, ops: seq<Operation>)
    requires Starts(m)
    requires forall k | 0 <= k < |ops| && ops[k].WriteOp? ::
               ops[k].loc % m.disk.blockSize + |ops[k].data| <= m.disk.blockSize
    ensures Restores(m, s, ops)
  {
    var bs, reach := m.disk.blockSize, Reach(m.disk);
    forall k | 0 <= k < |ops| && Attempted(ops, k, reach)
      ensures Harmless(m.disk.device, AllWritten(ops[..k]), ops[k], bs, reach)
    {
      if ops[k].WriteOp? && ops[k].data != [] {
        HeadNext(ops[k].loc, |ops[k].data|, bs);
      }
      hide CoveredBy, AllWritten, Head, Attempted;
    }
    hide Harmless, Attempted, Restores, Starts;
    RecoverableRestores(m, s, ops);
  }

  /** Such a run on a device of two sectors: one write of 513 bytes over its zeros, and a script
      whose only failure is the seek to the second sector. */
  lemma PartialWriteStays() returns (s: Script)
    ensures var m := Fresh(seq(1024, _ => 0), 512);
            Sized(m.disk) && Spoils(m, s, [WriteOp(0, seq(513, _ => 1))])
  {
    var m, op := Fresh(seq(1024, _ => 0), 512), WriteOp(0, seq(513, _ => 1));
    FreshStarts(seq(1024, _ => 0), 512);
    assert [op][..0] == [] && AllWritten([]) == [];
    assert op.RiskEnd(512) == 512;
    hide *;
    s := NotRestored(m, [op], 0, 0);
  }
}
