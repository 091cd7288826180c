/** The cached device as functions of a script that says which accesses to the medium fail. */
module CacheModel {
  import opened Multiples
  import opened DiskModel

  const UNINSTALL_DATA_MAX := 256

  /** Seeks, reads and writes are counted; `fails` says which of them fail, `torn` which bytes a
      failed write replaces all the same, and `noise` what a failed read leaves in the cache. */
  datatype Script = Script(fails: nat -> bool, torn: (nat, int) -> bool, noise: (nat, int) -> byte)

  /** The cached device and the number of accesses so far. */
  datatype Machine = Machine(disk: Disk, tick: nat)

  datatype Did = Did(machine: Machine, ok: bool)

  /** No access fails from this one on. */
  ghost predicate Calm(s: Script, from: nat) {
    forall k: nat | from <= k :: !s.fails(k)
  }

  /** No access fails from the first of these to before the second. */
  ghost predicate CalmUntil(s: Script, from: nat, end: nat) {
    forall k: nat | from <= k < end :: !s.fails(k)
  }

  lemma CalmOn(s: Script, from: nat, later: nat)
    requires from <= later
    ensures Calm(s, from) ==> Calm(s, later)
  {
  }

  /** The device has this many whole blocks. */
  predicate Sized(d: Disk) {
    WellFormed(d) && |d.device| < d.blocks * d.blockSize + d.blockSize
  }

  /** The bytes in whole blocks. */
  function Reach(d: Disk): (r: nat)
    requires WellFormed(d)
    ensures r <= |d.device|
  {
    ProductNonNegative(d.blocks, d.blockSize);
    d.blocks * d.blockSize
  }

  function BlockAt(pos: nat, blockSize: nat): nat
    requires blockSize > 0
  {
    pos / blockSize
  }

  function OffsetAt(pos: nat, blockSize: nat): (r: nat)
    requires blockSize > 0
    ensures r < blockSize
  {
    pos % blockSize
  }

  /** How much of a range lies in its first block. */
  function ChunkLength(pos: nat, limit: nat, blockSize: nat): (n: nat)
    requires blockSize > 0
    ensures n <= limit && n <= blockSize - OffsetAt(pos, blockSize)
    ensures limit > 0 ==> n > 0
  {
    Min(limit, blockSize - OffsetAt(pos, blockSize))
  }

  predicate SameShape(s: Disk, t: Disk) {
    |t.device| == |s.device| && t.blockSize == s.blockSize && t.blocks == s.blocks
  }

  function Min(a: nat, b: nat): nat {
    if a <= b then a else b
  }

  // ---- the cache ------------------------------------------------------------

  function Torn(s: Script, tick: nat, device: seq<byte>, pos: int, data: seq<byte>): (r: seq<byte>)
    ensures |r| == |device|
  {
    seq(|device|, i requires 0 <= i < |device| =>
          if pos <= i < pos + |data| && s.torn(tick, i) then data[i - pos] else device[i])
  }

  function Noise(s: Script, tick: nat, n: nat): (r: seq<byte>)
    ensures |r| == n
  {
    seq(n, i => s.noise(tick, i))
  }

  /** Seek and write the dirty block. */
  function Flush(m: Machine, s: Script): Did {
    var d := m.disk;
    if !d.dirty then Did(m, true)
    else if s.fails(m.tick) then Did(Machine(d, m.tick + 1), false)
    else if s.fails(m.tick + 1) then
      Did(Machine(d.(device := Torn(s, m.tick + 1, d.device, d.block * d.blockSize, d.cache)), m.tick + 2), false)
    else
      Did(Machine(d.(device := Overwrite(d.device, d.block * d.blockSize, d.cache), dirty := false), m.tick + 2), true)
  }

  /** Seek and read a block; a block that is not inside the device cannot be read. */
  function Fetch(m: Machine, s: Script, block: nat): Did
    requires Sized(m.disk)
  {
    var d := m.disk;
    var pos := block * d.blockSize;
    ProductNonNegative(block, d.blockSize);
    if s.fails(m.tick) then Did(Machine(d, m.tick + 1), false)
    else if s.fails(m.tick + 1) || pos + d.blockSize > |d.device| then
      Did(Machine(d.(cache := Noise(s, m.tick + 1, d.blockSize)), m.tick + 2), false)
    else
      Did(Machine(d.(cache := d.device[pos..pos + d.blockSize], block := block), m.tick + 2), true)
  }

  function CacheBlock(m: Machine, s: Script, block: nat): (c: Did)
    requires Sized(m.disk)
    ensures Sized(c.machine.disk) && SameShape(m.disk, c.machine.disk) && m.tick <= c.machine.tick
    ensures c.ok ==> c.machine.disk.block == block
  {
    if m.disk.block == block then Did(m, true)
    else
      var flushed := Flush(m, s);
      FlushSized(m, s);
      FetchSized(flushed.machine, s, block);
      if !flushed.ok then flushed else Fetch(flushed.machine, s, block)
  }

  lemma FetchSized(m: Machine, s: Script, block: nat)
    requires Sized(m.disk)
    ensures !m.disk.dirty ==> Sized(Fetch(m, s, block).machine.disk)
  {
    BlockInside(block, m.disk.blocks, m.disk.blockSize, |m.disk.device|);
  }

  lemma FlushSized(m: Machine, s: Script)
    requires Sized(m.disk)
    ensures Sized(Flush(m, s).machine.disk) && (Flush(m, s).ok ==> !Flush(m, s).machine.disk.dirty)
  {
  }

  /** A block below the number of whole blocks lies inside the device, and no other does. */
  lemma BlockInside(block: nat, blocks: nat, blockSize: nat, size: nat)
    requires blockSize > 0 && blocks * blockSize <= size < blocks * blockSize + blockSize
    ensures block < blocks <==> block * blockSize + blockSize <= size
  {
    if block < blocks {
      Spaced(blockSize, block, blocks);
    } else if blocks < block {
      Spaced(blockSize, blocks, block);
    }
  }

  /** Flushing keeps every logical byte, even when it fails with a torn write. */
  lemma FlushFacts(m: Machine, s: Script)
    requires Sized(m.disk)
    ensures var f := Flush(m, s);
            && Sized(f.machine.disk) && Flushes(m.disk, f.machine.disk) && m.tick <= f.machine.tick
            && (f.ok ==> !f.machine.disk.dirty && f.machine.disk.device == Logical(m.disk))
            && (!f.ok ==> m.disk.dirty && f.machine.disk.dirty)
            && (f.ok && Coherent(m.disk) ==> Coherent(f.machine.disk))
            && f.machine.disk.block == m.disk.block && f.machine.disk.cache == m.disk.cache
            && (Calm(s, m.tick) ==> f.ok) && (CalmUntil(s, m.tick, f.machine.tick) <==> f.ok)
  {
    if m.disk.dirty {
      BlockInside(m.disk.block, m.disk.blocks, m.disk.blockSize, |m.disk.device|);
    }
  }

  lemma FetchFacts(m: Machine, s: Script, block: nat)
    requires Sized(m.disk) && !m.disk.dirty
    ensures var f := Fetch(m, s, block);
            && Sized(f.machine.disk) && Flushes(m.disk, f.machine.disk) && m.tick <= f.machine.tick
            && !f.machine.disk.dirty && f.machine.disk.device == m.disk.device
            && (f.ok ==> f.machine.disk.block == block && Coherent(f.machine.disk))
            && (f.ok ==> block < m.disk.blocks)
            && (Calm(s, m.tick) && block < m.disk.blocks ==> f.ok)
            && (CalmUntil(s, m.tick, f.machine.tick) && block < m.disk.blocks <==> f.ok)
  {
    BlockInside(block, m.disk.blocks, m.disk.blockSize, |m.disk.device|);
  }

  /** Caching a block keeps every logical byte, whatever fails. */
  lemma CacheFacts(m: Machine, s: Script, block: nat)
    requires Sized(m.disk)
    ensures var c := CacheBlock(m, s, block);
            && Sized(c.machine.disk) && Flushes(m.disk, c.machine.disk) && m.tick <= c.machine.tick
            && (c.ok ==> c.machine.disk.block == block < m.disk.blocks)
            && (c.ok && Coherent(m.disk) ==> Coherent(c.machine.disk))
            && (Calm(s, m.tick) && block < m.disk.blocks ==> c.ok)
            && (CalmUntil(s, m.tick, c.machine.tick) && block < m.disk.blocks <==> c.ok)
  {
    FlushFacts(m, s);
    if m.disk.block != block {
      var f := Flush(m, s);
      hide Flush, Logical, Coherent;
      if f.ok {
        FetchFacts(f.machine, s, block);
        TouchesThen(m.disk, f.machine.disk, Fetch(f.machine, s, block).machine.disk, 0, 0);
        hide Fetch, Touches;
      }
    } else {
      hide Flush, Touches, Coherent;
      WriteNothing(m.disk, 0, 0);
    }
  }

  /** A fresh start: nothing cached is dirty and nothing is logged. */
  predicate Starts(m: Machine) {
    Sized(m.disk) && Coherent(m.disk) && !m.disk.dirty
  }

  /** The machine after the block size was determined. */
  function Fresh(device: seq<byte>, blockSize: nat): Machine
    requires 0 < blockSize <= |device|
  {
    Machine(Disk(device, blockSize, |device| / blockSize, device[..blockSize], false, 0), 0)
  }

  lemma FreshStarts(device: seq<byte>, blockSize: nat)
    requires 0 < blockSize <= |device|
    ensures Starts(Fresh(device, blockSize))
  {
    var blocks := |device| / blockSize;
    assert |device| == blockSize * blocks + |device| % blockSize;
    BlockInside(0, blocks, blockSize, |device|);
  }

  // ---- reads ----------------------------------------------------------------

  datatype DidRead = DidRead(machine: Machine, ok: bool, bytes: seq<byte>)

  /** Read `count` bytes at `loc`, block by block. */
  function ReadRange(m: Machine, s: Script, loc: nat, count: nat): (r: DidRead)
    requires Sized(m.disk)
    ensures m.tick <= r.machine.tick
    decreases count
  {
    if count == 0 then DidRead(m, true, [])
    else
      var c := CacheBlock(m, s, BlockAt(loc, m.disk.blockSize));
      if !c.ok then DidRead(c.machine, false, [])
      else
        var offset := OffsetAt(loc, m.disk.blockSize);
        var n := ChunkLength(loc, count, m.disk.blockSize);
        var rest := ReadRange(c.machine, s, loc + n, count - n);
        rest.(bytes := c.machine.disk.cache[offset..offset + n] + rest.bytes)
  }

  /** The first chunk of a range: caching its block, and the bytes of it that are in range. */
  lemma ChunkFacts(m: Machine, s: Script, loc: nat, limit: nat)
    requires Sized(m.disk) && limit > 0
    ensures var d := m.disk;
            var c := CacheBlock(m, s, BlockAt(loc, d.blockSize));
            var offset := OffsetAt(loc, d.blockSize);
            var n := ChunkLength(loc, limit, d.blockSize);
            && Sized(c.machine.disk) && Flushes(d, c.machine.disk) && m.tick <= c.machine.tick
            && Reach(c.machine.disk) == Reach(d) && SameShape(d, c.machine.disk)
            && (c.ok ==> loc + n <= Reach(d) && |c.machine.disk.cache| == d.blockSize)
            && (c.ok ==> loc == c.machine.disk.block * d.blockSize + offset && c.machine.disk.block >= 0)
            && (c.ok && Coherent(d) ==>
                  && Coherent(c.machine.disk)
                  && c.machine.disk.cache[offset..offset + n] == Logical(d)[loc..loc + n])
            && (Calm(s, m.tick) && loc < Reach(d) ==> c.ok)
            && (CalmUntil(s, m.tick, c.machine.tick) && loc < Reach(d) <==> c.ok)
  {
    var d, block, offset := m.disk, BlockAt(loc, m.disk.blockSize), OffsetAt(loc, m.disk.blockSize);
    Locate(loc, d.blockSize, d.blocks, |d.device|);
    CacheFacts(m, s, block);
    var c := CacheBlock(m, s, block);
    hide CacheBlock, Logical, Coherent;
    if c.ok {
      var n := ChunkLength(loc, limit, d.blockSize);
      InsideWhole(loc, n, d.blockSize, d.blocks, |d.device|);
      CachedSlice(d, c.machine.disk, offset, n);
    }
    hide Touches;
  }

  /** What a read may do: if it succeeds it gives the logical bytes, and it never changes one. */
  ghost predicate Reads(m: Machine, r: DidRead, s: Script, loc: nat, count: nat)
    requires Sized(m.disk)
  {
    && Sized(r.machine.disk) && Flushes(m.disk, r.machine.disk) && m.tick <= r.machine.tick
    && Reach(r.machine.disk) == Reach(m.disk) && SameShape(m.disk, r.machine.disk)
    && (r.ok ==> |r.bytes| == count && (count == 0 || loc + count <= Reach(m.disk)))
    && (r.ok && Coherent(m.disk) ==>
          Coherent(r.machine.disk) && (count > 0 ==> r.bytes == Logical(m.disk)[loc..loc + count]))
    && (Calm(s, m.tick) && (count == 0 || loc + count <= Reach(m.disk)) ==> r.ok)
  }

  lemma {:induction false} ReadFacts(m: Machine, s: Script, loc: nat, count: nat)
    requires Sized(m.disk)
    ensures Reads(m, ReadRange(m, s, loc, count), s, loc, count)
    decreases count
  {
    hide *;
    if count == 0 {
      NothingReads(m, s, loc);
    } else {
      var c, chunk := ReadBegins(m, s, loc, count);
      if c.ok {
        ReadFacts(c.machine, s, loc + |chunk|, count - |chunk|);
        ChunkThenReads(m, s, loc, count, c, chunk);
      }
    }
  }

  lemma NothingReads(m: Machine, s: Script, loc: nat)
    requires Sized(m.disk)
    ensures Reads(m, ReadRange(m, s, loc, 0), s, loc, 0)
  {
    WriteNothing(m.disk, 0, 0);
    hide Logical, Coherent;
  }

  /** After the first chunk of a read: its bytes, or a failure. */
  predicate BegunRead(m: Machine, s: Script, loc: nat, count: nat, c: Did, chunk: seq<byte>)
    requires Sized(m.disk)
  {
    && c == CacheBlock(m, s, BlockAt(loc, m.disk.blockSize))
    && c.ok && |c.machine.disk.cache| == m.disk.blockSize && |chunk| == ChunkLength(loc, count, m.disk.blockSize)
    && var offset := OffsetAt(loc, m.disk.blockSize); chunk == c.machine.disk.cache[offset..offset + |chunk|]
  }

  lemma ChunkUnread(m: Machine, s: Script, loc: nat, count: nat)
    requires Sized(m.disk) && count > 0 && !CacheBlock(m, s, BlockAt(loc, m.disk.blockSize)).ok
    ensures Reads(m, DidRead(CacheBlock(m, s, BlockAt(loc, m.disk.blockSize)).machine, false, []), s, loc, count)
  {
    ChunkFacts(m, s, loc, count);
    hide CacheBlock, BlockAt, OffsetAt, ChunkLength, Logical, Coherent, Touches, Sized, Reach;
  }

  lemma ReadBegins(m: Machine, s: Script, loc: nat, count: nat) returns (c: Did, chunk: seq<byte>)
    requires Sized(m.disk) && count > 0
    ensures Sized(c.machine.disk)
    ensures !c.ok ==> Reads(m, ReadRange(m, s, loc, count), s, loc, count)
    ensures c.ok ==> BegunRead(m, s, loc, count, c, chunk) && 0 < |chunk| <= count
    ensures c.ok ==> ReadRange(m, s, loc, count) == Continued(c, s, loc, count, chunk)
  {
    c := CacheBlock(m, s, BlockAt(loc, m.disk.blockSize));
    var offset, n := OffsetAt(loc, m.disk.blockSize), ChunkLength(loc, count, m.disk.blockSize);
    chunk := [];
    FirstRead(m, s, loc, count);
    if c.ok {
      chunk := c.machine.disk.cache[offset..offset + n];
    } else {
      ChunkUnread(m, s, loc, count);
    }
    hide CacheBlock, BlockAt, OffsetAt, ChunkLength, Sized, Reads, ReadRange;
  }

  lemma ChunkThenReads(m: Machine, s: Script, loc: nat, count: nat, c: Did, chunk: seq<byte>)
    requires Sized(m.disk) && 0 < |chunk| <= count && BegunRead(m, s, loc, count, c, chunk) && Sized(c.machine.disk)
    requires Reads(c.machine, ReadRange(c.machine, s, loc + |chunk|, count - |chunk|), s, loc + |chunk|, count - |chunk|)
    ensures Reads(m, Continued(c, s, loc, count, chunk), s, loc, count)
  {
    hide CacheBlock, BlockAt, OffsetAt, ChunkLength, Logical, Coherent, Touches, Sized, Reach, ReadRange;
    ChunkFacts(m, s, loc, count);
    CalmOn(s, m.tick, c.machine.tick);
    var r := ReadRange(c.machine, s, loc + |chunk|, count - |chunk|);
    FlushesThen(m.disk, c.machine.disk, r.machine.disk);
    hide Calm;
    if r.ok && Coherent(m.disk) {
      Adjacent(Logical(m.disk), loc, loc + |chunk|, loc + count);
    }
  }

  /** A piece of one block inside the device lies inside the whole blocks. */
  lemma InsideWhole(pos: nat, n: nat, blockSize: nat, blocks: nat, size: nat)
    requires blockSize > 0 && blocks * blockSize <= size < blocks * blockSize + blockSize
    requires n <= blockSize - pos % blockSize
    ensures pos / blockSize < blocks ==> pos + n <= blocks * blockSize <= size
  {
    Locate(pos, blockSize, blocks, size);
    if pos / blockSize < blocks {
      Spaced(blockSize, pos / blockSize, blocks);
    }
  }

  // ---- writes ---------------------------------------------------------------

  function Front(data: seq<byte>, n: nat): (r: seq<byte>)
    requires n <= |data|
    ensures |r| == n
  {
    data[..n]
  }

  function Back(data: seq<byte>, n: nat): (r: seq<byte>)
    requires n <= |data|
    ensures |r| == |data| - n
  {
    data[n..]
  }

  /** The bytes of a cached block replaced at an offset. */
  function Dirtied(m: Machine, offset: nat, data: seq<byte>): Machine {
    m.(disk := m.disk.(cache := Overwrite(m.disk.cache, offset, data), dirty := true))
  }

  /** Write `data` at `loc`, block by block. */
  function WriteRange(m: Machine, s: Script, loc: nat, data: seq<byte>): (w: Did)
    requires Sized(m.disk)
    ensures m.tick <= w.machine.tick
    decreases |data|
  {
    if data == [] then Did(m, true)
    else
      var c := CacheBlock(m, s, BlockAt(loc, m.disk.blockSize));
      if !c.ok then c
      else
        var n := ChunkLength(loc, |data|, m.disk.blockSize);
        WriteRange(Dirtied(c.machine, OffsetAt(loc, m.disk.blockSize), Front(data, n)), s, loc + n, Back(data, n))
  }

  /** How many of the bytes of a range lie before its last block. */
  function Head(loc: nat, count: nat, blockSize: nat): (n: nat)
    requires blockSize > 0
    ensures n <= count
  {
    if count == 0 then 0
    else
      LastBlock(loc, count, blockSize);
      var start := BlockAt(loc + count - 1, blockSize) * blockSize;
      if start <= loc then 0 else start - loc
  }

  lemma LastBlock(loc: nat, count: nat, blockSize: nat)
    requires blockSize > 0 && count > 0
    ensures BlockAt(loc + count - 1, blockSize) * blockSize <= loc + count - 1
  {
    var last := loc + count - 1;
    assert last == blockSize * (last / blockSize) + last % blockSize;
  }

  /** A range in one block has no such bytes; a longer one has those of its first chunk and of the rest. */
  lemma HeadNext(loc: nat, count: nat, blockSize: nat)
    requires blockSize > 0 && count > 0
    ensures var n := ChunkLength(loc, count, blockSize);
            Head(loc, count, blockSize) == if n == count then 0 else n + Head(loc + n, count - n, blockSize)
  {
    var n := ChunkLength(loc, count, blockSize);
    var last := loc + count - 1;
    assert loc == blockSize * (loc / blockSize) + loc % blockSize;
    assert last == blockSize * (last / blockSize) + last % blockSize;
    if n == count {
      DivisionUnique(last, blockSize, loc / blockSize, loc % blockSize + count - 1);
    } else if last / blockSize <= loc / blockSize {
      if last / blockSize < loc / blockSize {
        Spaced(blockSize, last / blockSize, loc / blockSize);
      }
      assert false;
    } else {
      Spaced(blockSize, loc / blockSize, last / blockSize);
    }
  }

  /** From `s` to `t` the bytes of `data` at `lo` may have been written; nothing else changed. */
  predicate Blends(s: Disk, t: Disk, lo: int, data: seq<byte>) {
    && SameShape(s, t)
    && (forall i | 0 <= i < |s.device| ::
          var written := lo <= i < lo + |data|;
          && (Logical(t)[i] == Logical(s)[i] || (written && Logical(t)[i] == data[i - lo]))
          && (t.device[i] == s.device[i] || t.device[i] == Logical(s)[i] || (written && t.device[i] == data[i - lo])))
  }

  lemma FlushesBlends(s: Disk, t: Disk, lo: int, data: seq<byte>)
    requires Flushes(s, t)
    ensures Blends(s, t, lo, data)
  {
    hide Logical;
  }

  /** One chunk is in the cache, and then some of the rest is written. */
  lemma BlendsThen(s: Disk, c: Disk, t: Disk, u: Disk, lo: nat, data: seq<byte>, n: nat)
    requires n <= |data| && Flushes(s, c) && t.device == c.device && SameShape(c, t)
    requires Logical(t) == Overwrite(Logical(s), lo, Front(data, n))
    requires Blends(t, u, lo + n, Back(data, n))
    ensures Blends(s, u, lo, data)
  {
    hide Logical;
  }

  lemma BlendsTouches(s: Disk, t: Disk, lo: int, data: seq<byte>)
    requires Blends(s, t, lo, data)
    ensures Touches(s, t, lo, lo + |data|)
  {
    hide Logical;
  }

  /** The first chunk of a write. */
  lemma ChunkWrites(m: Machine, s: Script, loc: nat, data: seq<byte>)
    requires Sized(m.disk) && data != [] && CacheBlock(m, s, BlockAt(loc, m.disk.blockSize)).ok
    ensures var c := CacheBlock(m, s, BlockAt(loc, m.disk.blockSize)).machine;
            var n := ChunkLength(loc, |data|, m.disk.blockSize);
            var e := Dirtied(c, OffsetAt(loc, m.disk.blockSize), Front(data, n));
            && Sized(e.disk) && e.disk.device == c.disk.device && e.tick == c.tick
            && SameShape(c.disk, e.disk) && Reach(e.disk) == Reach(m.disk)
            && (Coherent(m.disk) ==>
                  && Coherent(e.disk) && Touches(m.disk, e.disk, loc, loc + n)
                  && Logical(e.disk) == Overwrite(Logical(m.disk), loc, Front(data, n)))
  {
    ChunkFacts(m, s, loc, |data|);
    var c := CacheBlock(m, s, BlockAt(loc, m.disk.blockSize)).machine;
    var n := ChunkLength(loc, |data|, m.disk.blockSize);
    var offset := OffsetAt(loc, m.disk.blockSize);
    hide CacheBlock, Logical, Coherent, BlockAt, OffsetAt, ChunkLength;
    BlockFits(c.disk);
    ChunkWritten(m.disk, c.disk, Dirtied(c, offset, Front(data, n)).disk, offset, Front(data, n));
    hide Touches;
  }

  lemma BlockFits(d: Disk)
    requires Sized(d) && d.block >= 0
    ensures d.block * d.blockSize + d.blockSize <= |d.device|
  {
    BlockInside(d.block, d.blocks, d.blockSize, |d.device|);
  }

  /** A write that succeeds changes exactly its range.  One that fails may have written bytes
      before the last block of its range, and those only. */
  ghost predicate Wrote(m: Machine, w: Did, s: Script, loc: nat, data: seq<byte>)
    requires Sized(m.disk)
  {
    && Sized(w.machine.disk) && m.tick <= w.machine.tick && Reach(w.machine.disk) == Reach(m.disk)
    && SameShape(m.disk, w.machine.disk)
    && (w.ok ==> data == [] || loc + |data| <= Reach(m.disk))
    && (w.ok && Coherent(m.disk) ==>
          && Coherent(w.machine.disk) && Touches(m.disk, w.machine.disk, loc, loc + |data|)
          && Logical(w.machine.disk) == Overwrite(Logical(m.disk), loc, data))
    && (!w.ok && Coherent(m.disk) ==>
          Blends(m.disk, w.machine.disk, loc, Front(data, Head(loc, |data|, m.disk.blockSize))))
    && (Calm(s, m.tick) && (data == [] || loc + |data| <= Reach(m.disk)) ==> w.ok)
    && (CalmUntil(s, m.tick, w.machine.tick) && (data == [] || loc + |data| <= Reach(m.disk)) <==> w.ok)
  }

  lemma {:induction false} WriteFacts(m: Machine, s: Script, loc: nat, data: seq<byte>)
    requires Sized(m.disk)
    ensures Wrote(m, WriteRange(m, s, loc, data), s, loc, data)
    decreases |data|
  {
    assert m.disk.blockSize > 0;
    hide *;
    if data == [] {
      EmptyWrite(m, s, loc);
      NothingWrites(m, s, loc);
    } else if CacheBlock(m, s, BlockAt(loc, m.disk.blockSize)).ok {
      var n, e := FirstChunk(m, s, loc, data);
      WriteFacts(e, s, loc + n, Back(data, n));
      ChunkThenRest(m, s, loc, data, n, e, WriteRange(e, s, loc + n, Back(data, n)));
    } else {
      ChunkFails(m, s, loc, data);
      FirstWrite(m, s, loc, data);
    }
  }

  /** After the first chunk of a write, `n` bytes of it are in the cache of `e`. */
  predicate Begun(m: Machine, s: Script, loc: nat, data: seq<byte>, n: nat, e: Machine)
    requires Sized(m.disk)
  {
    var c := CacheBlock(m, s, BlockAt(loc, m.disk.blockSize));
    && data != [] && c.ok
    && n == ChunkLength(loc, |data|, m.disk.blockSize)
    && e == Dirtied(c.machine, OffsetAt(loc, m.disk.blockSize), Front(data, n))
  }

  /** A write is its first chunk and then the rest. */
  lemma FirstChunk(m: Machine, s: Script, loc: nat, data: seq<byte>) returns (n: nat, e: Machine)
    requires Sized(m.disk) && data != [] && CacheBlock(m, s, BlockAt(loc, m.disk.blockSize)).ok
    ensures Begun(m, s, loc, data, n, e) && 0 < n <= |data| && Sized(e.disk)
    ensures WriteRange(m, s, loc, data) == WriteRange(e, s, loc + n, Back(data, n))
    ensures n == |data| ==> WriteRange(m, s, loc, data).ok
  {
    n := ChunkLength(loc, |data|, m.disk.blockSize);
    var c := CacheBlock(m, s, BlockAt(loc, m.disk.blockSize)).machine;
    e := Dirtied(c, OffsetAt(loc, m.disk.blockSize), Front(data, n));
    ChunkWrites(m, s, loc, data);
    hide CacheBlock, ChunkLength, BlockAt, OffsetAt, Dirtied, Sized;
  }

  lemma NothingWrites(m: Machine, s: Script, loc: nat)
    requires Sized(m.disk)
    ensures Wrote(m, Did(m, true), s, loc, [])
  {
    WriteNothing(m.disk, loc, loc);
    hide Logical, Coherent;
  }

  lemma ChunkFails(m: Machine, s: Script, loc: nat, data: seq<byte>)
    requires Sized(m.disk) && data != [] && !CacheBlock(m, s, BlockAt(loc, m.disk.blockSize)).ok
    ensures Wrote(m, CacheBlock(m, s, BlockAt(loc, m.disk.blockSize)), s, loc, data)
  {
    assert m.disk.blockSize > 0;
    hide CacheBlock, Sized, WellFormed, ChunkLength, BlockAt, OffsetAt, Logical, Coherent, Touches, Reach, Head, Blends,
      Overwrite;
    ChunkFacts(m, s, loc, |data|);
    var c := CacheBlock(m, s, BlockAt(loc, m.disk.blockSize));
    FlushesBlends(m.disk, c.machine.disk, loc, Front(data, Head(loc, |data|, m.disk.blockSize)));
  }

  lemma FrontParts(data: seq<byte>, h: nat, n: nat)
    requires n <= h <= |data|
    ensures Front(Front(data, h), n) == Front(data, n) && Back(Front(data, h), n) == Front(Back(data, n), h - n)
  {
  }

  lemma ChunkThenRest(m: Machine, s: Script, loc: nat, data: seq<byte>, n: nat, e: Machine, w: Did)
    requires Sized(m.disk) && Begun(m, s, loc, data, n, e) && 0 < n <= |data| && Sized(e.disk)
    requires Wrote(e, w, s, loc + n, Back(data, n)) && (n == |data| ==> w.ok)
    ensures Wrote(m, w, s, loc, data)
  {
    assert m.disk.blockSize > 0;
    hide CacheBlock, Sized, WellFormed, ChunkLength, BlockAt, OffsetAt, Dirtied, Logical, Coherent, Touches, Reach, Head,
      Blends, Overwrite, Front, Back;
    var bs := m.disk.blockSize;
    var c := CacheBlock(m, s, BlockAt(loc, bs)).machine;
    ChunkFacts(m, s, loc, |data|);
    ChunkWrites(m, s, loc, data);
    HeadNext(loc, |data|, bs);
    if Coherent(m.disk) {
      if w.ok {
        WriteThen(m.disk, e.disk, w.machine.disk, loc, data, n);
      } else {
        var h := Head(loc, |data|, bs);
        assert n < |data| && h == n + Head(loc + n, |data| - n, bs);
        FrontParts(data, h, n);
        BlendsThen(m.disk, c.disk, e.disk, w.machine.disk, loc, Front(data, h), n);
      }
    }
  }

  lemma WriteThen(s: Disk, e: Disk, t: Disk, loc: nat, data: seq<byte>, n: nat)
    requires n <= |data| && Touches(s, e, loc, loc + n) && Touches(e, t, loc + n, loc + n + |Back(data, n)|)
    requires Logical(e) == Overwrite(Logical(s), loc, Front(data, n))
    requires Logical(t) == Overwrite(Logical(e), loc + n, Back(data, n))
    ensures Touches(s, t, loc, loc + |data|) && Logical(t) == Overwrite(Logical(s), loc, data)
  {
    TouchesWider(s, e, loc, loc + n, loc, loc + |data|);
    TouchesWider(e, t, loc + n, loc + n + |Back(data, n)|, loc, loc + |data|);
    TouchesThen(s, e, t, loc, loc + |data|);
    OverwriteMore(Logical(s), loc, data, n, |data| - n);
    assert data[n..][..|data| - n] == data[n..] && data[..|data|] == data;
    hide Logical, Overwrite, Touches;
  }

  /** A write inside one block that fails has changed nothing. */
  lemma OneBlock(m: Machine, w: Did, s: Script, loc: nat, data: seq<byte>)
    requires Sized(m.disk) && Wrote(m, w, s, loc, data)
    ensures !w.ok && Coherent(m.disk) && loc % m.disk.blockSize + |data| <= m.disk.blockSize ==>
              Flushes(m.disk, w.machine.disk)
  {
    if data != [] && loc % m.disk.blockSize + |data| <= m.disk.blockSize {
      HeadNext(loc, |data|, m.disk.blockSize);
    }
    if !w.ok && Coherent(m.disk) && loc % m.disk.blockSize + |data| <= m.disk.blockSize {
      hide Coherent, Touches, Reach, Blends;
      BlendsTouches(m.disk, w.machine.disk, loc, Front(data, 0));
      TouchesNothing(m.disk, w.machine.disk, loc);
      hide Head, Logical, Overwrite;
    }
  }

  lemma OneBlockWrite(m: Machine, s: Script, loc: nat, data: seq<byte>)
    requires Sized(m.disk)
    ensures var w := WriteRange(m, s, loc, data);
            !w.ok && Coherent(m.disk) && loc % m.disk.blockSize + |data| <= m.disk.blockSize ==>
              Flushes(m.disk, w.machine.disk)
  {
    WriteFacts(m, s, loc, data);
    hide WriteRange, Wrote, Coherent, Flushes;
    OneBlock(m, WriteRange(m, s, loc, data), s, loc, data);
  }

  lemma TouchesNothing(s: Disk, t: Disk, lo: int)
    requires Touches(s, t, lo, lo)
    ensures Flushes(s, t)
  {
    hide Logical;
  }

  /** A read whose first chunk was read, or could not be. */
  function Continued(c: Did, s: Script, loc: nat, count: nat, chunk: seq<byte>): DidRead
    requires Sized(c.machine.disk) && |chunk| <= count
  {
    if !c.ok then DidRead(c.machine, false, [])
    else
      var rest := ReadRange(c.machine, s, loc + |chunk|, count - |chunk|);
      rest.(bytes := chunk + rest.bytes)
  }

  /** A read is its first chunk and then the rest. */
  lemma FirstRead(m: Machine, s: Script, loc: nat, count: nat)
    requires Sized(m.disk) && count > 0
    ensures var bs := m.disk.blockSize;
            var c := CacheBlock(m, s, BlockAt(loc, bs));
            var offset, n := OffsetAt(loc, bs), ChunkLength(loc, count, bs);
            && |c.machine.disk.cache| == bs
            && ReadRange(m, s, loc, count)
            == Continued(c, s, loc, count, if c.ok then c.machine.disk.cache[offset..offset + n] else [])
  {
    var c := CacheBlock(m, s, BlockAt(loc, m.disk.blockSize));
    assert |c.machine.disk.cache| == m.disk.blockSize;
    hide CacheBlock, BlockAt, OffsetAt, ChunkLength, Sized;
  }

  /** A write goes on after its first chunk, or ends when that cannot be cached. */
  lemma FirstWrite(m: Machine, s: Script, loc: nat, data: seq<byte>)
    requires Sized(m.disk) && data != []
    ensures var bs := m.disk.blockSize;
            var c := CacheBlock(m, s, BlockAt(loc, bs));
            && |c.machine.disk.cache| == bs
            && (!c.ok ==> WriteRange(m, s, loc, data) == c)
            && (c.ok ==>
                  var n := ChunkLength(loc, |data|, bs);
                  var e := Dirtied(c.machine, OffsetAt(loc, bs), data[..n]);
                  && Sized(e.disk) && WriteRange(m, s, loc, data) == WriteRange(e, s, loc + n, data[n..]))
  {
    var c := CacheBlock(m, s, BlockAt(loc, m.disk.blockSize));
    assert |c.machine.disk.cache| == m.disk.blockSize;
    hide CacheBlock, BlockAt, OffsetAt, ChunkLength;
    if c.ok {
      var n, e := FirstChunk(m, s, loc, data);
      hide WriteRange, Sized, Dirtied;
    } else {
      hide Sized;
    }
  }

  /** The state after the first chunk of a write, or after the failure to cache its block. */
  function AfterChunk(m: Machine, s: Script, loc: nat, data: seq<byte>, n: nat): (r: Did)
    requires Sized(m.disk) && n <= |data|
  {
    var c := CacheBlock(m, s, BlockAt(loc, m.disk.blockSize));
    if c.ok then Did(Dirtied(c.machine, OffsetAt(loc, m.disk.blockSize), data[..n]), true) else c
  }

  lemma AfterChunkIs(m: Machine, s: Script, loc: nat, data: seq<byte>, n: nat)
    requires Sized(m.disk) && n <= |data|
    ensures AfterChunk(m, s, loc, data, n)
         == var c := CacheBlock(m, s, BlockAt(loc, m.disk.blockSize));
            if c.ok then Did(Dirtied(c.machine, OffsetAt(loc, m.disk.blockSize), data[..n]), true) else c
  {
    hide CacheBlock, BlockAt, OffsetAt, Dirtied;
  }

  lemma AfterFirstWrite(m: Machine, s: Script, loc: nat, data: seq<byte>, n: nat)
    requires Sized(m.disk) && data != [] && n == ChunkLength(loc, |data|, m.disk.blockSize)
    ensures var e := AfterChunk(m, s, loc, data, n);
            && Sized(e.machine.disk)
            && WriteRange(m, s, loc, data) == if e.ok then WriteRange(e.machine, s, loc + n, data[n..]) else e
  {
    FirstWrite(m, s, loc, data);
    AfterChunkIs(m, s, loc, data, n);
    hide CacheBlock, BlockAt, OffsetAt, ChunkLength, Dirtied, WriteRange, AfterChunk, Sized;
  }

  lemma EmptyRead(m: Machine, s: Script, loc: nat)
    requires Sized(m.disk)
    ensures ReadRange(m, s, loc, 0) == DidRead(m, true, [])
  {
  }

  lemma EmptyWrite(m: Machine, s: Script, loc: nat)
    requires Sized(m.disk)
    ensures WriteRange(m, s, loc, []) == Did(m, true)
  {
  }

  // ---- logged writes --------------------------------------------------------

  datatype Logged = Logged(machine: Machine, log: seq<Undo>, ok: bool)

  /** Record the old bytes, then write; a write that fails is not recorded. */
  function LoggedWrite(m: Machine, log: seq<Undo>, s: Script, loc: nat, data: seq<byte>): Logged
    requires Sized(m.disk)
  {
    if |log| >= UNINSTALL_DATA_MAX then Logged(m, log, false)
    else
      ReadFacts(m, s, loc, |data|);
      var r := ReadRange(m, s, loc, |data|);
      if !r.ok then Logged(r.machine, log, false)
      else
        var w := WriteRange(r.machine, s, loc, data);
        Logged(w.machine, if w.ok then log + [Undo(loc, r.bytes)] else log, w.ok)
  }

  /** `u` holds the logical bytes that a write of `count` bytes at `loc` replaces. */
  predicate Replaces(s: Disk, u: Undo, loc: nat, count: nat) {
    u.loc == loc && |u.data| == count
    && (count > 0 ==> loc + count <= |s.device| && u.data == Logical(s)[loc..loc + count])
  }

  /** A logged write inside one block that fails has changed nothing. */
  lemma LoggedOneBlock(m: Machine, log: seq<Undo>, s: Script, loc: nat, data: seq<byte>)
    requires Sized(m.disk)
    ensures var w := LoggedWrite(m, log, s, loc, data);
            !w.ok && Coherent(m.disk) && loc % m.disk.blockSize + |data| <= m.disk.blockSize ==>
              Flushes(m.disk, w.machine.disk)
  {
    hide ReadRange, WriteRange, Logical, Coherent, Touches, Reach, Wrote;
    WriteNothing(m.disk, 0, 0);
    if |log| < UNINSTALL_DATA_MAX {
      ReadFacts(m, s, loc, |data|);
      var r := ReadRange(m, s, loc, |data|);
      if r.ok {
        WriteFacts(r.machine, s, loc, data);
        var w := WriteRange(r.machine, s, loc, data);
        OneBlock(r.machine, w, s, loc, data);
        if !w.ok && Coherent(m.disk) && loc % m.disk.blockSize + |data| <= m.disk.blockSize {
          FlushesThen(m.disk, r.machine.disk, w.machine.disk);
        }
      }
    }
  }

  lemma LoggedFacts(m: Machine, log: seq<Undo>, s: Script, loc: nat, data: seq<byte>)
    requires Sized(m.disk)
    ensures var w := LoggedWrite(m, log, s, loc, data);
            && Sized(w.machine.disk) && m.tick <= w.machine.tick && Reach(w.machine.disk) == Reach(m.disk)
            && SameShape(m.disk, w.machine.disk)
            && (w.ok ==> data == [] || loc + |data| <= Reach(m.disk))
            && (w.ok && Coherent(m.disk) ==>
                  && Coherent(w.machine.disk) && Touches(m.disk, w.machine.disk, loc, loc + |data|)
                  && Logical(w.machine.disk) == Overwrite(Logical(m.disk), loc, data))
            && (!w.ok && Coherent(m.disk) ==>
                  Blends(m.disk, w.machine.disk, loc, Front(data, Head(loc, |data|, m.disk.blockSize))))
            && (!w.ok ==> w.log == log)
            && (!w.ok && (|log| >= UNINSTALL_DATA_MAX || (data != [] && loc + |data| > Reach(m.disk))) ==>
                  Flushes(m.disk, w.machine.disk))
            && (w.ok ==> |log| < UNINSTALL_DATA_MAX && |w.log| == |log| + 1 && w.log[..|log|] == log)
            && (w.ok && Coherent(m.disk) ==> Replaces(m.disk, w.log[|log|], loc, |data|))
            && (Calm(s, m.tick) && (data == [] || loc + |data| <= Reach(m.disk)) && |log| < UNINSTALL_DATA_MAX ==> w.ok)
  {
    assert m.disk.blockSize > 0;
    WriteNothing(m.disk, 0, 0);
    hide ReadRange, WriteRange, Logical, Coherent, Touches, WellFormed, Sized, Reach, Head, Blends, Overwrite;
    ReadFacts(m, s, loc, |data|);
    var r := ReadRange(m, s, loc, |data|);
    WriteFacts(r.machine, s, loc, data);
    assert Wrote(r.machine, WriteRange(r.machine, s, loc, data), s, loc, data);
    if |log| < UNINSTALL_DATA_MAX && r.ok {
      LogicalKept(m.disk, r.machine.disk);
      var w := WriteRange(r.machine, s, loc, data);
      if Coherent(m.disk) {
        if w.ok {
          FlushesTouches(m.disk, r.machine.disk, loc, loc + |data|);
          TouchesThen(m.disk, r.machine.disk, w.machine.disk, loc, loc + |data|);
        } else {
          BlendsAfterFlush(m.disk, r.machine.disk, w.machine.disk, loc, Front(data, Head(loc, |data|, m.disk.blockSize)));
        }
      }
    } else {
      FlushesBlends(m.disk, if |log| < UNINSTALL_DATA_MAX then r.machine.disk else m.disk, loc,
                    Front(data, Head(loc, |data|, m.disk.blockSize)));
    }
  }

  // ---- bytes of a cached block ----------------------------------------------

  lemma CachedSlice(s: Disk, d: Disk, offset: nat, length: nat)
    requires WellFormed(d) && d.block >= 0 && d.block * d.blockSize + d.blockSize <= |d.device|
    requires Flushes(s, d) && offset + length <= d.blockSize
    ensures var pos := d.block * d.blockSize + offset;
            Coherent(d) ==> d.cache[offset..offset + length] == Logical(s)[pos..pos + length]
  {
    hide Logical, Coherent, Flushes;
    FlushesTouches(s, d, 0, 0);
    CachedBytes(d);
    ProductNonNegative(d.block, d.blockSize);
    if Coherent(d) {
      SameSlice(d.cache, Logical(d), d.block * d.blockSize, offset, length);
    }
  }

  lemma SameSlice(c: seq<byte>, l: seq<byte>, base: nat, offset: nat, length: nat)
    requires base + |c| <= |l| && offset + length <= |c| && forall i | 0 <= i < |c| :: c[i] == l[base + i]
    ensures c[offset..offset + length] == l[base + offset..base + offset + length]
  {
  }

  lemma Adjacent(d: seq<byte>, a: nat, b: nat, c: nat)
    requires a <= b <= c <= |d|
    ensures d[a..b] + d[b..c] == d[a..c]
    ensures a == b ==> [] + d[b..c] == d[a..c]
  {
  }

  lemma FlushesThen(s: Disk, t: Disk, u: Disk)
    requires Flushes(s, t) && Flushes(t, u)
    ensures Flushes(s, u) && Logical(t) == Logical(s)
  {
    TouchesThen(s, t, u, 0, 0);
    FlushesTouches(s, t, 0, 0);
    hide Logical;
  }

  lemma WriteNothing(s: Disk, lo: int, hi: int)
    ensures Touches(s, s, lo, hi)
    ensures Overwrite(Logical(s), lo, []) == Logical(s)
  {
  }

  lemma TouchesWider(s: Disk, t: Disk, a: int, b: int, lo: int, hi: int)
    requires Touches(s, t, a, b) && lo <= a && b <= hi
    ensures Touches(s, t, lo, hi)
  {
    hide Logical;
  }

  /** Two adjacent pieces of one write. */
  lemma OverwriteMore(d: seq<byte>, loc: nat, data: seq<byte>, p: nat, w: nat)
    requires p + w <= |data|
    ensures Overwrite(Overwrite(d, loc, data[..p]), loc + p, data[p..][..w]) == Overwrite(d, loc, data[..p + w])
  {
  }

  /** Changing bytes of a coherent cached block changes those logical bytes. */
  lemma CachedWrite(s: Disk, t: Disk, offset: nat, data: seq<byte>)
    requires WellFormed(s) && s.block >= 0 && s.block * s.blockSize + s.blockSize <= |s.device|
    requires offset + |data| <= s.blockSize
    requires t == s.(cache := Overwrite(s.cache, offset, data), dirty := true)
    ensures Coherent(s) ==> Logical(t) == Overwrite(Logical(s), s.block * s.blockSize + offset, data)
  {
    if Coherent(s) {
      CachedBytes(s);
      forall i | 0 <= i < |s.device|
        ensures Logical(t)[i] == Overwrite(Logical(s), s.block * s.blockSize + offset, data)[i]
      {
        var k := i - s.block * s.blockSize;
        if 0 <= k < s.blockSize {
          assert s.cache[k] == Logical(s)[s.block * s.blockSize + k];
        }
      }
    }
  }

  lemma ChunkWritten(s: Disk, m: Disk, t: Disk, offset: nat, data: seq<byte>)
    requires Flushes(s, m)
    requires WellFormed(m) && m.block >= 0 && m.block * m.blockSize + m.blockSize <= |m.device|
    requires offset + |data| <= m.blockSize
    requires t == m.(cache := Overwrite(m.cache, offset, data), dirty := true)
    ensures Coherent(m) ==>
              var pos := m.block * m.blockSize + offset;
              && Coherent(t)
              && Touches(s, t, pos, pos + |data|)
              && Logical(t) == Overwrite(Logical(s), pos, data)
  {
    CachedWrite(m, t, offset, data);
    FlushesTouches(s, m, 0, 0);
    hide Logical, WellFormed;
  }

  lemma LogicalKept(s: Disk, t: Disk)
    requires Flushes(s, t)
    ensures Logical(t) == Logical(s) && SameShape(s, t)
  {
    hide Logical;
  }

  lemma BlendsAfterFlush(s: Disk, m: Disk, t: Disk, lo: int, data: seq<byte>)
    requires Flushes(s, m) && Blends(m, t, lo, data)
    ensures Blends(s, t, lo, data)
  {
    hide Logical;
  }

  /** Position `pos` is byte `pos % blockSize` of block `pos / blockSize`. */
  lemma Locate(pos: nat, blockSize: nat, blocks: nat, size: nat)
    requires blockSize > 0 && blocks * blockSize <= size < blocks * blockSize + blockSize
    ensures pos == (pos / blockSize) * blockSize + pos % blockSize
    ensures pos / blockSize < blocks ==> (pos / blockSize) * blockSize + blockSize <= size
    ensures pos < blocks * blockSize ==> pos / blockSize < blocks
  {
    var q := pos / blockSize;
    assert pos == blockSize * q + pos % blockSize;
    BlockInside(q, blocks, blockSize, size);
    if blocks < q {
      Spaced(blockSize, blocks, q);
    }
  }

  /** Reading the cached block gives the logical bytes. */
  lemma CachedBytes(d: Disk)
    requires WellFormed(d) && d.block >= 0 && d.block * d.blockSize + d.blockSize <= |d.device|
    ensures Coherent(d) ==>
              forall i | 0 <= i < d.blockSize :: d.cache[i] == Logical(d)[d.block * d.blockSize + i]
  {
  }
}
